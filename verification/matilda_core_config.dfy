/**
 * `MatildaCore::Config`: the engine's settings with their defaults, and the
 * two registries kept on it, the sidebar items (unique names, ordered by
 * `index`) and the memberships permissions (unique names, insertion order).
 * Ruby's `throw` of a tag becomes a returned failure.
 */
module MatildaCore {
  import opened Wrappers

  const DefaultGlobalTitle: string := "Matilda"
  const DefaultDateFormat: string := "%d-%m-%Y"
  const DefaultMailerFromAddress: string := "Matilda <matilda@1d3o.it>"

  datatype SidebarItem = SidebarItem(name: string, labelText: string, url: string, icon: string, permission: Option<string>, index: int)

  datatype MembershipPermission = MembershipPermission(name: string, labelText: string, group: string, index: int)

  /** The tags the registry methods throw. */
  datatype ConfigError = NameAlreadyUsed | NameNotUsed

  datatype Outcome = Pass | Fail(error: ConfigError)

  ghost predicate SortedByIndex(items: seq<SidebarItem>)
  {
    forall i, j :: 0 <= i < j < |items| ==> items[i].index <= items[j].index
  }

  ghost predicate DistinctNames(items: seq<SidebarItem>)
  {
    forall i, j :: 0 <= i < j < |items| ==> items[i].name != items[j].name
  }

  ghost predicate DistinctPermissionNames(perms: seq<MembershipPermission>)
  {
    forall i, j :: 0 <= i < j < |perms| ==> perms[i].name != perms[j].name
  }

  /** `@sidebar_items.map { |i| i[:name] }.include?(name)`. */
  predicate NameUsed(items: seq<SidebarItem>, name: string)
  {
    exists k :: 0 <= k < |items| && items[k].name == name
  }

  /** `@memberships_permissions.map { |i| i[:name] }.include?(name)`. */
  predicate PermissionNameUsed(perms: seq<MembershipPermission>, name: string)
  {
    exists k :: 0 <= k < |perms| && perms[k].name == name
  }

  /**
   * One insertion step of the sort by `index`: the item goes after every
   * item whose index is not larger.
   */
  method InsertByIndex(sorted: seq<SidebarItem>, item: SidebarItem) returns (r: seq<SidebarItem>)
    requires SortedByIndex(sorted)
    ensures SortedByIndex(r)
    ensures multiset(r) == multiset(sorted) + multiset{item}
    ensures DistinctNames(sorted) && !NameUsed(sorted, item.name) ==> DistinctNames(r)
  {
    var p := 0;
    while p < |sorted| && sorted[p].index <= item.index
      invariant 0 <= p <= |sorted|
      invariant forall k :: 0 <= k < p ==> sorted[k].index <= item.index
    {
      p := p + 1;
    }
    assert forall k :: p <= k < |sorted| ==> item.index < sorted[k].index by {
      if p < |sorted| {
        forall k | p <= k < |sorted| ensures item.index < sorted[k].index {
          assert sorted[p].index <= sorted[k].index;
        }
      }
    }
    r := sorted[..p] + [item] + sorted[p..];
    InsertAtSorted(sorted, p, item);
    if DistinctNames(sorted) && !NameUsed(sorted, item.name) {
      InsertAtDistinct(sorted, p, item);
    }
    InsertAtMultiset(sorted, p, item);
  }

  /** Inserting at any position adds exactly the item to the multiset. */
  lemma InsertAtMultiset(sorted: seq<SidebarItem>, p: nat, item: SidebarItem)
    requires p <= |sorted|
    ensures multiset(sorted[..p] + [item] + sorted[p..]) == multiset(sorted) + multiset{item}
  {
    assert sorted == sorted[..p] + sorted[p..];
  }

  /** Inserting at a position between the smaller-or-equal and the larger indices keeps the order. */
  lemma InsertAtSorted(sorted: seq<SidebarItem>, p: nat, item: SidebarItem)
    requires SortedByIndex(sorted) && p <= |sorted|
    requires forall k :: 0 <= k < p ==> sorted[k].index <= item.index
    requires forall k :: p <= k < |sorted| ==> item.index < sorted[k].index
    ensures SortedByIndex(sorted[..p] + [item] + sorted[p..])
  {
    var r := sorted[..p] + [item] + sorted[p..];
    forall i, j | 0 <= i < j < |r| ensures r[i].index <= r[j].index {
      if j < p {
        assert r[i] == sorted[i] && r[j] == sorted[j];
      } else if j == p {
        assert r[i] == sorted[i] && r[j] == item;
      } else if i < p {
        assert r[i] == sorted[i] && r[j] == sorted[j - 1];
      } else if i == p {
        assert r[i] == item && r[j] == sorted[j - 1];
      } else {
        assert r[i] == sorted[i - 1] && r[j] == sorted[j - 1];
      }
    }
  }

  /** Inserting an item with an unused name keeps the names unique. */
  lemma InsertAtDistinct(sorted: seq<SidebarItem>, p: nat, item: SidebarItem)
    requires DistinctNames(sorted) && !NameUsed(sorted, item.name) && p <= |sorted|
    ensures DistinctNames(sorted[..p] + [item] + sorted[p..])
  {
    var r := sorted[..p] + [item] + sorted[p..];
    forall i, j | 0 <= i < j < |r| ensures r[i].name != r[j].name {
      if j < p {
        assert r[i] == sorted[i] && r[j] == sorted[j];
      } else if j == p {
        assert r[i] == sorted[i] && r[j] == item;
      } else if i < p {
        assert r[i] == sorted[i] && r[j] == sorted[j - 1];
      } else if i == p {
        assert r[i] == item && r[j] == sorted[j - 1];
      } else {
        assert r[i] == sorted[i - 1] && r[j] == sorted[j - 1];
      }
    }
  }

  /** An item already placed by the sort is one of the earlier items, so its name differs. */
  lemma NotYetPlaced(items: seq<SidebarItem>, i: nat, sorted: seq<SidebarItem>)
    requires DistinctNames(items) && i < |items|
    requires multiset(sorted) == multiset(items[..i])
    ensures !NameUsed(sorted, items[i].name)
  {
    forall k | 0 <= k < |sorted| ensures sorted[k].name != items[i].name {
      assert sorted[k] in multiset(items[..i]);
      var m :| 0 <= m < i && items[m] == sorted[k];
    }
  }

  /** `sort_by { |hsh| hsh[:index] }`: a permutation ordered by non-decreasing index. */
  method SortByIndex(items: seq<SidebarItem>) returns (sorted: seq<SidebarItem>)
    ensures SortedByIndex(sorted)
    ensures multiset(sorted) == multiset(items)
    ensures DistinctNames(items) ==> DistinctNames(sorted)
  {
    sorted := [];
    for i := 0 to |items|
      invariant SortedByIndex(sorted)
      invariant multiset(sorted) == multiset(items[..i])
      invariant DistinctNames(items) ==> DistinctNames(sorted)
    {
      if DistinctNames(items) {
        NotYetPlaced(items, i, sorted);
      }
      sorted := InsertByIndex(sorted, items[i]);
      assert items[..i + 1] == items[..i] + [items[i]];
    }
    assert items[..|items|] == items;
  }

  /** `reject { |si| si[:name] == name }`: the other items, in their order. */
  function Reject(items: seq<SidebarItem>, name: string): (r: seq<SidebarItem>)
    ensures |r| <= |items|
    ensures forall k :: 0 <= k < |r| ==> r[k].name != name
  {
    if items == [] then []
    else if items[0].name == name then Reject(items[1..], name)
    else [items[0]] + Reject(items[1..], name)
  }

  /** An item survives `reject` exactly when it was in the list and carries another name. */
  lemma {:induction false} RejectFilters(items: seq<SidebarItem>, name: string, x: SidebarItem)
    ensures x in Reject(items, name) <==> x in items && x.name != name
  {
    if items != [] {
      RejectFilters(items[1..], name, x);
      assert items == [items[0]] + items[1..];
    }
  }

  /** `reject` works item by item: on two lists joined, it is the join of the two results, so order is kept. */
  lemma {:induction false} RejectConcat(a: seq<SidebarItem>, b: seq<SidebarItem>, name: string)
    ensures Reject(a + b, name) == Reject(a, name) + Reject(b, name)
  {
    if a != [] {
      assert (a + b)[1..] == a[1..] + b;
      RejectConcat(a[1..], b, name);
    } else {
      assert a + b == b;
    }
  }

  /**
   * With unique names, rejecting a name removes exactly the one item at its
   * position and keeps every other item in its order.
   */
  lemma {:induction false} RejectRemovesOne(items: seq<SidebarItem>, p: nat)
    requires DistinctNames(items) && p < |items|
    ensures Reject(items, items[p].name) == items[..p] + items[p + 1..]
  {
    var name := items[p].name;
    var rest := items[1..];
    if p == 0 {
      forall k | 0 <= k < |rest| ensures rest[k].name != name {
        assert rest[k] == items[k + 1];
      }
      RejectKeepsAll(rest, name);
      assert Reject(items, name) == Reject(rest, name);
      assert items[..0] + items[1..] == rest;
    } else {
      forall i, j | 0 <= i < j < |rest| ensures rest[i].name != rest[j].name {
        assert rest[i] == items[i + 1] && rest[j] == items[j + 1];
      }
      assert rest[p - 1] == items[p];
      RejectRemovesOne(rest, p - 1);
      assert items[0].name != name;
      assert Reject(items, name) == [items[0]] + Reject(rest, name);
      assert items[..p] == [items[0]] + rest[..p - 1];
      assert items[p + 1..] == rest[p..];
    }
  }

  /** Rejecting a name that no item carries keeps the list as it is. */
  lemma {:induction false} RejectKeepsAll(items: seq<SidebarItem>, name: string)
    requires forall k :: 0 <= k < |items| ==> items[k].name != name
    ensures Reject(items, name) == items
  {
    if items != [] {
      var rest := items[1..];
      forall k | 0 <= k < |rest| ensures rest[k].name != name {
        assert rest[k] == items[k + 1];
      }
      RejectKeepsAll(rest, name);
      assert [items[0]] + rest == items;
    }
  }

  /** Removing one position keeps the order by index. */
  lemma RemoveAtSorted(items: seq<SidebarItem>, p: nat)
    requires SortedByIndex(items) && p < |items|
    ensures SortedByIndex(items[..p] + items[p + 1..])
  {
    var r := items[..p] + items[p + 1..];
    assert forall k :: 0 <= k < p ==> r[k] == items[k];
    assert forall k :: p <= k < |r| ==> r[k] == items[k + 1];
  }

  /** Removing one position keeps the names unique. */
  lemma RemoveAtDistinct(items: seq<SidebarItem>, p: nat)
    requires DistinctNames(items) && p < |items|
    ensures DistinctNames(items[..p] + items[p + 1..])
  {
    var r := items[..p] + items[p + 1..];
    assert forall k :: 0 <= k < p ==> r[k] == items[k];
    assert forall k :: p <= k < |r| ==> r[k] == items[k + 1];
  }

  class Config {
    var globalTitle: string
    var globalLogo: Option<string>
    var globalDateFormat: string
    var globalVersion: string
    var mailerFromAddress: string
    var authenticationPermitSignup: bool
    var authenticationSignupDefaultGroupUuid: Option<string>
    var authenticationSignupDefaultGroupPermissions: seq<string>
    var authenticationInvitationDefaultGroupPermissions: seq<string>
    var authenticationLoginGroupSelection: Option<string>
    var groupsRootPath: Option<string>
    var groupsPermitCreationToUsers: bool
    var groupsMaxNumberPerUser: Option<int>
    var sidebarItems: seq<SidebarItem>
    var membershipsPermissions: seq<MembershipPermission>

    /** Sidebar items ordered by index with unique names; permission names unique. */
    ghost predicate Valid()
      reads this`sidebarItems, this`membershipsPermissions
    {
      && SortedByIndex(sidebarItems)
      && DistinctNames(sidebarItems)
      && DistinctPermissionNames(membershipsPermissions)
    }

    /** The values `set_default_options` assigns; `version` is `MatildaCore::VERSION`. */
    ghost predicate HasDefaults(version: string)
      reads this
    {
      && globalTitle == DefaultGlobalTitle
      && globalLogo.None?
      && globalDateFormat == DefaultDateFormat
      && globalVersion == version
      && mailerFromAddress == DefaultMailerFromAddress
      && authenticationPermitSignup
      && authenticationSignupDefaultGroupUuid.None?
      && authenticationSignupDefaultGroupPermissions == []
      && authenticationInvitationDefaultGroupPermissions == []
      && groupsRootPath.None?
      && groupsPermitCreationToUsers
      && groupsMaxNumberPerUser.None?
      && sidebarItems == []
      && membershipsPermissions == []
    }

    /** `initialize`: every setting at its default, the login group selection unset. */
    constructor (version: string)
      ensures Valid() && HasDefaults(version)
      ensures authenticationLoginGroupSelection.None?
    {
      authenticationLoginGroupSelection := None;
      new;
      SetDefaultOptions(version);
    }

    /** `set_default_options`: every setting it names back at its default, both registries emptied. */
    method SetDefaultOptions(version: string)
      modifies this
      ensures Valid() && HasDefaults(version)
      ensures authenticationLoginGroupSelection == old(authenticationLoginGroupSelection)
    {
      ResetGlobalOptions(version);
      ResetAuthenticationOptions();
      ResetGroupsOptions();
      sidebarItems := [];
      membershipsPermissions := [];
    }

    /** The global and mailer part of `set_default_options`. */
    method ResetGlobalOptions(version: string)
      modifies this`globalTitle, this`globalLogo, this`globalDateFormat, this`globalVersion, this`mailerFromAddress
      ensures globalTitle == DefaultGlobalTitle && globalLogo.None? && globalDateFormat == DefaultDateFormat
      ensures globalVersion == version && mailerFromAddress == DefaultMailerFromAddress
    {
      globalTitle := DefaultGlobalTitle;
      globalLogo := None;
      globalDateFormat := DefaultDateFormat;
      globalVersion := version;
      mailerFromAddress := DefaultMailerFromAddress;
    }

    /** The authentication part of `set_default_options`; the login group selection is not touched. */
    method ResetAuthenticationOptions()
      modifies this`authenticationPermitSignup, this`authenticationSignupDefaultGroupUuid,
        this`authenticationSignupDefaultGroupPermissions, this`authenticationInvitationDefaultGroupPermissions
      ensures authenticationPermitSignup && authenticationSignupDefaultGroupUuid.None?
      ensures authenticationSignupDefaultGroupPermissions == [] && authenticationInvitationDefaultGroupPermissions == []
    {
      authenticationPermitSignup := true;
      authenticationSignupDefaultGroupUuid := None;
      authenticationSignupDefaultGroupPermissions := [];
      authenticationInvitationDefaultGroupPermissions := [];
    }

    /** The groups part of `set_default_options`. */
    method ResetGroupsOptions()
      modifies this`groupsRootPath, this`groupsPermitCreationToUsers, this`groupsMaxNumberPerUser
      ensures groupsRootPath.None? && groupsPermitCreationToUsers && groupsMaxNumberPerUser.None?
    {
      groupsRootPath := None;
      groupsPermitCreationToUsers := true;
      groupsMaxNumberPerUser := None;
    }

    /**
     * `add_sidebar_item`: a used name fails and changes nothing; otherwise the
     * new item joins the list, which is re-sorted by index.
     */
    method AddSidebarItem(name: string, labelText: string := "", url: string := "", icon: string := "",
                          permission: Option<string> := None, index: int := 0)
      returns (outcome: Outcome)
      requires Valid()
      modifies this`sidebarItems
      ensures Valid()
      ensures outcome.Fail? <==> NameUsed(old(sidebarItems), name)
      ensures outcome.Fail? ==> outcome.error == NameAlreadyUsed && sidebarItems == old(sidebarItems)
      ensures outcome.Pass? ==>
        && |sidebarItems| == |old(sidebarItems)| + 1
        && multiset(sidebarItems) == multiset(old(sidebarItems)) + multiset{SidebarItem(name, labelText, url, icon, permission, index)}
    {
      if NameUsed(sidebarItems, name) {
        return Fail(NameAlreadyUsed);
      }
      var pushed := sidebarItems + [SidebarItem(name, labelText, url, icon, permission, index)];
      assert DistinctNames(pushed) by {
        forall i, j | 0 <= i < j < |pushed| ensures pushed[i].name != pushed[j].name {
          if j == |pushed| - 1 {
            assert pushed[i] == sidebarItems[i];
          }
        }
      }
      sidebarItems := SortByIndex(pushed);
      assert |multiset(sidebarItems)| == |multiset(pushed)|;
      outcome := Pass;
    }

    /**
     * `remove_sidebar_item`: an unused name fails and changes nothing;
     * otherwise the item with that name leaves and the others keep their order.
     */
    method RemoveSidebarItem(name: string) returns (outcome: Outcome)
      requires Valid()
      modifies this`sidebarItems
      ensures Valid()
      ensures outcome.Fail? <==> !NameUsed(old(sidebarItems), name)
      ensures outcome.Fail? ==> outcome.error == NameNotUsed && sidebarItems == old(sidebarItems)
      ensures outcome.Pass? ==>
        && sidebarItems == Reject(old(sidebarItems), name)
        && !NameUsed(sidebarItems, name)
        && exists p :: 0 <= p < |old(sidebarItems)| && old(sidebarItems)[p].name == name
             && sidebarItems == old(sidebarItems)[..p] + old(sidebarItems)[p + 1..]
    {
      if !NameUsed(sidebarItems, name) {
        return Fail(NameNotUsed);
      }
      var p :| 0 <= p < |sidebarItems| && sidebarItems[p].name == name;
      RejectRemovesOne(sidebarItems, p);
      RemoveAtSorted(sidebarItems, p);
      RemoveAtDistinct(sidebarItems, p);
      sidebarItems := Reject(sidebarItems, name);
      outcome := Pass;
    }

    /**
     * `add_memberships_permission`: a used name fails and changes nothing;
     * otherwise the permission is appended at the end.
     */
    method AddMembershipsPermission(name: string, labelText: string := "", group: string := "Default", index: int := 0)
      returns (outcome: Outcome)
      requires Valid()
      modifies this`membershipsPermissions
      ensures Valid()
      ensures outcome.Fail? <==> PermissionNameUsed(old(membershipsPermissions), name)
      ensures outcome.Fail? ==> outcome.error == NameAlreadyUsed && membershipsPermissions == old(membershipsPermissions)
      ensures outcome.Pass? ==>
        membershipsPermissions == old(membershipsPermissions) + [MembershipPermission(name, labelText, group, index)]
    {
      if PermissionNameUsed(membershipsPermissions, name) {
        return Fail(NameAlreadyUsed);
      }
      var before := membershipsPermissions;
      membershipsPermissions := membershipsPermissions + [MembershipPermission(name, labelText, group, index)];
      assert forall k :: 0 <= k < |before| ==> membershipsPermissions[k] == before[k];
      outcome := Pass;
    }
  }
}
