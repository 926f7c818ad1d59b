# Matilda core: request runner, table engine, configuration registries

This project models three pieces of the matilda-core engine in Dafny and proves properties about them.

- **The request runner of `useMatildaRequest`** (`MatildaRequest`).
  - Route keys resolve to `{path, method}` descriptors (`getRouteObject`).
  - `send` has a single-flight `running` flag.
  - A GET builds its URL by appending `key=value&` once per parameter, with nothing percent-encoded.
  - Any other method sends the JSON text of the parameters as its body.
  - Every outcome becomes a `{result, errors}` envelope, and an error notification can be shown.
  - `fetch` is not modelled. `Send` records the exchange it issues. The outcome (a parsed envelope or a transport failure) is an argument to `Resolve`.
- **The table engine of `useMatildaTable`** (`MatildaTable`).
  - The wire parameters that `loadData` computes, with `routeExtraParams` assigned over them.
  - The three-way pagination priority applied when a response arrives.
  - `onTableChange`, the first load, and the selection handlers. The hook state is plain fields of a class.
- **The column layout `calculateColumnsWidth`** (`ColumnLayout`).
  - A nested loop over an array of widths, proved against a fold and its closed form.
  - The canvas measurer `getTextWidth` is a parameter `measure: string -> nat`. It already includes the `+ 80` and the rounding.
- **`MatildaCore::Config`** (`MatildaCore`).
  - The defaults that `set_default_options` assigns.
  - The sidebar registry: unique names, kept ordered by `index`.
  - The memberships-permission registry: unique names, kept in insertion order.
  - Ruby's uncaught `throw` becomes a returned `Fail` outcome.

Supporting modules:
- `Text`: `join` and `split` on one character, and decimal rendering.
- `Json`: `JSON.stringify` of a flat object, and a reader of flat objects that reads its text back.
- `Records`: table rows.
- `Wrappers`: `Option` and `Result`.

Some behaviours of the code are easy to miss, and the model keeps them as written:
- `calculateColumnsWidth` with no columns throws, because `reduce` has no initial value. It returns `Failure(EmptyReduce)`.
- A response whose `result` is falsy leaves `loading` set, because the handler returns before `setLoading(false)`.
- `filters_keys` lists every key of the filters object, including keys whose value is `null`.
- A route key that `getRouteObject` rejects throws after `running` was set. Nothing clears the flag afterwards, so every later `send` is ignored (`StuckAfterThrow`).
- A `null` key passes the `typeof == 'object'` test and then fails on `.path`.
- When `send` resolves `null` while a request is running, `loadData` reads `response.result` on `null`. This is a TypeError, not a graceful no-op (`LoadStart.NullResponse`).

## Model

| member | source | states |
|---|---|---|
| MatildaRequest.GetRouteObject | front/matilda_core/components/MatildaRequest.jsx:40-51 | A registry hit wins whatever the key's type. Otherwise an object key passes through unchanged and a string key becomes a GET to that path. The key is refused exactly when there is no hit and it is neither an object nor a string. `null` passes through as null. |
| MatildaRequest.BuildUrl | front/matilda_core/components/MatildaRequest.jsx:59-63 | The loop that reassigns `url` yields `path + "?" + Query(params)` for GET, so empty params give exactly `path?`. Any other method gets the bare path. |
| MatildaRequest.QueryRoundTrip | front/matilda_core/components/MatildaRequest.jsx:62 | When no key holds `&` or `=` and no value holds `&`, a literal reader that splits the query on `&` and then on the first `=`, decoding nothing, recovers every key with its rendered value, in entry order. |
| MatildaRequest.AmpersandValueSplits | front/matilda_core/components/MatildaRequest.jsx:62 | Because nothing is encoded, the value `a&b` reads back as two entries, `q=a` and a bare key `b`. |
| MatildaRequest.QuerySnoc | front/matilda_core/components/MatildaRequest.jsx:62 | Appending one parameter appends its `key=value&` to the query, which is the step each pass of the URL loop takes. |
| MatildaRequest.QueryShape | front/matilda_core/components/MatildaRequest.jsx:62 | The query is empty exactly when there are no parameters. Otherwise it ends with the trailing `&`. |
| MatildaRequest.ExchangeFor | front/matilda_core/components/MatildaRequest.jsx:59-72 | A GET gets the query URL and a null body. Any other method gets the bare path and the JSON text of the parameters. The method is kept. Both `Accept` and `Content-Type` are `application/json`. |
| Json.Stringify | front/matilda_core/components/MatildaRequest.jsx:67 | The body is an object text in braces, and `{}` for a parameter object with no entries. |
| Json.StringifyRoundTrip | front/matilda_core/components/MatildaRequest.jsx:67 | The body reads back as exactly the parameter object: every key with its string, integer or boolean value, in entry order, under a reader of flat JSON objects. |
| Json.EscapeRoundTrip | front/matilda_core/components/MatildaRequest.jsx:67 | Every string value that `JSON.stringify` writes into the body reads back unchanged under `Unescape`, the reader of the escapes `JSON.stringify` writes. |
| Text.Join | front_bk/matilda_core/components/MatildaTable.jsx:126-127 | Joining no elements gives `''` and one element gives that element. Otherwise the text starts with the first element. |
| Text.SplitJoin | front_bk/matilda_core/components/MatildaTable.jsx:126-127 | Splitting a comma join gives back the non-empty list when no element holds the separator. |
| Text.NatToStringRoundTrip | front/matilda_core/components/MatildaRequest.jsx:62 | The decimal text that a template literal gives a natural-number parameter reads back as that number. |
| MatildaRequest.Normalize | front/matilda_core/components/MatildaRequest.jsx:86-94 | A parsed envelope is kept as it is. A transport or parse failure becomes `{result: false, errors: [{message: default}]}` and is never rejected. |
| MatildaRequest.ErrorMessage | front/matilda_core/components/MatildaRequest.jsx:77-78 | The message is the first error's when `errors` is present and non-empty. Otherwise it is the default message. |
| MatildaRequest.MakeRequestConfig | front/matilda_core/components/MatildaRequest.jsx:33-38 | `manageError` defaults to true and the default message to the translation of `messages.general_error`. Each entry the caller passes overrides its default. |
| MatildaRequest.Notification | front/matilda_core/components/MatildaRequest.jsx:76-80 | There is a notification exactly when errors are managed and `result` is falsy. Its text is `ErrorMessage` of the envelope: `errors[0].message` when there is one, else the default message. |
| MatildaRequest.FailureReportsDefault | front/matilda_core/components/MatildaRequest.jsx:90-94 | A transport failure is reported with the default message exactly when errors are managed. |
| MatildaRequest.RequestRunner.constructor | front/matilda_core/components/MatildaRequest.jsx:29-38 | A fresh runner is not running, has issued nothing and has shown nothing. Its config is the defaults merged with the props. |
| MatildaRequest.RequestRunner.Send | front/matilda_core/components/MatildaRequest.jsx:53-72 | While running, the call is ignored and the state is unchanged. Otherwise `running` is set first. A resolved route then issues exactly one exchange, `ExchangeFor` of that route. An invalid key, or `null`, throws and issues nothing. |
| MatildaRequest.RequestRunner.Resolve | front/matilda_core/components/MatildaRequest.jsx:75-94 | The envelope is the normalised outcome. A notification is appended exactly as `Notification` says. `running` is cleared before the envelope is returned. |
| MatildaRequest.SingleFlight | front/matilda_core/components/MatildaRequest.jsx:54 | A second send before the first completes is ignored. A send after completion goes out again. |
| MatildaRequest.StuckAfterThrow | front/matilda_core/components/MatildaRequest.jsx:49-56 | After an invalid route key has thrown, every later send is ignored. |
| MatildaTable.PageParam | front_bk/matilda_core/components/MatildaTable.jsx:122 | `page` is `pagination.current` when that is present and non-zero. Otherwise it is 1. |
| MatildaTable.PerPageParam | front_bk/matilda_core/components/MatildaTable.jsx:123 | `per_page` is `pageSize` when that is present and non-zero. Otherwise it is 25. |
| MatildaTable.SortFieldParam | front_bk/matilda_core/components/MatildaTable.jsx:124 | `sort_field` is the sort field, or `''` when there is none. |
| MatildaTable.SortOrderParam | front_bk/matilda_core/components/MatildaTable.jsx:125 | `sort_order` is `DESC` exactly when the order is `descend`. It is `ASC` for every other order and when the order is absent. |
| MatildaTable.FilterKeys | front_bk/matilda_core/components/MatildaTable.jsx:126 | The i-th key listed is the i-th filter's key, for every filter. |
| MatildaTable.FilterValues | front_bk/matilda_core/components/MatildaTable.jsx:127 | The i-th value listed is the i-th filter's value as `join` prints it (`null` as `''`). |
| MatildaTable.WireParams | front_bk/matilda_core/components/MatildaTable.jsx:121-128 | There are exactly six entries with distinct keys `page`, `per_page`, `sort_field`, `sort_order`, `filters_keys` and `filters_values`, in that order. Each key reads back its value: `PageParam`, `PerPageParam`, `SortFieldParam`, `SortOrderParam`, and the comma joins of `FilterKeys` and `FilterValues`. |
| MatildaTable.LookupDistinct | front_bk/matilda_core/components/MatildaTable.jsx:121-129 | With distinct keys, a property read of each key finds that entry's value. |
| MatildaTable.FiltersAligned | front_bk/matilda_core/components/MatildaTable.jsx:126-127 | With comma-free keys and single comma-free values, splitting both wire strings pairs the i-th key with the i-th filter's value. |
| MatildaTable.MultiValueFilterMisaligns | front_bk/matilda_core/components/MatildaTable.jsx:127 | A filter with two selected values yields one key but two comma-separated values. |
| MatildaTable.SecondPageSortedQuery | front_bk/matilda_core/components/MatildaTable.jsx:121-128 | Page 2 of 25, sorted descending on `name`, with no filters, gives the GET query `page=2&per_page=25&sort_field=name&sort_order=DESC&filters_keys=&filters_values=&`. |
| MatildaTable.Put | front_bk/matilda_core/components/MatildaTable.jsx:129 | Setting one property keeps every existing key in its place and makes the key read back as the new value. Every other key reads as before. A new key is added once, at the end; an existing key is overwritten in place and the list does not grow. Distinct keys stay distinct. |
| MatildaTable.Assign | front_bk/matilda_core/components/MatildaTable.jsx:129 | `Object.assign` keeps every key of the target in its position, and a target with distinct keys stays so. |
| MatildaTable.AssignLookup | front_bk/matilda_core/components/MatildaTable.jsx:129 | After the assign, a key of the source reads as the source's value. Every other key keeps the target's value. |
| MatildaTable.AssignLookupAll | front_bk/matilda_core/components/MatildaTable.jsx:129 | The same, for all keys at once. |
| MatildaTable.MakeTableConfig | front_bk/matilda_core/components/MatildaTable.jsx:66-78 | Every option the caller leaves out takes its default: no route, no extra params, a data parser that gives `[]`, no pagination parser, no pagination. Every option given is kept. |
| MatildaTable.LoadParams | front_bk/matilda_core/components/MatildaTable.jsx:117-129 | Keys in `routeExtraParams` override the computed parameters. Computed keys absent there keep their computed values. The six computed keys stay first, in declaration order. No key appears twice. |
| MatildaTable.Merge | front_bk/matilda_core/components/MatildaTable.jsx:133-150 | A falsy `result` changes nothing, so `loading` stays set. Otherwise `data` is the parser's rows, `loading` is cleared and the selection is kept. An unpaginated table keeps its pagination. |
| MatildaTable.NextPagination | front_bk/matilda_core/components/MatildaTable.jsx:136-144 | An unpaginated table keeps its current pagination. A paginated table without a parser always ends with a pagination object. |
| MatildaTable.ParserWins | front_bk/matilda_core/components/MatildaTable.jsx:136-138 | On a paginated table, the pagination parser's result wins, even over a standard block in the response. |
| MatildaTable.StandardBlockMapped | front_bk/matilda_core/components/MatildaTable.jsx:139-140 | Without a parser, the payload block maps `total_items`, `page` and `per_page` to `total`, `current` and `pageSize`. |
| MatildaTable.ConfiguredPaginationFallback | front_bk/matilda_core/components/MatildaTable.jsx:141-142 | With neither a parser nor a block, the configured pagination is restored. |
| MatildaTable.TableEngine.constructor | front_bk/matilda_core/components/MatildaTable.jsx:58-78 | The initial hook state is: loading, no data, the caller's pagination, no selection. The request runner is fresh. |
| MatildaTable.TableEngine.LoadData | front_bk/matilda_core/components/MatildaTable.jsx:117-132 | `loading` is set and nothing else in the table changes. The runner's `send` gets `LoadParams`. The result is the pending exchange, the null response of an ignored send, or the error `send` threw. |
| MatildaTable.TableEngine.OnTableChange | front_bk/matilda_core/components/MatildaTable.jsx:160-162 | The handler takes `(pagination, filters, sort)` and performs the load for `(pagination, sort, filters)`. |
| MatildaTable.RouteIsSet | front_bk/matilda_core/components/MatildaTable.jsx:103 | `null` is falsy and every route object is truthy. A string route is truthy exactly when it is non-empty. Any other value keeps its own JavaScript truthiness. |
| MatildaTable.TableEngine.Mount | front_bk/matilda_core/components/MatildaTable.jsx:102-109 | With a truthy route, this is the default load (page 1, 25 per page, no sort, no filters). Otherwise the static data is shown, `loading` is cleared and no request is made. |
| MatildaTable.TableEngine.OnResponse | front_bk/matilda_core/components/MatildaTable.jsx:132-151 | The runner is resolved, then the new table state is `Merge` of the envelope into the old state. |
| MatildaTable.TableEngine.OnChangeSelectedRows | front_bk/matilda_core/components/MatildaTable.jsx:187-189 | The selection becomes the given rows. Nothing else changes. |
| MatildaTable.TableEngine.ReplaceSelectedRows | front_bk/matilda_core/components/MatildaTable.jsx:205-207 | The selection becomes the given rows. Nothing else changes. |
| MatildaTable.TableEngine.ResetSelectedRows | front_bk/matilda_core/components/MatildaTable.jsx:196-198 | The selection becomes empty. Nothing else changes. |
| ColumnLayout.ColumnWidthClosedForm | front_bk/matilda_core/components/MatildaTable.jsx:282-309 | With at least one row, a column's final width is `min(max(title width, widest cell), maxWidthPerCell)`. |
| ColumnLayout.StepWidthMinMax | front_bk/matilda_core/components/MatildaTable.jsx:298-304 | One row step sets the width to `min(max(cell width, current width), maxWidthPerCell)`. |
| ColumnLayout.ColumnWidth | front_bk/matilda_core/components/MatildaTable.jsx:282-308 | With no rows, a column is as wide as its title. With at least one row, no column is wider than the cap. |
| ColumnLayout.WidenByRow | front_bk/matilda_core/components/MatildaTable.jsx:293-308 | The inner loop over the columns of one row leaves every width at `ColumnWidth` of the rows seen so far plus this one, matching cells by position. |
| ColumnLayout.ColumnWidthAtLeastTitle | front_bk/matilda_core/components/MatildaTable.jsx:301 | A column never ends narrower than its title while the title fits the cap. |
| ColumnLayout.Sum | front_bk/matilda_core/components/MatildaTable.jsx:312-316 | A single width sums to itself. The empty list gives 0, which the method never uses because `reduce` throws there. |
| ColumnLayout.SumBounded | front_bk/matilda_core/components/MatildaTable.jsx:312-316 | When every width is at most a bound, the sum is at most the count times that bound. |
| ColumnLayout.TableWidthCapped | front_bk/matilda_core/components/MatildaTable.jsx:312-316 | With at least one row, `tableWidth` is at most the number of columns times the cap. |
| ColumnLayout.CalculateColumnsWidth | front_bk/matilda_core/components/MatildaTable.jsx:272-323 | The call fails exactly when there are no columns. Otherwise each column comes back with its final width set and its other data unchanged; with no rows that width is the title width. The source rows are returned, and `tableWidth` is the left fold `+` of the widths. |
| MatildaCore.InsertByIndex | lib/matilda_core/config.rb:104 | One insertion into a list sorted by `index` keeps it sorted. It adds exactly that item, and keeps names unique when the name is new. |
| MatildaCore.SortByIndex | lib/matilda_core/config.rb:104 | `sort_by index` gives a permutation ordered by non-decreasing index that keeps unique names unique. The order of equal indices is left open. |
| MatildaCore.Reject | lib/matilda_core/config.rb:112 | No item with the rejected name survives, and the list never grows. |
| MatildaCore.RejectFilters | lib/matilda_core/config.rb:112 | An item survives `reject` exactly when it was in the list and carries another name. |
| MatildaCore.RejectConcat | lib/matilda_core/config.rb:112 | `reject` of two joined lists is the join of the two results, so the survivors keep their relative order. |
| MatildaCore.RejectRemovesOne | lib/matilda_core/config.rb:112 | With unique names, rejecting a present name removes exactly that position. Every other item keeps its relative order. |
| MatildaCore.RejectKeepsAll | lib/matilda_core/config.rb:112 | Rejecting a name no item carries keeps the list as it is. |
| MatildaCore.RemoveAtSorted | lib/matilda_core/config.rb:112 | Removing one position keeps the list ordered by index. |
| MatildaCore.RemoveAtDistinct | lib/matilda_core/config.rb:112 | Removing one position keeps the names unique. |
| MatildaCore.Config.constructor | lib/matilda_core/config.rb:68-70 | A new configuration holds every default, and both registries are empty and valid. |
| MatildaCore.Config.SetDefaultOptions | lib/matilda_core/config.rb:72-89 | Every setting it names gets its default: title `Matilda`, date format `%d-%m-%Y`, the engine version, the mailer address, signup and group creation permitted, and the rest `nil` or empty. Both registries are emptied. The login group selection is left untouched. |
| MatildaCore.Config.ResetGlobalOptions | lib/matilda_core/config.rb:73-77 | The global and mailer settings take their defaults. |
| MatildaCore.Config.ResetAuthenticationOptions | lib/matilda_core/config.rb:78-81 | The signup settings take their defaults. |
| MatildaCore.Config.ResetGroupsOptions | lib/matilda_core/config.rb:82-84 | The group settings take their defaults. |
| MatildaCore.Config.AddSidebarItem | lib/matilda_core/config.rb:92-105 | It fails exactly when the name is used, and then changes nothing. Otherwise the list gains exactly the new record and keeps every prior item. It stays sorted by index with unique names. |
| MatildaCore.Config.RemoveSidebarItem | lib/matilda_core/config.rb:108-113 | It fails exactly when the name is unused, and then changes nothing. Otherwise it removes exactly the one item with that name, keeps the others in order, and stays sorted with unique names. |
| MatildaCore.Config.AddMembershipsPermission | lib/matilda_core/config.rb:116-126 | It fails exactly when the name is used, and then changes nothing. Otherwise the record is appended at the end, without re-sorting, and names stay unique. |

## Left out

- JSX rendering is not modelled:
  - the `MatildaTable` component;
  - the `MatildaRequest` overlay;
  - the filter dropdown and icon;
  - the search-column decoration (`filterDropdown`, `filterIcon`, `onFilter` with its Unicode `toLowerCase`);
  - the `setTimeout` focus of the search input.
- `onSearchChange` and `onSearchReset` only call the callbacks antd passes in, and are not modelled.
- `fetch`, `response.json()`, the promise chain, `notification` and `console.error` become inputs and recorded outputs. The outcome of an exchange is an argument, and the notifications are a list.
- React hook semantics (`useState` batching, `useMemo`, the stale `running` a closure captures, interleaved re-renders) are left out. The hook state is plain fields updated at once.
- `getTextWidth` (canvas measurement and floating point) is the parameter `measure`. Widths are integers, so JavaScript's floating-point sums are not modelled.
- Parameter values are strings, integers or booleans. Floating-point numbers and nested objects in the parameters, and JavaScript's integer-like key ordering in `Object.entries`, are not modelled. Parameters are listed in the order they were set.
- Json.Stringify covers only a flat object of strings, integers and booleans. Lone surrogate code units in strings are not modelled.
- Json.StringifyRoundTrip reads back with `ParseObject`, a reader of the form the writer produces: no white space, no nesting, no fractions or exponents, and escaped surrogate pairs are refused. It is not a general RFC 8259 parser.
- MatildaTable.SortOrderParam does not model keys inherited through the prototype of the `{ascend, descend}` lookup table (such as `constructor`). Those would yield a function rather than `ASC`.
- MatildaTable.LoadParams requires the extra parameters to have distinct keys, as the own properties of a JavaScript object always do.
- MatildaRequest.Render, Text.IntToString and Json.ScalarText print every integer with all its digits. JavaScript numbers are doubles: integers above 2^53 are not exact, and magnitudes of 1e21 or more print in exponent form (`1e+21`). Neither is modelled.
- MatildaCore.Config.AddSidebarItem, MatildaCore.Config.RemoveSidebarItem and MatildaCore.Config.AddMembershipsPermission require `Valid()`. The registries are public `attr_accessor`s, and a caller that writes them directly can break the uniqueness and order invariants. Those writes are not modelled.
- MatildaCore.SortByIndex states only ordering and permutation. Ruby's `sort_by` is not stable, so the order among equal indices is unspecified.
- The other `attr_accessor` settings, `MatildaCore::VERSION` (a parameter), the mailer, and the invitation drawer are not modelled.
- The Ruby `throw` of a tag outside any `catch`, which raises `UncaughtThrowError`, is a returned `Fail` outcome.
