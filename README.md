# Carbon admin columns manager — a verified Dafny model

The repository adds extra columns to WordPress admin listing screens (posts,
users, taxonomy terms). A `Carbon_Admin_Column` is a configuration object
built with chained setters: a label, a name (derived from the label when none
is given), the meta key or callback that renders its cells, an optional sort
field, an optional callback helper shared with other columns, and a back
reference to its `Carbon_Admin_Columns_Manager`. `init` registers, for each
object type of the manager, a columns-list filter, a row-content hook routed
through the screen's adapter, and (when the sort field is set) a
sortable-columns filter. At render time the row-content hook reaches
`init_column_callback`, which ignores events for other columns and, when a
callback helper is shared by a group of N columns, increases the shared
counter and runs the value callback only on every N-th matching call. The
manager stores the object types it applies to and removes unwanted columns
from the screen's columns array.

The model has five modules:

- `PhpValues` — nullable values (`Option`), PHP truthiness of strings (exactly
  `""` and `"0"` are falsy; `empty()` is its negation), and the subsequence
  relation used to say "in their original order".
- `PhpArrays` — PHP's ordered string-keyed arrays as sequences of entries:
  `$a[$k] = $v` (`Assign`: overwrite in place, or append a new key),
  `unset($a[$k])` (`Unset`), and filtering by a set of keys (`Without`).
- `CallbackGuard` — the callback helper object (`CallbackHelper`: a counter,
  a positive group size, a shared field and a shared callback), the firing
  rule, and the count of firings over any run of matching calls.
- `ColumnsManager` — the manager class: constructor and `unset_admin_columns`.
- `AdminColumn` — the column class: `create`, the constructor's name
  derivation, setters and getters, `init` (as the list of registrations it
  makes), `register_column`, `init_column_sortable`, the three screen adapters
  and `init_column_callback`.

Classes keep the source's mutable state: the setters are methods that change
one field and return the column; `init_column_callback` changes the shared
helper's counter through its reference, so several columns holding the same
helper share one counter as in PHP. Pure computations (name derivation, the
sort key, the two column-array filters) are functions.

Some behaviour of the code is easy to misread:

- Sortability is the single `sort_field`: `init` adds the sortable filter only
  when it is truthy, and `init_column_sortable` stores the field itself;
  `get_sort_field` falls back to the column name when the field is falsy.
  There is no separate sortable flag or sortable key.
- `create` refuses every falsy label, which includes `"0"` as well as `""`.
  Likewise an explicit name `"0"` counts as empty and the name is derived.
- The users-screen adapter passes the column's own name rather than the
  column name the event carries, so its name check always succeeds; the post
  and taxonomy adapters pass the event's column name.
- Without a manager, `init` registers nothing (PHP only warns) and still
  returns true.
- The helper's counter is never reset. `CallbackGuard.FiresClosedForm`
  counts the firings for any starting counter, so the effect of an
  incomplete sweep on later rows can be read off it.

## Model

| member | source | states |
|---|---|---|
| `AdminColumn.Column.Create` | inc/Carbon_Admin_Column.php:52-58 | a falsy label (`""` or `"0"`) gives the `wp_die` outcome with its message and no column; otherwise a fresh column whose label is the argument, whose name is the settled name and whose other fields have their defaults |
| `AdminColumn.Column.constructor` | inc/Carbon_Admin_Column.php:60-71 | stores the label, sets the name from `ColumnName`, and makes the callback the column's own `get_meta_value`; no sort field, meta key, manager or helper |
| `AdminColumn.StripDisallowed` | inc/Carbon_Admin_Column.php:64 | the filtered label holds only `[A-Za-z0-9.]` characters, holds every such character of the label as often as the label does, and is a subsequence of the label (original order) |
| `AdminColumn.StripKeepsAllowed` | inc/Carbon_Admin_Column.php:64 | a label made only of allowed characters is kept whole |
| `AdminColumn.StripIdempotent` | inc/Carbon_Admin_Column.php:64 | filtering an already filtered name changes nothing |
| `AdminColumn.ColumnName` | inc/Carbon_Admin_Column.php:63-66 | a truthy explicit name is kept verbatim; a null, `""` or `"0"` name becomes `"carbon-"` followed by the filtered label |
| `AdminColumn.DerivedNameShape` | inc/Carbon_Admin_Column.php:63-66 | a derived name starts with `"carbon-"`, is never falsy, and everything after the prefix is an allowed character |
| `AdminColumn.Column.SetColumnName` | inc/Carbon_Admin_Column.php:73-77 | only the name changes, to the argument; the column itself is returned |
| `AdminColumn.Column.SetField` | inc/Carbon_Admin_Column.php:83-87 | only the meta key changes, to the argument; the column is returned |
| `AdminColumn.Column.GetField` | inc/Carbon_Admin_Column.php:89-95 | with a helper attached the helper's field is used and the column's meta key is ignored; without one, the meta key |
| `AdminColumn.Column.SetCallback` | inc/Carbon_Admin_Column.php:97-106 | a non-callable is refused (the `false` result) and the callback stays as it was; a callable replaces it and the column is returned; no other field changes |
| `AdminColumn.Column.GetCallback` | inc/Carbon_Admin_Column.php:108-114 | with a helper attached the helper's callback is used; without one, the column's own |
| `AdminColumn.Column.SetColumnCallbackHelper` | inc/Carbon_Admin_Column.php:116-120 | only the helper reference changes; the column is returned |
| `AdminColumn.Column.SetSortField` | inc/Carbon_Admin_Column.php:126-130 | only the sort field changes (null allowed); the column is returned |
| `AdminColumn.Column.GetSortField` | inc/Carbon_Admin_Column.php:132-140 | a truthy sort field is the sort key; a null or falsy one falls back to the column name; the key is truthy whenever the name is |
| `AdminColumn.Column.SetManager` | inc/Carbon_Admin_Column.php:146-150 | only the manager reference changes; the column is returned |
| `AdminColumn.Column.Init` | inc/Carbon_Admin_Column.php:155-187 | always answers true; the registrations are exactly `Plan` of the manager's object types, screen type and the truthiness of the sort field, in loop order; none without a manager |
| `AdminColumn.PlanLength` | inc/Carbon_Admin_Column.php:161-184 | the loop plans two registrations per object type, three when the sort field is truthy |
| `AdminColumn.PlanMember` | inc/Carbon_Admin_Column.php:161-184 | a registration is planned exactly when its object type is one of the manager's and the loop body for that type makes it |
| `AdminColumn.PlanContents` | inc/Carbon_Admin_Column.php:161-184 | per object type one columns-list filter (priority 15) and one row-content action (the manager's screen adapter, priority 15, 3 arguments), and a sortable filter exactly when the sort field is truthy; 2 or 3 registrations per type and no others |
| `AdminColumn.Column.RegisterColumn` | inc/Carbon_Admin_Column.php:193-197 | the column's name maps to its label, every other key keeps its value, an existing key keeps its place and a new one is appended |
| `AdminColumn.RegisterColumnIdempotent` | inc/Carbon_Admin_Column.php:193-197 | applying the columns-list filter twice gives the same array as once |
| `AdminColumn.Column.InitColumnSortable` | inc/Carbon_Admin_Column.php:199-203 | the column's name maps to its sort field, every other key keeps its value, placed as for `register_column` |
| `AdminColumn.InitColumnSortableIdempotent` | inc/Carbon_Admin_Column.php:199-203 | applying the sortable filter twice gives the same array as once |
| `AdminColumn.SortableEntryIsSortKey` | inc/Carbon_Admin_Column.php:177-182 | whenever the sortable filter is registered (truthy sort field), the value it stores equals `get_sort_field()` |
| `AdminColumn.Column.InitColumnCallback` | inc/Carbon_Admin_Column.php:226-246 | another column's name: nothing runs and the helper's counter is unchanged; this column's name with a helper: the counter rises by exactly 1 and the callback runs iff the new count is a multiple of the group size; without a helper it always runs; a run applies the effective callback to the object id |
| `AdminColumn.Column.InitUserColumnsCallback` | inc/Carbon_Admin_Column.php:205-210 | dispatches under the column's own name, so it behaves as a matching call whatever column the event names, and returns the result |
| `AdminColumn.Column.InitTaxonomyColumnsCallback` | inc/Carbon_Admin_Column.php:212-217 | dispatches with the event's column name and term id; what it echoes is the dispatch result |
| `AdminColumn.Column.InitPostColumnsCallback` | inc/Carbon_Admin_Column.php:219-224 | dispatches with the event's column name and post id; what it echoes is the dispatch result |
| `CallbackGuard.CallbackHelper.constructor` | inc/Carbon_Admin_Column.php:234-240 | a helper starts with counter 0 and a positive group size, and fixes its shared field and callback |
| `CallbackGuard.CallbackHelper.IncreaseCallbackRequestNumber` | inc/Carbon_Admin_Column.php:235 | the request counter rises by exactly one |
| `AdminColumn.DispatchRepeatedly` | inc/Carbon_Admin_Column.php:226-246 | k matching dispatches of one column through its helper, from counter c, raise the counter to c+k and run the callback exactly floor((c+k)/N) - floor(c/N) times |
| `CallbackGuard.FiresClosedForm` | inc/Carbon_Admin_Column.php:234-241 | k matching calls starting from counter c fire floor((c+k)/N) - floor(c/N) times |
| `CallbackGuard.SweepFiresOnce` | inc/Carbon_Admin_Column.php:234-241 | from a counter at a multiple of N, a sweep of N matching calls fires once, on the last call, and on none of the N-1 before it |
| `ColumnsManager.CastToArray` | inc/Carbon_Admin_Columns_Manager.php:46 | `(array)` keeps a list as it is, wraps a single object type in a one-element list, and turns null into an empty list |
| `ColumnsManager.Manager.constructor` | inc/Carbon_Admin_Columns_Manager.php:45-47 | the object types are stored as the cast list, in the given order; nothing is marked for removal |
| `ColumnsManager.Manager.UnsetAdminColumns` | inc/Carbon_Admin_Columns_Manager.php:49-55 | the result is the input without the listed keys: none of them remains, every other key keeps its value, the survivors keep their relative order, and a well-formed array stays well formed |
| `PhpArrays.Assign` | inc/Carbon_Admin_Column.php:194 | `$a[$k] = $v`: `k` now reads `v` and every other key reads as before |
| `PhpArrays.AssignPlacement` | inc/Carbon_Admin_Column.php:194 | an existing key is overwritten where it stands (the key order is unchanged); a new key is appended at the end |
| `PhpArrays.AssignUnique` | inc/Carbon_Admin_Column.php:194 | assigning keeps every key unique |
| `PhpArrays.AssignIdempotent` | inc/Carbon_Admin_Column.php:200 | assigning the same key and value twice is assigning once |
| `PhpArrays.Unset` | inc/Carbon_Admin_Columns_Manager.php:51 | `unset($a[$k])`: `k` is absent afterwards and every other key reads as before |
| `PhpArrays.UnsetAbsent` | inc/Carbon_Admin_Columns_Manager.php:50-52 | unsetting a key that is not present leaves the array exactly as it was (no error) |
| `PhpArrays.UnsetWithout` | inc/Carbon_Admin_Columns_Manager.php:50-52 | one more loop step (unset one more name) is filtering by one more name |
| `PhpArrays.WithoutSpec` | inc/Carbon_Admin_Columns_Manager.php:49-55 | filtering removes every listed key, keeps every other key's value, and keeps the survivors' order |
| `PhpArrays.WithoutIdempotent` | inc/Carbon_Admin_Columns_Manager.php:49-55 | removing the same columns a second time changes nothing |
| `PhpArrays.WithoutUnique` | inc/Carbon_Admin_Columns_Manager.php:49-55 | removal keeps every key unique |

`GetColumnName` and `GetColumnLabel` (inc/Carbon_Admin_Column.php:79-81 and
122-124) return the field as it is and carry no contract.

## Left out

- WordPress hook registration (`add_filter`, `add_action`): `init` returns the
  registrations it would make instead. The manager's filter-name builders
  (`get_cols_list_filter_name`, `get_col_content_filter_name`,
  `get_sortable_filter_name`) are not part of this model; a registration is
  identified by its kind and object type. The sortable filter's priority is
  WordPress's default and is not recorded.
- `wp_die` and `trigger_error`: modelled as the `Died` outcome of `Create`
  and the `None` (PHP `false`) result of `SetCallback`; process termination
  and the warning text are not modelled.
- `AdminColumn.Column.SetCallback`: `is_callable` is a boolean parameter;
  what makes a PHP value callable is not modelled.
- `echo` in the post and taxonomy adapters: the adapters return what they
  would print.
- What a callback computes, and `call_user_func` itself: a run is recorded as
  the effective callback and the object id; callbacks have no modelled side
  effects.
- `get_meta_value` and the manager's meta lookup: an external store that is
  not part of this model.
- The factory methods `modify_post_type_columns`, `modify_users_columns`,
  `modify_taxonomy_columns` and their subclasses: not part of this model; the
  screen type they fix is a constructor parameter here.
- `remove()`, which fills `columns_to_remove`, is not part of this model: the
  field is a list of names assigned directly. A string value (which PHP's
  `foreach` would skip with a warning) is not modelled.
- `is_callback`: it reads a property the class never declares.
- The regular-expression engine: the `[^a-zA-Z0-9.]` filter is a
  per-character predicate. PHP strings are bytes; a non-ASCII character is
  dropped whole either way, so the result is the same.
- PHP arrays convert integer-like string keys (`"5"`) to integers; keys stay
  strings here.
- The label and name are strings; non-string PHP values (null, numbers,
  objects) are not modelled, except that a null name is `None`.
- `CallbackGuard.CallbackHelper.constructor`: the helper's own class is not
  part of this model, so its constructor (a starting count of 0, a positive
  group size, a fixed field and callback) is assumed from how the column uses
  the helper. `FiresClosedForm` and `AdminColumn.DispatchRepeatedly` hold for
  any starting count.
- PHP integer overflow of the request counter is not modelled (the counter is
  unbounded).
