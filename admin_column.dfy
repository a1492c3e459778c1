/**
 * One extra column of a WordPress admin listing screen: its label and
 * name, the field or callback that renders its cells, its sort key, the
 * registrations `init` makes, and the dispatch that decides whether a
 * row-content event runs the column's value callback.
 */
module AdminColumn {
  import opened PhpValues
  import opened PhpArrays
  import opened CallbackGuard
  import opened ColumnsManager

  /** The characters the default-name filter keeps: `[a-zA-Z0-9.]`. */
  predicate AllowedChar(c: char) {
    ('a' <= c <= 'z') || ('A' <= c <= 'Z') || ('0' <= c <= '9') || c == '.'
  }

  /**
   * `preg_replace('~[^a-zA-Z0-9.]~', '', $label)`: the label's allowed
   * characters, every one of them, in their original order.
   */
  function StripDisallowed(s: string): (r: string)
    ensures forall i :: 0 <= i < |r| ==> AllowedChar(r[i])
    ensures forall c :: multiset(r)[c] == if AllowedChar(c) then multiset(s)[c] else 0
    ensures IsSubsequence(r, s)
  {
    if s == [] then []
    else
      var rest := StripDisallowed(s[1..]);
      assert s == [s[0]] + s[1..];
      if AllowedChar(s[0]) then
        SubsequenceCons(s[0], rest, s[1..]);
        [s[0]] + rest
      else
        SubsequenceSkip(s[0], rest, s[1..]);
        rest
  }

  /** A label made only of allowed characters passes the filter unchanged. */
  lemma {:induction false} StripKeepsAllowed(s: string)
    requires forall i :: 0 <= i < |s| ==> AllowedChar(s[i])
    ensures StripDisallowed(s) == s
  {
    if s != [] {
      StripKeepsAllowed(s[1..]);
    }
  }

  /** Filtering a filtered name again changes nothing. */
  lemma StripIdempotent(s: string)
    ensures StripDisallowed(StripDisallowed(s)) == StripDisallowed(s)
  {
    StripKeepsAllowed(StripDisallowed(s));
  }

  const NamePrefix: string := "carbon-"

  /**
   * The name the constructor gives a column: an explicit name unless it is
   * `empty()` (null, "" or "0"), else the prefix followed by the label's
   * allowed characters.
   */
  function ColumnName(columnLabel: string, name: Option<string>): (r: string)
    ensures TruthyOpt(name) ==> r == name.value
    ensures !TruthyOpt(name) ==> r == NamePrefix + StripDisallowed(columnLabel)
  {
    if TruthyOpt(name) then name.value else NamePrefix + StripDisallowed(columnLabel)
  }

  /** A derived name always starts with the prefix and is never falsy, so a column always has a usable name. */
  lemma DerivedNameShape(columnLabel: string)
    ensures var r := ColumnName(columnLabel, None);
            |r| >= |NamePrefix| && r[..|NamePrefix|] == NamePrefix && Truthy(r)
            && forall i :: |NamePrefix| <= i < |r| ==> AllowedChar(r[i])
  {
    var r := ColumnName(columnLabel, None);
    assert r[0] == 'c';
    assert r[..|NamePrefix|] == NamePrefix;
  }

  /** One hook registration `init` makes for an object type. */
  datatype Registration =
    | ColumnsListFilter(objectType: string, priority: int)
      // the columns-list filter, handled by `register_column`
    | ColumnContentAction(objectType: string, adapter: ScreenType, priority: int, acceptedArgs: int)
      // the row-content hook, handled by the screen's `init_*_callback` adapter
    | SortableColumnsFilter(objectType: string)
      // the sortable-columns filter, handled by `init_column_sortable`

  /** The registrations `init` makes for one object type. */
  function TypeRegistrations(t: string, screen: ScreenType, sortable: bool): seq<Registration> {
    [ColumnsListFilter(t, 15), ColumnContentAction(t, screen, 15, 3)]
      + (if sortable then [SortableColumnsFilter(t)] else [])
  }

  /** The registrations `init` makes for a list of object types, in loop order. */
  function Plan(types: seq<string>, screen: ScreenType, sortable: bool): seq<Registration>
  {
    if types == [] then []
    else Plan(types[..|types| - 1], screen, sortable) + TypeRegistrations(types[|types| - 1], screen, sortable)
  }

  /** Two registrations per object type, and a third when the sort field is set. */
  lemma {:induction false} PlanLength(types: seq<string>, screen: ScreenType, sortable: bool)
    ensures |Plan(types, screen, sortable)| == |types| * (if sortable then 3 else 2)
  {
    if types != [] {
      PlanLength(types[..|types| - 1], screen, sortable);
    }
  }

  /** A registration is planned exactly when its object type is one of the types and that type plans it. */
  lemma {:induction false} PlanMember(types: seq<string>, screen: ScreenType, sortable: bool, g: Registration)
    ensures g in Plan(types, screen, sortable) <==>
              g.objectType in types && g in TypeRegistrations(g.objectType, screen, sortable)
  {
    if types != [] {
      var init, last := types[..|types| - 1], types[|types| - 1];
      PlanMember(init, screen, sortable, g);
      assert types == init + [last];
      assert g.objectType in types <==> g.objectType in init || g.objectType == last;
    }
  }

  /**
   * What `init` registers: a columns-list filter and a row-content action
   * for each object type, with the manager's screen adapter, and a
   * sortable-columns filter for each object type exactly when the sort
   * field is set; nothing else.
   */
  lemma {:induction false} PlanContents(types: seq<string>, screen: ScreenType, sortable: bool)
    ensures |Plan(types, screen, sortable)| == |types| * (if sortable then 3 else 2)
    ensures forall t :: ColumnsListFilter(t, 15) in Plan(types, screen, sortable) <==> t in types
    ensures forall t, a :: ColumnContentAction(t, a, 15, 3) in Plan(types, screen, sortable) <==> t in types && a == screen
    ensures forall t :: SortableColumnsFilter(t) in Plan(types, screen, sortable) <==> sortable && t in types
    ensures forall g :: g in Plan(types, screen, sortable) ==>
              g.objectType in types && (g.ColumnsListFilter? ==> g.priority == 15)
              && (g.ColumnContentAction? ==> g.adapter == screen && g.priority == 15 && g.acceptedArgs == 3)
  {
    PlanLength(types, screen, sortable);
    forall g | true
      ensures g in Plan(types, screen, sortable) <==>
                g.objectType in types && g in TypeRegistrations(g.objectType, screen, sortable)
    {
      PlanMember(types, screen, sortable, g);
    }
  }

  /** What `Column.Create` gives back: the new column, or the `wp_die` message. */
  datatype Created = Created(column: Column) | Died(message: string)

  class Column {
    const columnLabel: string
    var name: string
    /** Null (or any falsy value) disables sorting. */
    var sortField: Option<string>
    var manager: Manager?
    var metaKey: Option<string>
    var callback: Callback
    var callbackHelper: CallbackHelper?

    /** The private constructor: stores the label, settles the name, defaults the callback to `get_meta_value`. */
    constructor (columnLabel: string, name: Option<string>)
      ensures this.columnLabel == columnLabel && this.name == ColumnName(columnLabel, name)
      ensures sortField == None && manager == null && metaKey == None && callbackHelper == null
      ensures callback == Method(this, "get_meta_value")
    {
      this.columnLabel := columnLabel;
      this.name := ColumnName(columnLabel, name);
      sortField := None;
      manager := null;
      metaKey := None;
      callbackHelper := null;
      // `this` cannot be referenced before `new;`; the bound method is set right after
      callback := Function("get_meta_value");
      new;
      callback := Method(this, "get_meta_value");
    }

    /** `create`: a falsy label ends in `wp_die`; otherwise a new column with that label. */
    static method Create(columnLabel: string, name: Option<string>) returns (r: Created)
      ensures r.Died? <==> !Truthy(columnLabel)
      ensures r.Died? ==> r.message == "Column label is required."
      ensures r.Created? ==> fresh(r.column) && r.column.columnLabel == columnLabel
      ensures r.Created? ==> r.column.name == ColumnName(columnLabel, name)
      ensures r.Created? ==> r.column.sortField == None && r.column.metaKey == None
      ensures r.Created? ==> r.column.manager == null && r.column.callbackHelper == null
      ensures r.Created? ==> r.column.callback == Method(r.column, "get_meta_value")
    {
      if !Truthy(columnLabel) {
        return Died("Column label is required.");
      }
      var c := new Column(columnLabel, name);
      r := Created(c);
    }

    method SetColumnName(name: string) returns (self: Column)
      modifies this`name
      ensures this.name == name && self == this
    {
      this.name := name;
      self := this;
    }

    function GetColumnName(): string
      reads this
    {
      name
    }

    function GetColumnLabel(): string {
      columnLabel
    }

    method SetField(metaKey: Option<string>) returns (self: Column)
      modifies this`metaKey
      ensures this.metaKey == metaKey && self == this
    {
      this.metaKey := metaKey;
      self := this;
    }

    /** The data key a cell is read from: the helper's, when one is attached, else the column's own. */
    function GetField(): (r: Option<string>)
      reads this
      ensures callbackHelper != null ==> r == callbackHelper.field
      ensures callbackHelper == null ==> r == metaKey
    {
      if callbackHelper != null then callbackHelper.field else metaKey
    }

    /**
     * `set_callback`: a value that is not callable is refused (PHP returns
     * `false` after a warning) and the old callback stays; a callable one
     * replaces it and the column is returned for chaining.
     */
    method SetCallback(callback: Callback, isCallable: bool) returns (r: Option<Column>)
      modifies this`callback
      ensures !isCallable ==> r == None && this.callback == old(this.callback)
      ensures isCallable ==> r == Some(this) && this.callback == callback
    {
      if !isCallable {
        return None;
      }
      this.callback := callback;
      r := Some(this);
    }

    /** The callback that renders a cell: the helper's, when one is attached, else the column's own. */
    function GetCallback(): (r: Callback)
      reads this
      ensures callbackHelper != null ==> r == callbackHelper.callback
      ensures callbackHelper == null ==> r == callback
    {
      if callbackHelper != null then callbackHelper.callback else callback
    }

    method SetColumnCallbackHelper(helper: CallbackHelper?) returns (self: Column)
      modifies this`callbackHelper
      ensures callbackHelper == helper && self == this
    {
      callbackHelper := helper;
      self := this;
    }

    method SetSortField(sortField: Option<string>) returns (self: Column)
      modifies this`sortField
      ensures this.sortField == sortField && self == this
    {
      this.sortField := sortField;
      self := this;
    }

    /** The sort key: the sort field when it is truthy, the column name otherwise. */
    function GetSortField(): (r: string)
      reads this
      ensures TruthyOpt(sortField) ==> r == sortField.value
      ensures !TruthyOpt(sortField) ==> r == name
      ensures Truthy(name) ==> Truthy(r)
    {
      if TruthyOpt(sortField) then sortField.value else name
    }

    method SetManager(manager: Manager) returns (self: Column)
      modifies this`manager
      ensures this.manager == manager && self == this
    {
      this.manager := manager;
      self := this;
    }

    /**
     * `init`: the hook registrations for every object type of the manager,
     * in order. Without a manager PHP only warns and the loop does not run.
     * Always answers true.
     */
    method Init() returns (ok: bool, plan: seq<Registration>)
      ensures ok
      ensures manager == null ==> plan == []
      ensures manager != null ==> plan == Plan(manager.objectTypes, manager.adminScreenType, TruthyOpt(sortField))
    {
      ok := true;
      plan := [];
      if manager == null {
        return;
      }
      var objectTypes := manager.objectTypes;
      var screen := manager.adminScreenType;
      for i := 0 to |objectTypes|
        invariant plan == Plan(objectTypes[..i], screen, TruthyOpt(sortField))
      {
        var objectType := objectTypes[i];
        plan := plan + [ColumnsListFilter(objectType, 15)];
        plan := plan + [ColumnContentAction(objectType, screen, 15, 3)];
        if TruthyOpt(sortField) {
          plan := plan + [SortableColumnsFilter(objectType)];
        }
        assert objectTypes[..i + 1][..i] == objectTypes[..i];
      }
      assert objectTypes[..|objectTypes|] == objectTypes;
    }

    /**
     * `register_column`: the column's name now maps to its label, every
     * other column is untouched, an existing entry keeps its place and a
     * new one is appended.
     */
    function RegisterColumn(columns: PhpArray<string>): (r: PhpArray<string>)
      reads this
      ensures Get(r, name) == Some(columnLabel)
      ensures forall k :: k != name ==> Get(r, k) == Get(columns, k)
      ensures name in Keys(columns) ==> Keys(r) == Keys(columns)
      ensures name !in Keys(columns) ==> r == columns + [Entry(name, columnLabel)]
    {
      AssignPlacement(columns, name, columnLabel);
      Assign(columns, name, columnLabel)
    }

    /**
     * `init_column_sortable`: the column's name now maps to its sort field,
     * every other entry is untouched, placed as in `RegisterColumn`.
     */
    function InitColumnSortable(columns: PhpArray<Option<string>>): (r: PhpArray<Option<string>>)
      reads this
      ensures Get(r, name) == Some(sortField)
      ensures forall k :: k != name ==> Get(r, k) == Get(columns, k)
      ensures name in Keys(columns) ==> Keys(r) == Keys(columns)
      ensures name !in Keys(columns) ==> r == columns + [Entry(name, sortField)]
    {
      AssignPlacement(columns, name, sortField);
      Assign(columns, name, sortField)
    }

    /**
     * `init_column_callback`: a row-content event for another column does
     * nothing. For this column, a shared helper's counter goes up by one
     * and the callback runs only when the new count is a multiple of the
     * group size; without a helper it always runs. A run is the effective
     * callback applied to the object id.
     */
    method InitColumnCallback(columnName: string, objectId: int) returns (r: Option<Invocation>)
      modifies callbackHelper
      ensures columnName != name ==> r == None
      ensures columnName != name && callbackHelper != null ==> callbackHelper.count == old(callbackHelper.count)
      ensures columnName == name && callbackHelper != null ==>
                callbackHelper.count == old(callbackHelper.count) + 1
                && (r.Some? <==> FiresOn(callbackHelper.count, callbackHelper.total))
      ensures columnName == name && callbackHelper == null ==> r.Some?
      ensures r.Some? ==> r.value == Invocation(GetCallback(), objectId)
    {
      if name != columnName {
        return None;
      }
      if callbackHelper != null {
        callbackHelper.IncreaseCallbackRequestNumber();
        if callbackHelper.count % callbackHelper.total != 0 {
          return None;
        }
      }
      r := Some(Invocation(GetCallback(), objectId));
    }

    /**
     * `init_user_columns_callback`: the users screen's filter; it passes the
     * column's own name, not the one the event names, so the name check
     * always succeeds, and the result is returned to the filter.
     */
    method InitUserColumnsCallback(value: Option<string>, columnName: string, userId: int) returns (r: Option<Invocation>)
      modifies callbackHelper
      ensures callbackHelper != null ==>
                callbackHelper.count == old(callbackHelper.count) + 1
                && (r.Some? <==> FiresOn(callbackHelper.count, callbackHelper.total))
      ensures callbackHelper == null ==> r.Some?
      ensures r.Some? ==> r.value == Invocation(GetCallback(), userId)
    {
      r := InitColumnCallback(GetColumnName(), userId);
    }

    /** `init_taxonomy_columns_callback`: dispatches with the event's column name; the result is echoed. */
    method InitTaxonomyColumnsCallback(value: Option<string>, columnName: string, termId: int) returns (echoed: Option<Invocation>)
      modifies callbackHelper
      ensures columnName != name ==> echoed == None
      ensures columnName != name && callbackHelper != null ==> callbackHelper.count == old(callbackHelper.count)
      ensures columnName == name && callbackHelper != null ==>
                callbackHelper.count == old(callbackHelper.count) + 1
                && (echoed.Some? <==> FiresOn(callbackHelper.count, callbackHelper.total))
      ensures columnName == name && callbackHelper == null ==> echoed.Some?
      ensures echoed.Some? ==> echoed.value == Invocation(GetCallback(), termId)
    {
      echoed := InitColumnCallback(columnName, termId);
    }

    /** `init_post_columns_callback`: dispatches with the event's column name; the result is echoed. */
    method InitPostColumnsCallback(columnName: string, postId: int) returns (echoed: Option<Invocation>)
      modifies callbackHelper
      ensures columnName != name ==> echoed == None
      ensures columnName != name && callbackHelper != null ==> callbackHelper.count == old(callbackHelper.count)
      ensures columnName == name && callbackHelper != null ==>
                callbackHelper.count == old(callbackHelper.count) + 1
                && (echoed.Some? <==> FiresOn(callbackHelper.count, callbackHelper.total))
      ensures columnName == name && callbackHelper == null ==> echoed.Some?
      ensures echoed.Some? ==> echoed.value == Invocation(GetCallback(), postId)
    {
      echoed := InitColumnCallback(columnName, postId);
    }
  }

  /** Registering a column twice in the same columns list is registering it once. */
  lemma RegisterColumnIdempotent(c: Column, columns: PhpArray<string>)
    ensures c.RegisterColumn(c.RegisterColumn(columns)) == c.RegisterColumn(columns)
  {
    AssignIdempotent(columns, c.name, c.columnLabel);
  }

  /** Adding the sortable flag twice is adding it once. */
  lemma InitColumnSortableIdempotent(c: Column, columns: PhpArray<Option<string>>)
    ensures c.InitColumnSortable(c.InitColumnSortable(columns)) == c.InitColumnSortable(columns)
  {
    AssignIdempotent(columns, c.name, c.sortField);
  }

  /**
   * `init_column_sortable` reads the sort field directly rather than through
   * `get_sort_field`; it is only registered when the field is truthy, and
   * then the two agree.
   */
  lemma SortableEntryIsSortKey(c: Column, columns: PhpArray<Option<string>>)
    requires TruthyOpt(c.sortField)
    ensures Get(c.InitColumnSortable(columns), c.name) == Some(Some(c.GetSortField()))
  {
  }

  /**
   * The row-content event reaching the same column `k` times (one row per
   * call, for the same object). With a helper whose counter starts at `c`
   * and a group of `N`, the callback runs floor((c + k) / N) - floor(c / N)
   * times; without a helper it runs on every call.
   */
  method DispatchRepeatedly(column: Column, objectId: int, k: nat) returns (fired: nat)
    modifies column.callbackHelper
    ensures column.callbackHelper == null ==> fired == k
    ensures column.callbackHelper != null ==>
              column.callbackHelper.count == old(column.callbackHelper.count) + k
              && fired == (old(column.callbackHelper.count) + k) / column.callbackHelper.total
                          - old(column.callbackHelper.count) / column.callbackHelper.total
  {
    fired := 0;
    var helper := column.callbackHelper;
    ghost var c0 := if helper != null then helper.count else 0;
    for i := 0 to k
      invariant column.callbackHelper == helper
      invariant helper == null ==> fired == i
      invariant helper != null ==> helper.count == c0 + i && fired == Fires(c0, i, helper.total)
    {
      var r := column.InitColumnCallback(column.name, objectId);
      if r.Some? {
        fired := fired + 1;
      }
    }
    if helper != null {
      FiresClosedForm(c0, k, helper.total);
    }
  }
}
