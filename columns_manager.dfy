/**
 * The columns manager: which object types (post types, taxonomies) a group
 * of columns applies to, which admin screen it targets, and which of the
 * screen's own columns are to be removed.
 */
module ColumnsManager {
  import opened PhpValues
  import opened PhpArrays

  /** `admin_screen_type`: selects the row-content adapter a column registers. */
  datatype ScreenType = PostColumns | UserColumns | TaxonomyColumns

  /**
   * The argument of the constructor before the `(array)` cast: `null` (the
   * cast gives an empty array), one object type, or a list of them.
   */
  datatype ObjectTypesArg = NoTypes | OneType(objectType: string) | Types(objectTypes: seq<string>)

  /** `(array) $object_types`: a list stays as it is, a single value is wrapped, `null` is empty. */
  function CastToArray(arg: ObjectTypesArg): (r: seq<string>)
    ensures arg.Types? ==> r == arg.objectTypes
    ensures arg.OneType? ==> r == [arg.objectType]
    ensures arg.NoTypes? ==> r == []
  {
    match arg
    case NoTypes => []
    case OneType(t) => [t]
    case Types(ts) => ts
  }

  class Manager {
    var objectTypes: seq<string>
    var adminScreenType: ScreenType
    /** Names of the columns `UnsetAdminColumns` drops; unset (`null`) removes nothing. */
    var columnsToRemove: seq<string>

    /**
     * The constructor stores the object types as a list, in the given order.
     * The screen type is fixed by the factory subclasses in the source and
     * is a parameter here.
     */
    constructor (objectTypes: ObjectTypesArg, screen: ScreenType)
      ensures this.objectTypes == CastToArray(objectTypes)
      ensures adminScreenType == screen
      ensures columnsToRemove == []
    {
      this.objectTypes := CastToArray(objectTypes);
      adminScreenType := screen;
      columnsToRemove := [];
    }

    /**
     * `unset_admin_columns`: removes every listed name from the screen's
     * columns, one at a time; names that are not there are skipped silently.
     */
    method UnsetAdminColumns(columns: PhpArray<string>) returns (r: PhpArray<string>)
      ensures r == Without(columns, set n | n in columnsToRemove)
      ensures forall n :: n in columnsToRemove ==> n !in Keys(r)
      ensures forall k :: k !in columnsToRemove ==> Get(r, k) == Get(columns, k)
      ensures IsSubsequence(r, columns)
      ensures UniqueKeys(columns) ==> UniqueKeys(r)
    {
      r := columns;
      ghost var removed: set<string> := {};
      assert Without(columns, {}) == columns by { WithoutNothing(columns); }
      for i := 0 to |columnsToRemove|
        invariant removed == set n | n in columnsToRemove[..i]
        invariant r == Without(columns, removed)
      {
        var name := columnsToRemove[i];
        UnsetWithout(columns, removed, name);
        r := Unset(r, name);
        removed := removed + {name};
        assert columnsToRemove[..i + 1] == columnsToRemove[..i] + [name];
      }
      assert columnsToRemove[..|columnsToRemove|] == columnsToRemove;
      WithoutSpec(columns, removed);
      if UniqueKeys(columns) {
        WithoutUnique(columns, removed);
      }
    }
  }

  /** Filtering by no keys is the identity. */
  lemma {:induction false} WithoutNothing<V>(a: PhpArray<V>)
    ensures Without(a, {}) == a
  {
    if a != [] {
      WithoutNothing(a[1..]);
    }
  }
}
