/**
 * PHP's ordered, string-keyed arrays as the column filters see them: a
 * sequence of key/value entries in insertion order. `$a[$k] = $v`
 * overwrites an existing key where it stands and appends a new one at the
 * end; `unset($a[$k])` removes the key and is silent when it is absent.
 * The arrays are passed and returned by value.
 */
module PhpArrays {
  import opened PhpValues

  datatype Entry<V> = Entry(key: string, value: V)

  type PhpArray<V> = seq<Entry<V>>

  /** The keys of `a`, in order. */
  function Keys<V>(a: PhpArray<V>): (ks: seq<string>)
    ensures |ks| == |a|
    ensures forall i :: 0 <= i < |a| ==> ks[i] == a[i].key
  {
    if a == [] then [] else [a[0].key] + Keys(a[1..])
  }

  /** A well-formed PHP array has no key twice. */
  predicate UniqueKeys<V>(a: PhpArray<V>) {
    forall i, j :: 0 <= i < j < |a| ==> a[i].key != a[j].key
  }

  /** `$a[$k] ?? null`: the value stored under `k`. */
  function Get<V>(a: PhpArray<V>, k: string): (r: Option<V>)
    ensures r.None? <==> k !in Keys(a)
  {
    if a == [] then None
    else if a[0].key == k then Some(a[0].value)
    else Get(a[1..], k)
  }

  /**
   * `$a[$k] = $v`: the value under `k` becomes `v` and every other key
   * keeps its value (where the key goes is `AssignPlacement`).
   */
  function Assign<V>(a: PhpArray<V>, k: string, v: V): (r: PhpArray<V>)
    ensures Get(r, k) == Some(v)
    ensures forall j :: j != k ==> Get(r, j) == Get(a, j)
  {
    if a == [] then [Entry(k, v)]
    else if a[0].key == k then [Entry(k, v)] + a[1..]
    else [a[0]] + Assign(a[1..], k, v)
  }

  /** An existing key is overwritten where it stands; a new key is appended. */
  lemma {:induction false} AssignPlacement<V>(a: PhpArray<V>, k: string, v: V)
    ensures k in Keys(a) ==> Keys(Assign(a, k, v)) == Keys(a)
    ensures k !in Keys(a) ==> Assign(a, k, v) == a + [Entry(k, v)]
  {
    if a != [] && a[0].key != k {
      AssignPlacement(a[1..], k, v);
      var rest := Assign(a[1..], k, v);
      assert Keys(a) == [a[0].key] + Keys(a[1..]);
      assert Keys([a[0]] + rest) == [a[0].key] + Keys(rest);
    }
  }

  /** `unset($a[$k])`: `k` is gone, every other key keeps its value. */
  function Unset<V>(a: PhpArray<V>, k: string): (r: PhpArray<V>)
    ensures k !in Keys(r)
    ensures forall j :: j != k ==> Get(r, j) == Get(a, j)
  {
    if a == [] then []
    else if a[0].key == k then Unset(a[1..], k)
    else [a[0]] + Unset(a[1..], k)
  }

  /** The entries of `a` whose key is not in `gone`, in their order. */
  function Without<V>(a: PhpArray<V>, gone: set<string>): PhpArray<V>
  {
    if a == [] then []
    else if a[0].key in gone then Without(a[1..], gone)
    else [a[0]] + Without(a[1..], gone)
  }

  /** Assigning a key keeps the array well formed. */
  lemma AssignUnique<V>(a: PhpArray<V>, k: string, v: V)
    requires UniqueKeys(a)
    ensures UniqueKeys(Assign(a, k, v))
  {
    var r := Assign(a, k, v);
    AssignPlacement(a, k, v);
    if k in Keys(a) {
      assert forall i :: 0 <= i < |r| ==> r[i].key == Keys(r)[i] == Keys(a)[i] == a[i].key;
    } else {
      assert forall i :: 0 <= i < |a| ==> a[i].key != k by {
        forall i | 0 <= i < |a| ensures a[i].key != k {
          assert Keys(a)[i] == a[i].key;
        }
      }
    }
  }

  /** Assigning the same key and value a second time changes nothing. */
  lemma {:induction false} AssignIdempotent<V>(a: PhpArray<V>, k: string, v: V)
    ensures Assign(Assign(a, k, v), k, v) == Assign(a, k, v)
  {
    if a != [] && a[0].key != k {
      AssignIdempotent(a[1..], k, v);
      assert Assign(a, k, v)[1..] == Assign(a[1..], k, v);
    }
  }

  /** Unsetting a key that is not there leaves the array as it was. */
  lemma {:induction false} UnsetAbsent<V>(a: PhpArray<V>, k: string)
    requires k !in Keys(a)
    ensures Unset(a, k) == a
  {
    if a != [] {
      assert Keys(a) == [a[0].key] + Keys(a[1..]);
      UnsetAbsent(a[1..], k);
    }
  }

  /** Dropping one more key from a filtered array is filtering by one more key. */
  lemma {:induction false} UnsetWithout<V>(a: PhpArray<V>, gone: set<string>, k: string)
    ensures Unset(Without(a, gone), k) == Without(a, gone + {k})
  {
    if a != [] {
      UnsetWithout(a[1..], gone, k);
    }
  }

  /**
   * What filtering leaves: no key from `gone`, every other key with its
   * value, the survivors in their original relative order.
   */
  lemma {:induction false} WithoutSpec<V>(a: PhpArray<V>, gone: set<string>)
    ensures forall k :: k in gone ==> k !in Keys(Without(a, gone))
    ensures forall k :: k !in gone ==> Get(Without(a, gone), k) == Get(a, k)
    ensures IsSubsequence(Without(a, gone), a)
  {
    if a != [] {
      WithoutSpec(a[1..], gone);
      assert a == [a[0]] + a[1..];
      var rest := Without(a[1..], gone);
      if a[0].key in gone {
        SubsequenceSkip(a[0], rest, a[1..]);
      } else {
        SubsequenceCons(a[0], rest, a[1..]);
        assert Keys([a[0]] + rest) == [a[0].key] + Keys(rest);
      }
    }
  }

  /** Filtering twice by the same keys is filtering once. */
  lemma {:induction false} WithoutIdempotent<V>(a: PhpArray<V>, gone: set<string>)
    ensures Without(Without(a, gone), gone) == Without(a, gone)
  {
    if a != [] {
      WithoutIdempotent(a[1..], gone);
    }
  }

  /** A filtered array is still well formed. */
  lemma WithoutUnique<V>(a: PhpArray<V>, gone: set<string>)
    requires UniqueKeys(a)
    ensures UniqueKeys(Without(a, gone))
  {
    var r := Without(a, gone);
    WithoutSpec(a, gone);
    SubsequenceUnique(r, a);
  }

  /** A subsequence of a well-formed array is well formed. */
  lemma {:induction false} SubsequenceUnique<V>(s: PhpArray<V>, t: PhpArray<V>)
    requires UniqueKeys(t) && IsSubsequence(s, t)
    ensures UniqueKeys(s)
    ensures forall k :: k in Keys(s) ==> k in Keys(t)
    decreases |t|
  {
    if s != [] && t != [] {
      assert Keys(t) == [t[0].key] + Keys(t[1..]);
      if s[0] == t[0] {
        SubsequenceUnique(s[1..], t[1..]);
        assert Keys(s) == [s[0].key] + Keys(s[1..]);
        forall i, j | 0 <= i < j < |s| ensures s[i].key != s[j].key {
          if i == 0 {
            assert Keys(s[1..])[j - 1] == s[j].key;
            assert s[j].key in Keys(t[1..]);
            var m :| 0 <= m < |t[1..]| && Keys(t[1..])[m] == s[j].key;
            assert t[m + 1].key == s[j].key;
          } else {
            assert s[1..][i - 1] == s[i] && s[1..][j - 1] == s[j];
          }
        }
      } else {
        SubsequenceUnique(s, t[1..]);
      }
    }
  }
}
