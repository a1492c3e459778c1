/**
 * The few PHP value conventions the column layer relies on: nullable
 * values, the truthiness of strings (`if ( !$x )`, `empty($x)`), and the
 * subsequence relation used to state "in their original order".
 */
module PhpValues {

  /** A PHP value that may be `null`. */
  datatype Option<+T> = None | Some(value: T)

  /**
   * PHP's boolean conversion of a string: exactly "" and "0" are falsy.
   * `empty($s)` on a string is the negation of this.
   */
  predicate Truthy(s: string) {
    s != "" && s != "0"
  }

  /** Boolean conversion of a nullable string: `null` is falsy. */
  predicate TruthyOpt(o: Option<string>) {
    o.Some? && Truthy(o.value)
  }

  /** `s` is obtained from `t` by deleting some of its elements. */
  predicate IsSubsequence<T(==)>(s: seq<T>, t: seq<T>)
    decreases |t|
  {
    if s == [] then true
    else if t == [] then false
    else if s[0] == t[0] then IsSubsequence(s[1..], t[1..])
    else IsSubsequence(s, t[1..])
  }

  /** Keeping the head of both sides preserves the subsequence relation. */
  lemma SubsequenceCons<T>(x: T, s: seq<T>, t: seq<T>)
    requires IsSubsequence(s, t)
    ensures IsSubsequence([x] + s, [x] + t)
  {
    assert ([x] + s)[1..] == s;
    assert ([x] + t)[1..] == t;
  }

  /** Dropping the head of the longer side preserves the relation. */
  lemma {:induction false} SubsequenceSkip<T>(x: T, s: seq<T>, t: seq<T>)
    requires IsSubsequence(s, t)
    ensures IsSubsequence(s, [x] + t)
    decreases |s| + |t| + 1
  {
    assert ([x] + t)[1..] == t;
    if s != [] && s[0] == x {
      SubsequenceDropHead(s, t);
    }
  }

  /** Removing the first element of the shorter side keeps it a subsequence. */
  lemma {:induction false} SubsequenceDropHead<T>(s: seq<T>, t: seq<T>)
    requires s != [] && IsSubsequence(s, t)
    ensures IsSubsequence(s[1..], t)
    decreases |s| + |t|
  {
    if t == [] {
    } else if s[0] == t[0] {
      SubsequenceSkip(t[0], s[1..], t[1..]);
      assert [t[0]] + t[1..] == t;
    } else {
      SubsequenceDropHead(s, t[1..]);
      SubsequenceSkip(t[0], s[1..], t[1..]);
      assert [t[0]] + t[1..] == t;
    }
  }
}
