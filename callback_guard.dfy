/**
 * The counter that several columns share so that one value callback runs
 * once per sweep over the group rather than once per column. The helper
 * class (`Carbon_Admin_Column_Callback_Helper`, which the column refers to
 * at inc/Carbon_Admin_Column.php:46-50) is not modelled from its own code:
 * this is a minimal counter built from how the column uses it. The request
 * counter is increased, read back and compared modulo the group size, and
 * the shared field and callback are read.
 */
module CallbackGuard {
  import opened PhpValues

  type Positive = n: nat | n > 0 witness 1

  /**
   * A PHP callable as the column stores it. `Method(target, name)` is
   * `array($object, 'name')`; `Function(name)` stands for any other
   * callable. What a callable does when invoked is not modelled.
   */
  datatype Callback = Method(target: object, name: string) | Function(name: string)

  /** The record of one `call_user_func($callback, $object_id)`. */
  datatype Invocation = Invocation(callback: Callback, objectId: int)

  /** A matching dispatch fires when the counter, once increased, is a multiple of the group size. */
  predicate FiresOn(count: nat, total: Positive) {
    count % total == 0
  }

  /** How many of `k` consecutive matching dispatches, starting from counter `c`, fire. */
  function Fires(c: nat, k: nat, total: Positive): nat
  {
    if k == 0 then 0
    else Fires(c, k - 1, total) + (if FiresOn(c + k, total) then 1 else 0)
  }

  /** Division of a successor: the quotient steps up exactly when the successor is a multiple. */
  lemma DivSucc(m: nat, n: Positive)
    ensures (m + 1) / n == m / n + (if (m + 1) % n == 0 then 1 else 0)
  {
    var q, r := m / n, m % n;
    assert m == q * n + r && 0 <= r < n;
    if r + 1 < n {
      assert m + 1 == q * n + (r + 1);
      DivUnique(m + 1, n, q, r + 1);
    } else {
      assert m + 1 == (q + 1) * n + 0;
      DivUnique(m + 1, n, q + 1, 0);
    }
  }

  /** Quotient and remainder are determined by any decomposition with an in-range remainder. */
  lemma DivUnique(m: nat, n: Positive, q: int, r: int)
    requires m == q * n + r && 0 <= r < n
    ensures m / n == q && m % n == r
  {
    var q', r' := m / n, m % n;
    assert m == q' * n + r' && 0 <= r' < n;
    if q > q' {
      MulAtLeast(q - q', n);
    } else if q < q' {
      MulAtLeast(q' - q, n);
    }
  }

  /** A positive multiple of `n` is at least `n`. */
  lemma MulAtLeast(a: int, n: Positive)
    requires a >= 1
    ensures a * n >= n
  {
    assert a * n == (a - 1) * n + n;
  }

  /**
   * With a group of `total` columns, `k` matching dispatches from counter
   * `c` fire floor((c + k) / total) - floor(c / total) times.
   */
  lemma {:induction false} FiresClosedForm(c: nat, k: nat, total: Positive)
    ensures Fires(c, k, total) == (c + k) / total - c / total
  {
    if k > 0 {
      FiresClosedForm(c, k - 1, total);
      DivSucc(c + k - 1, total);
    }
  }

  /**
   * The purpose of the guard: from a counter at a sweep boundary, a sweep of
   * `total` matching dispatches fires exactly once, on its last call.
   */
  lemma SweepFiresOnce(c: nat, total: Positive)
    requires FiresOn(c, total)
    ensures Fires(c, total, total) == 1
    ensures FiresOn(c + total, total)
    ensures forall m :: c < m < c + total ==> !FiresOn(m, total)
  {
    FiresClosedForm(c, total, total);
    DivUnique(c, total, c / total, 0);
    DivUnique(c + total, total, c / total + 1, 0);
    forall m | c < m < c + total ensures !FiresOn(m, total) {
      DivUnique(m, total, c / total, m - c);
    }
  }

  /**
   * The shared counter object. `count` is the callback request number;
   * `total` the number of columns in the group (it must be positive, or the
   * modulo in the column's guard would divide by zero); `field` and
   * `callback` are what the grouped columns read in place of their own.
   */
  class CallbackHelper {
    var count: nat
    const total: Positive
    const field: Option<string>
    const callback: Callback

    constructor (total: Positive, field: Option<string>, callback: Callback)
      ensures count == 0
      ensures this.total == total && this.field == field && this.callback == callback
    {
      this.count := 0;
      this.total := total;
      this.field := field;
      this.callback := callback;
    }

    /** `increase_callback_request_number()`. */
    method IncreaseCallbackRequestNumber()
      modifies this
      ensures count == old(count) + 1
    {
      count := count + 1;
    }
  }
}
