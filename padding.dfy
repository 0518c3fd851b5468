/**
 * The four-slot parameter block of the `*_iv`, `*_fv`, `*_i_iv` and `*_i_uiv`
 * parameter setters: a zeroed 4-element array into which the first
 * `min(4, len)` elements of the caller's slice are copied before the block is
 * handed to the native call.
 */
module Padding {

  const SLOTS: nat := 4

  function Min(a: nat, b: nat): nat {
    if a < b then a else b
  }

  function Repeat<T>(x: T, n: nat): (r: seq<T>)
    ensures |r| == n
  {
    if n == 0 then [] else [x] + Repeat(x, n - 1)
  }

  lemma {:induction false} RepeatAt<T>(x: T, n: nat, k: nat)
    requires k < n
    ensures Repeat(x, n)[k] == x
  {
    if k > 0 {
      RepeatAt(x, n - 1, k - 1);
    }
  }

  /** The block the loop leaves: the copied prefix of `value` followed by zeros. */
  function Padded<T>(value: seq<T>, zero: T): seq<T> {
    var n := Min(SLOTS, |value|);
    value[..n] + Repeat(zero, SLOTS - n)
  }

  /** Slot by slot: copied from `value` below `min(4, len)`, zero from there on. */
  lemma PaddedAt<T>(value: seq<T>, zero: T, k: nat)
    requires k < SLOTS
    ensures |Padded(value, zero)| == SLOTS
    ensures Padded(value, zero)[k] == if k < |value| then value[k] else zero
  {
    var n := Min(SLOTS, |value|);
    if k >= n {
      RepeatAt(zero, SLOTS - n, k - n);
    }
  }

  /** Elements past the fourth are ignored. */
  lemma PaddedIgnoresTail<T>(value: seq<T>, extra: seq<T>, zero: T)
    requires |value| >= SLOTS
    ensures Padded(value + extra, zero) == Padded(value, zero) == value[..SLOTS]
  {
    assert (value + extra)[..SLOTS] == value[..SLOTS];
  }

  /** Padding a block again changes nothing, and a full block passes unchanged. */
  lemma PaddedIdempotent<T>(value: seq<T>, zero: T)
    ensures Padded(Padded(value, zero), zero) == Padded(value, zero)
    ensures |value| == SLOTS ==> Padded(value, zero) == value
  {
    var p := Padded(value, zero);
    PaddedAt(value, zero, 0);
    assert p[..SLOTS] == p;
  }

  /** The fill loop: a zeroed four-element array, then `params[i] := value[i]`
      for `i` in `0..min(4, value.len())`. No index of `value` at or past its
      length is read, and none past 3. */
  method PadFour<T>(value: seq<T>, zero: T) returns (params: seq<T>)
    ensures |params| == SLOTS
    ensures forall k :: 0 <= k < SLOTS ==> params[k] == if k < |value| then value[k] else zero
    ensures params == Padded(value, zero)
  {
    var a := new T[SLOTS](_ => zero);
    var n := Min(SLOTS, |value|);
    for i := 0 to n
      invariant forall k :: 0 <= k < i ==> a[k] == value[k]
      invariant forall k :: i <= k < SLOTS ==> a[k] == zero
    {
      a[i] := value[i];
    }
    params := a[..];
    forall k | 0 <= k < SLOTS
      ensures params[k] == Padded(value, zero)[k]
    {
      PaddedAt(value, zero, k);
    }
    PaddedAt(value, zero, 0);
  }
}
