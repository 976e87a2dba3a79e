/** The five-star rating: which stars are filled, and what a press reports. */
module Rating {
  import opened Wrappers

  const StarCount := 5

  /** `readonly` when the prop is not given. */
  const DefaultReadonly := true

  /** The least integer not below `v`. */
  function Ceil(v: real): (c: int)
    ensures c as real - 1.0 < v <= c as real
  {
    -((-v).Floor)
  }

  function Min(a: int, b: int): int { if a < b then a else b }
  function Max(a: int, b: int): int { if a < b then b else a }

  /** Star `index` is drawn filled exactly when `index < value`. */
  function Stars(value: real): (stars: seq<bool>)
    ensures |stars| == StarCount
    ensures forall i :: 0 <= i < StarCount ==> (stars[i] <==> (i as real) < value)
  {
    seq(StarCount, i requires 0 <= i < StarCount => (i as real) < value)
  }

  function CountTrue(s: seq<bool>): nat {
    if s == [] then 0 else CountTrue(s[..|s| - 1]) + (if s[|s| - 1] then 1 else 0)
  }

  /** For an integer, lying below a real is lying below its ceiling. */
  lemma BelowIffBelowCeil(i: int, v: real)
    ensures (i as real) < v <==> i < Ceil(v)
  {
  }

  lemma {:induction false} ThresholdCount(n: nat, k: int)
    ensures CountTrue(seq(n, i requires 0 <= i < n => i < k)) == Min(n, Max(0, k))
  {
    if n > 0 {
      var s := seq(n, i requires 0 <= i < n => i < k);
      assert s[..n - 1] == seq(n - 1, i requires 0 <= i < n - 1 => i < k);
      ThresholdCount(n - 1, k);
    }
  }

  /** The number of filled stars is the ceiling of the value clamped to 0..5. */
  lemma FilledCount(value: real)
    ensures CountTrue(Stars(value)) == Min(StarCount, Max(0, Ceil(value)))
  {
    var k := Ceil(value);
    forall i | 0 <= i < StarCount
      ensures Stars(value)[i] == (i < k)
    {
      BelowIffBelowCeil(i, value);
    }
    assert Stars(value) == seq(StarCount, i requires 0 <= i < StarCount => i < k);
    ThresholdCount(StarCount, k);
  }

  /** A rating of 4.5 fills all five stars; 0 and negative ratings fill none. */
  lemma FilledCountExamples()
    ensures CountTrue(Stars(4.5)) == 5
    ensures CountTrue(Stars(-2.0)) == 0
  {
    FilledCount(4.5);
    FilledCount(-2.0);
  }

  /**
   * `handlePress(index)`: the value passed to `onChange`, if it is called.
   * `hasOnChange` says whether the prop was given.
   */
  function Press(readonly: bool, hasOnChange: bool, index: nat): (emitted: Option<int>)
    ensures emitted.Some? <==> !readonly && hasOnChange
    ensures emitted.Some? ==> emitted.value == index + 1
    ensures emitted.Some? && index < StarCount ==> 1 <= emitted.value <= StarCount
  {
    if !readonly && hasOnChange then Some(index + 1) else None
  }

  /** The stars are disabled exactly when the rating is read-only. */
  function Disabled(readonly: bool): (d: bool)
    ensures d <==> readonly
  {
    readonly
  }

  /** With the default `readonly`, the stars are disabled and no press reports anything. */
  lemma DefaultIsReadonly(hasOnChange: bool, index: nat)
    ensures Disabled(DefaultReadonly)
    ensures Press(DefaultReadonly, hasOnChange, index) == None
  {
  }
}
