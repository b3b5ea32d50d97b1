/**
 * The lenient array aggregates Array.max, Array.min, Array.sum and Array.avg.
 * An argument that is not an array (undefined, null) is None.
 */
module Aggregates {
  import opened Wrappers
  import opened Values

  /** The entries of an argument; a missing array has none. */
  function Elements(arr: Option<seq<Entry>>): seq<Entry>
  {
    if arr.Some? then arr.value else []
  }

  predicate AllNumeric(s: seq<Entry>)
  {
    forall i :: 0 <= i < |s| ==> s[i].Num?
  }

  /** m is one of the entries of s and no entry of s exceeds it. */
  predicate IsMaximum(s: seq<Entry>, m: real)
  {
    (exists i :: 0 <= i < |s| && s[i] == Num(m)) &&
    (forall i :: 0 <= i < |s| ==> s[i].Num? && s[i].v <= m)
  }

  /** m is one of the entries of s and no entry of s is below it. */
  predicate IsMinimum(s: seq<Entry>, m: real)
  {
    (exists i :: 0 <= i < |s| && s[i] == Num(m)) &&
    (forall i :: 0 <= i < |s| ==> s[i].Num? && m <= s[i].v)
  }

  function Largest(s: seq<Entry>): (m: real)
    requires s != [] && AllNumeric(s)
    ensures IsMaximum(s, m)
  {
    if |s| == 1 then s[0].v
    else
      var rest := Largest(s[1..]);
      assert forall i :: 1 <= i < |s| ==> s[i] == s[1..][i - 1];
      if rest < s[0].v then s[0].v else rest
  }

  function Smallest(s: seq<Entry>): (m: real)
    requires s != [] && AllNumeric(s)
    ensures IsMinimum(s, m)
  {
    if |s| == 1 then s[0].v
    else
      var rest := Smallest(s[1..]);
      assert forall i :: 1 <= i < |s| ==> s[i] == s[1..][i - 1];
      if s[0].v < rest then s[0].v else rest
  }

  /**
   * Array.max: undefined for a missing or empty array; otherwise Math.max over
   * the entries, which is NaN as soon as one entry does not coerce to a number.
   */
  function Max(arr: Option<seq<Entry>>): (r: JsNumber)
    ensures r.Undefined? <==> Elements(arr) == []
    ensures r.NaN? <==> Elements(arr) != [] && !AllNumeric(Elements(arr))
    ensures r.Number? ==> IsMaximum(Elements(arr), r.value)
  {
    var s := Elements(arr);
    if s == [] then Undefined
    else if !AllNumeric(s) then NaN
    else Number(Largest(s))
  }

  /** Array.min, the mirror image of Array.max. */
  function Min(arr: Option<seq<Entry>>): (r: JsNumber)
    ensures r.Undefined? <==> Elements(arr) == []
    ensures r.NaN? <==> Elements(arr) != [] && !AllNumeric(Elements(arr))
    ensures r.Number? ==> IsMinimum(Elements(arr), r.value)
  {
    var s := Elements(arr);
    if s == [] then Undefined
    else if !AllNumeric(s) then NaN
    else Number(Smallest(s))
  }

  /** What one entry adds to a sum: its number, or 0 when it is not a number. */
  function Term(e: Entry): real
  {
    if e.Num? then e.v else 0.0
  }

  /** The reference sum of a series: the numbers in it added up, everything else ignored. */
  function EntriesSum(s: seq<Entry>): real
  {
    if s == [] then 0.0 else EntriesSum(s[..|s| - 1]) + Term(s[|s| - 1])
  }

  /**
   * Array.sum: accumulates parseFloat of each entry, skipping entries that are
   * falsy or that isNaN rejects.
   */
  method Sum(arr: Option<seq<Entry>>) returns (total: real)
    ensures total == EntriesSum(Elements(arr))
  {
    var s := Elements(arr);
    var len := |s|;
    total := 0.0;
    var i := 0;
    while i < len
      invariant 0 <= i <= len
      invariant total == EntriesSum(s[..i])
    {
      var val := ToNumber(s[i]);
      total := total + (if Falsy(s[i]) || IsNaN(s[i]) then 0.0 else val.value);
      assert s[..i + 1][..i] == s[..i];
      i := i + 1;
    }
    assert s[..len] == s;
  }

  /** Array.avg: 0 for a missing or empty array, otherwise the sum over the length. */
  function Average(arr: Option<seq<Entry>>): (r: real)
    ensures Elements(arr) == [] ==> r == 0.0
    ensures r * (|Elements(arr)| as real) == EntriesSum(Elements(arr))
  {
    var len := |Elements(arr)|;
    if len == 0 then 0.0 else EntriesSum(Elements(arr)) / (len as real)
  }

  /** The sum of a concatenation is the sum of the parts. */
  lemma {:induction false} EntriesSumAppend(s: seq<Entry>, t: seq<Entry>)
    ensures EntriesSum(s + t) == EntriesSum(s) + EntriesSum(t)
    decreases |t|
  {
    if t == [] {
      assert s + t == s;
    } else {
      var t' := t[..|t| - 1];
      assert (s + t)[..|s + t| - 1] == s + t';
      EntriesSumAppend(s, t');
    }
  }

  /** An entry that is not a number can be dropped without changing the sum. */
  lemma SumSkipsNonNumeric(s: seq<Entry>, i: nat)
    requires i < |s| && !s[i].Num?
    ensures EntriesSum(s[..i] + s[i + 1..]) == EntriesSum(s)
  {
    assert s == s[..i] + [s[i]] + s[i + 1..];
    EntriesSumAppend(s[..i], [s[i]]);
    EntriesSumAppend(s[..i] + [s[i]], s[i + 1..]);
    EntriesSumAppend(s[..i], s[i + 1..]);
  }

  /** A series of numbers all within [lo, hi] sums to between |s|*lo and |s|*hi. */
  lemma {:induction false} EntriesSumBounds(s: seq<Entry>, lo: real, hi: real)
    requires forall i :: 0 <= i < |s| ==> s[i].Num? && lo <= s[i].v <= hi
    ensures (|s| as real) * lo <= EntriesSum(s) <= (|s| as real) * hi
  {
    if s != [] {
      EntriesSumBounds(s[..|s| - 1], lo, hi);
    }
  }

  /** An average lies within any bounds that the sum lies within, scaled by the length. */
  lemma AverageWithin(arr: Option<seq<Entry>>, lo: real, hi: real)
    requires Elements(arr) != []
    requires (|Elements(arr)| as real) * lo <= EntriesSum(Elements(arr)) <= (|Elements(arr)| as real) * hi
    ensures lo <= Average(arr) <= hi
  {
    var n, avg := |Elements(arr)| as real, Average(arr);
    assert avg * n == EntriesSum(Elements(arr));
  }

  /** The average of a non-empty numeric array lies between its minimum and its maximum. */
  lemma AverageBetweenMinAndMax(arr: Option<seq<Entry>>)
    requires Elements(arr) != [] && AllNumeric(Elements(arr))
    ensures Min(arr).Number? && Max(arr).Number?
    ensures Min(arr).value <= Average(arr) <= Max(arr).value
  {
    var s := Elements(arr);
    var lo, hi := Min(arr).value, Max(arr).value;
    assert IsMinimum(s, lo) && IsMaximum(s, hi);
    assert forall i :: 0 <= i < |s| ==> s[i].Num? && lo <= s[i].v <= hi;
    EntriesSumBounds(s, lo, hi);
    AverageWithin(arr, lo, hi);
  }

  /** Array.sum([1, "x", null, 3]) is 4 and Array.avg([]) is 0. */
  lemma SumExample()
    ensures EntriesSum([Num(1.0), Text("x"), Num(0.0), Num(3.0)]) == 4.0
    ensures Average(Some([])) == 0.0 && Max(Some([])) == Undefined
  {
    var s := [Num(1.0), Text("x"), Num(0.0), Num(3.0)];
    assert [Num(1.0)][..0] == [];
    assert EntriesSum([Num(1.0)]) == 1.0;
    assert [Num(1.0), Text("x")][..1] == [Num(1.0)];
    assert EntriesSum([Num(1.0), Text("x")]) == 1.0;
    assert s[..3] == [Num(1.0), Text("x"), Num(0.0)];
    assert s[..3][..2] == [Num(1.0), Text("x")];
    assert EntriesSum(s[..3]) == 1.0;
  }
}
