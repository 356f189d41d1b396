/**
 * What `GetLoadProgress` promises about the values the stores report:
 * each is a fraction in [0, 1], or -1 when the store tracks no such load.
 */
module Progress {

  /** The starting value of the running minimum. */
  const Sentinel: real := 2.1

  /** A reported value takes part when it is greater than -1. */
  predicate Active(v: real) {
    v > -1.0
  }

  /** One `if (v > -1f) progress = Mathf.Min(progress, v);` step. */
  function MinStep(progress: real, v: real): (r: real)
    ensures r <= progress
    ensures r == progress || (Active(v) && r == v)
    ensures Active(v) ==> r <= v
  {
    if Active(v) then (if v < progress then v else progress) else progress
  }

  /** The closing `if (progress >= 2f) progress = 0f;`. */
  function Finish(progress: real): (r: real)
    ensures progress < 2.0 ==> r == progress
    ensures progress >= 2.0 ==> r == 0.0
  {
    if progress >= 2.0 then 0.0 else progress
  }

  /**
   * `p` is the aggregate of `vs`: 0 when no active value is below 2,
   * otherwise the least active value.
   */
  ghost predicate IsAggregate(vs: seq<real>, p: real) {
    if forall i | 0 <= i < |vs| && Active(vs[i]) :: vs[i] >= 2.0 then p == 0.0
    else
      && (exists i :: 0 <= i < |vs| && Active(vs[i]) && vs[i] == p)
      && (forall i | 0 <= i < |vs| && Active(vs[i]) :: p <= vs[i])
  }

  /** The running minimum after every value of `vs`, from the sentinel. */
  function Fold(vs: seq<real>): (progress: real)
    ensures progress <= Sentinel
    ensures progress == Sentinel || exists i :: 0 <= i < |vs| && Active(vs[i]) && vs[i] == progress
    ensures forall i | 0 <= i < |vs| && Active(vs[i]) :: progress <= vs[i]
  {
    if vs == [] then Sentinel
    else
      var before := Fold(vs[..|vs| - 1]);
      var r := MinStep(before, vs[|vs| - 1]);
      assert forall i | 0 <= i < |vs| - 1 :: vs[..|vs| - 1][i] == vs[i];
      r
  }

  /** Folding one more value is one more step. */
  lemma FoldStep(vs: seq<real>, v: real)
    ensures Fold(vs + [v]) == MinStep(Fold(vs), v)
  {
    assert (vs + [v])[..|vs|] == vs;
  }

  /** The sentinel-start fold followed by the closing step yields the aggregate. */
  lemma FoldAggregates(vs: seq<real>, p: real)
    requires p == Finish(Fold(vs))
    ensures IsAggregate(vs, p)
  {
    var f := Fold(vs);
    if forall i | 0 <= i < |vs| && Active(vs[i]) :: vs[i] >= 2.0 {
      if f != Sentinel {
        var i :| 0 <= i < |vs| && Active(vs[i]) && vs[i] == f;
      }
    } else {
      var j :| 0 <= j < |vs| && Active(vs[j]) && vs[j] < 2.0;
      assert f < 2.0;
    }
  }

  /** Two steps from the sentinel and the closing step yield the aggregate of the two values. */
  lemma AggregateOfTwo(a: real, b: real, p: real)
    requires p == Finish(MinStep(MinStep(Sentinel, a), b))
    ensures IsAggregate([a, b], p)
  {
    FoldStep([], a);
    assert [] + [a] == [a];
    FoldStep([a], b);
    assert [a] + [b] == [a, b];
    FoldAggregates([a, b], p);
  }

  /** Three steps from the sentinel and the closing step yield the aggregate of the three values. */
  lemma AggregateOfThree(a: real, b: real, c: real, p: real)
    requires p == Finish(MinStep(MinStep(MinStep(Sentinel, a), b), c))
    ensures IsAggregate([a, b, c], p)
  {
    FoldStep([], a);
    assert [] + [a] == [a];
    FoldStep([a], b);
    assert [a] + [b] == [a, b];
    FoldStep([a, b], c);
    assert [a, b] + [c] == [a, b, c];
    FoldAggregates([a, b, c], p);
  }

  /** The aggregate is determined by the values. */
  lemma AggregateUnique(vs: seq<real>, p: real, q: real)
    requires IsAggregate(vs, p) && IsAggregate(vs, q)
    ensures p == q
  {
    if !(forall i | 0 <= i < |vs| && Active(vs[i]) :: vs[i] >= 2.0) {
      var i :| 0 <= i < |vs| && Active(vs[i]) && vs[i] == p;
      var j :| 0 <= j < |vs| && Active(vs[j]) && vs[j] == q;
      assert p <= vs[j] && q <= vs[i];
    }
  }

  /** When every store reports a fraction or -1, so is the aggregate a fraction. */
  lemma AggregateInUnitRange(vs: seq<real>, p: real)
    requires forall i | 0 <= i < |vs| :: vs[i] == -1.0 || 0.0 <= vs[i] <= 1.0
    requires IsAggregate(vs, p)
    ensures 0.0 <= p <= 1.0
  {
    if !(forall i | 0 <= i < |vs| && Active(vs[i]) :: vs[i] >= 2.0) {
      var i :| 0 <= i < |vs| && Active(vs[i]) && vs[i] == p;
    }
  }

  /** With no store tracking a load, the aggregate is 0. */
  lemma NoActiveLoadIsZero(vs: seq<real>, p: real)
    requires forall i | 0 <= i < |vs| :: !Active(vs[i])
    requires IsAggregate(vs, p)
    ensures p == 0.0
  {
  }
}
