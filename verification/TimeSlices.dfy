/** Cutting a query window into slices, and how often a record is counted across them. */
module TimeSlices {

  datatype Grain = AsOfSnapshot | Hourly | Daily | Weekly | Monthly | OtherGrain

  datatype Slice = Slice(start: int, end: int)

  const HOUR := 3_600_000_000
  const DAY := 24 * HOUR

  /** Step lengths in microseconds; an unknown grain is cut by the day. */
  function StepOf(g: Grain): (step: int)
    ensures step > 0
  {
    match g
    case Hourly => HOUR
    case Weekly => 7 * DAY
    case Monthly => 30 * DAY
    case _ => DAY
  }

  function Min(a: int, b: int): int {
    if a <= b then a else b
  }

  /** Whole steps from the start, the last one cut off at the end. */
  ghost predicate Tiles(slices: seq<Slice>, start: int, end: int, step: int) {
    && slices != [] && slices[0].start == start && slices[|slices|-1].end == end
    && (forall i :: 0 <= i < |slices| ==> slices[i].start < slices[i].end <= slices[i].start + step)
    && (forall i :: 0 <= i < |slices| - 1 ==> slices[i].end == slices[i].start + step == slices[i+1].start)
  }

  /** One slice for a snapshot or an empty window, else a tiling of the window; there is only one. */
  ghost predicate Cuts(slices: seq<Slice>, start: int, end: int, grain: Grain) {
    if grain.AsOfSnapshot? || start >= end then slices == [Slice(start, end)]
    else Tiles(slices, start, end, StepOf(grain))
  }

  method GenerateTimeSlices(start: int, end: int, grain: Grain) returns (slices: seq<Slice>)
    ensures Cuts(slices, start, end, grain)
  {
    if grain.AsOfSnapshot? || start >= end {
      return [Slice(start, end)];
    }
    var step := StepOf(grain);
    slices := [];
    var curr := start;
    while curr < end
      invariant start <= curr <= end
      invariant slices == [] ==> curr == start
      invariant slices != [] ==>
        Tiles(slices, start, curr, step) && (curr < end ==> curr == slices[|slices|-1].start + step)
      decreases end - curr
    {
      var next := Min(curr + step, end);
      slices := slices + [Slice(curr, next)];
      curr := next;
    }
  }

  // ---------------------------------------------------------------- the tiling

  /** The length of `n` steps. */
  function Steps(n: int, step: int): int {
    n * step
  }

  lemma {:induction false} StartsAreSteps(slices: seq<Slice>, start: int, end: int, step: int, i: nat)
    requires Tiles(slices, start, end, step) && i < |slices|
    ensures slices[i].start == start + Steps(i, step)
  {
    if i > 0 {
      StartsAreSteps(slices, start, end, step, i - 1);
    }
  }

  lemma CutsAreUnique(a: seq<Slice>, b: seq<Slice>, start: int, end: int, grain: Grain)
    requires Cuts(a, start, end, grain) && Cuts(b, start, end, grain)
    ensures a == b
  {
    if !grain.AsOfSnapshot? && start < end {
      var step := StepOf(grain);
      NoLonger(a, b, start, end, step);
      NoLonger(b, a, start, end, step);
      forall i | 0 <= i < |a| ensures a[i] == b[i] {
        StartsAreSteps(a, start, end, step, i);
        StartsAreSteps(b, start, end, step, i);
      }
    }
  }

  lemma NoLonger(a: seq<Slice>, b: seq<Slice>, start: int, end: int, step: int)
    requires Tiles(a, start, end, step) && Tiles(b, start, end, step) && step > 0
    ensures |a| <= |b|
  {
    var m, n := |a| - 1, |b| - 1;
    StartsAreSteps(a, start, end, step, m);
    StartsAreSteps(b, start, end, step, n);
    OneMoreStep(n, step);
    hide Steps;
    StepOrder(n + 1, m, step);
  }

  // ---------------------------------------------------------------- how often a moment is counted

  predicate Within(t: int, s: Slice) {
    s.start <= t <= s.end
  }

  /** In how many slices, bounds included, a moment lies. */
  function Hits(slices: seq<Slice>, t: int): nat {
    if slices == [] then 0
    else Hits(slices[..|slices|-1], t) + (if Within(t, slices[|slices|-1]) then 1 else 0)
  }

  /** Where two neighbouring slices meet. */
  predicate OnBoundary(t: int, start: int, end: int, step: int)
    requires step > 0
  {
    start < t < end && (t - start) % step == 0
  }

  /** Every moment of the window is counted once, and once more exactly where two slices meet. */
  lemma HitsInWindow(slices: seq<Slice>, start: int, end: int, step: int, t: int)
    requires step > 0 && Tiles(slices, start, end, step)
    ensures Hits(slices, t) == (if start <= t <= end then 1 else 0) + (if OnBoundary(t, start, end, step) then 1 else 0)
  {
    PrefixHits(slices, start, end, step, t, |slices|);
    assert slices[..|slices|] == slices;
  }

  lemma {:induction false} PrefixHits(slices: seq<Slice>, start: int, end: int, step: int, t: int, n: nat)
    requires step > 0 && Tiles(slices, start, end, step) && 0 < n <= |slices|
    ensures var e := slices[n-1].end;
      Hits(slices[..n], t) == (if start <= t <= e then 1 else 0) + (if OnBoundary(t, start, e, step) then 1 else 0)
  {
    assert slices[..n][..n-1] == slices[..n-1];
    StartsAreSteps(slices, start, end, step, n - 1);
    if n == 1 {
      assert Hits(slices[..0], t) == 0;
      if start < t < slices[0].end { NotAMultiple(t - start, step, 0); }
    } else {
      PrefixHits(slices, start, end, step, t, n - 1);
      var b := slices[n-1].start;
      if t == b { MultipleOfStep(n - 1, step); }
      if b < t < slices[n-1].end { NotAMultiple(t - start, step, n - 1); }
    }
  }

  lemma NotAMultiple(d: int, step: int, n: int)
    requires step > 0 && n * step < d < n * step + step
    ensures d % step != 0
  {
    var q := d / step;
    assert d == q * step + d % step;
    StepOrder(q, n, step);
    StepOrder(n + 1, q, step);
  }

  lemma MultipleOfStep(n: int, step: int)
    requires step > 0
    ensures (n * step) % step == 0
  {
    var q := (n * step) / step;
    assert n * step == q * step + (n * step) % step;
    StepOrder(n + 1, q, step);
    StepOrder(q + 1, n, step);
  }

  lemma StepOrder(a: int, b: int, step: int)
    requires step > 0
    ensures a <= b <==> Steps(a, step) <= Steps(b, step)
  {
    assert b * step - a * step == (b - a) * step;
  }

  lemma OneMoreStep(n: int, step: int)
    ensures Steps(n + 1, step) == Steps(n, step) + step
  {
  }
}
