/** The brush filter of the parallel-coordinates plot
    (Homework3/nigomez/main.js:493-509, Homework2/nigomez/main.js:374-390). */
module Brushing {
  import opened Views

  /** One axis's brush, its two pixel ends already mapped back through the
      axis's Y scale; the ends come in either order, as that scale's range is
      inverted. */
  datatype Selection = Selection(end0: real, end1: real)

  /** `selections[dim].sort((a, b) => a - b)` gives `[Lower, Upper]`. */
  function Lower(s: Selection): real
  {
    if s.end0 <= s.end1 then s.end0 else s.end1
  }

  function Upper(s: Selection): real
  {
    if s.end0 <= s.end1 then s.end1 else s.end0
  }

  /** `d[dim] >= min && d[dim] <= max` */
  predicate Within(v: real, s: Selection)
  {
    v >= Lower(s) && v <= Upper(s)
  }

  /** `dimensions.filter(dim => brushSelection(...))`: the axes that carry a
      brush, in axis order. `brushes` holds the selections of those axes only. */
  function ActiveAmong(dims: seq<Dim>, brushes: map<Dim, Selection>): (r: seq<Dim>)
    ensures forall d :: d in r <==> d in dims && d in brushes
  {
    if dims == [] then []
    else if dims[0] in brushes then [dims[0]] + ActiveAmong(dims[1..], brushes)
    else ActiveAmong(dims[1..], brushes)
  }

  function ActiveDims(brushes: map<Dim, Selection>): seq<Dim>
  {
    ActiveAmong(Dimensions, brushes)
  }

  /** `actives.every(dim => { if (!selections[dim]) return true; ... })` */
  function Every(p: ParallelRecord, actives: seq<Dim>, brushes: map<Dim, Selection>): bool
  {
    actives == [] ||
    ((actives[0] !in brushes || Within(ValueOn(p, actives[0]), brushes[actives[0]])) &&
     Every(p, actives[1..], brushes))
  }

  /** Whether `brushed` leaves the line of `p` displayed. */
  predicate Visible(p: ParallelRecord, brushes: map<Dim, Selection>)
  {
    Every(p, ActiveDims(brushes), brushes)
  }

  lemma {:induction false} EveryAll(p: ParallelRecord, actives: seq<Dim>, brushes: map<Dim, Selection>)
    ensures Every(p, actives, brushes) <==>
              forall d :: d in actives && d in brushes ==> Within(ValueOn(p, d), brushes[d])
  {
    if actives != [] {
      EveryAll(p, actives[1..], brushes);
      assert forall d :: d in actives <==> d == actives[0] || d in actives[1..];
    }
  }

  /** A line is shown exactly when its value on every brushed axis lies
      between that brush's lower and upper end. */
  lemma VisibleSpec(p: ParallelRecord, brushes: map<Dim, Selection>)
    ensures Visible(p, brushes) <==>
              forall d :: d in brushes ==> Lower(brushes[d]) <= ValueOn(p, d) <= Upper(brushes[d])
  {
    EveryAll(p, ActiveDims(brushes), brushes);
    forall d: Dim
      ensures d in Dimensions
    {
      match d
      case Anxiety => assert Dimensions[0] == d;
      case Depression => assert Dimensions[1] == d;
      case Insomnia => assert Dimensions[2] == d;
      case Ocd => assert Dimensions[3] == d;
      case HoursPerDay => assert Dimensions[4] == d;
    }
  }

  /** With no brush, every line is shown. */
  lemma NoBrushShowsAll(p: ParallelRecord)
    ensures Visible(p, map[])
  {
  }

  /** Which end of a brush is which does not matter. */
  lemma SwapEndsKeepsVisibility(p: ParallelRecord, brushes: map<Dim, Selection>, dim: Dim)
    requires dim in brushes
    ensures Visible(p, brushes[dim := Selection(brushes[dim].end1, brushes[dim].end0)]) == Visible(p, brushes)
  {
    VisibleSpec(p, brushes);
    VisibleSpec(p, brushes[dim := Selection(brushes[dim].end1, brushes[dim].end0)]);
  }

  /** Brushing axis `dim` with `s` hides exactly the lines outside `s` on `dim`,
      whatever the other axes' brushes are. */
  lemma BrushOneAxis(p: ParallelRecord, brushes: map<Dim, Selection>, dim: Dim, s: Selection)
    ensures Visible(p, brushes[dim := s]) <==> Visible(p, brushes - {dim}) && Within(ValueOn(p, dim), s)
  {
    VisibleSpec(p, brushes[dim := s]);
    VisibleSpec(p, brushes - {dim});
  }

  /** `brushed`'s final step: sets the display of each line's path, `shown[i]`
      standing for `display` not being `"none"`. */
  method ApplyBrushes(lines: seq<ParallelRecord>, shown: array<bool>, brushes: map<Dim, Selection>)
    requires shown.Length == |lines|
    modifies shown
    ensures forall i :: 0 <= i < |lines| ==> shown[i] == Visible(lines[i], brushes)
  {
    var i := 0;
    while i < shown.Length
      invariant 0 <= i <= shown.Length
      invariant forall k :: 0 <= k < i ==> shown[k] == Visible(lines[k], brushes)
    {
      shown[i] := Every(lines[i], ActiveDims(brushes), brushes);
      i := i + 1;
    }
  }
}
