/** Homework3's click-driven state: the pulse flag and the three zoom flags
    (Homework3/nigomez/main.js:145, 199, 216-233, 346, 357-359, 512, 528-531),
    and the per-circle pulse parameters (Homework3/nigomez/main.js:178-179, 188). */
module Interaction {

  /** `isPulsing`, `scatterZoomed`, `donutZoomed`, `parallelZoomed` */
  datatype Flags = Flags(isPulsing: bool, scatterZoomed: bool, donutZoomed: bool, parallelZoomed: bool)

  /** The values the four `let` declarations start with. */
  const Initial: Flags := Flags(true, false, false, false)

  /** A click on one chart group; only the scatter group looks at the Alt key. */
  datatype Click = ScatterClick(altKey: bool) | DonutClick | ParallelClick

  /** What a click handler goes on to do once it has flipped its flag. */
  datatype Effect = StartPulsing | StopPulsing | ZoomTo(scale: int)

  /** `zoomed ? 2 : 1` */
  function ZoomScale(zoomed: bool): (k: int)
    ensures k == 1 || k == 2
    ensures k == 2 <==> zoomed
  {
    if zoomed then 2 else 1
  }

  /** The flag update of each click handler. */
  function Step(f: Flags, c: Click): Flags
  {
    match c
    case ScatterClick(altKey) =>
      if altKey then f.(isPulsing := !f.isPulsing) else f.(scatterZoomed := !f.scatterZoomed)
    case DonutClick => f.(donutZoomed := !f.donutZoomed)
    case ParallelClick => f.(parallelZoomed := !f.parallelZoomed)
  }

  /** What the handler does next, read from the flags it has just updated. */
  function EffectOf(g: Flags, c: Click): Effect
  {
    match c
    case ScatterClick(altKey) =>
      if altKey then (if g.isPulsing then StartPulsing else StopPulsing)
      else ZoomTo(ZoomScale(g.scatterZoomed))
    case DonutClick => ZoomTo(ZoomScale(g.donutZoomed))
    case ParallelClick => ZoomTo(ZoomScale(g.parallelZoomed))
  }

  /** The flags after a sequence of clicks. */
  function Run(f: Flags, cs: seq<Click>): Flags
    decreases |cs|
  {
    if cs == [] then f else Run(Step(f, cs[0]), cs[1..])
  }

  function Count(cs: seq<Click>, c: Click): nat
  {
    if cs == [] then 0 else (if cs[0] == c then 1 else 0) + Count(cs[1..], c)
  }

  predicate Odd(n: nat)
  {
    n % 2 == 1
  }

  /** Each flag is toggled by its own kind of click and by no other: after any
      clicks it differs from its start exactly when its kind of click came an
      odd number of times. */
  lemma {:induction false} RunParity(f: Flags, cs: seq<Click>)
    ensures Run(f, cs) == Flags(
      f.isPulsing != Odd(Count(cs, ScatterClick(true))),
      f.scatterZoomed != Odd(Count(cs, ScatterClick(false))),
      f.donutZoomed != Odd(Count(cs, DonutClick)),
      f.parallelZoomed != Odd(Count(cs, ParallelClick)))
    decreases |cs|
  {
    if cs != [] {
      RunParity(Step(f, cs[0]), cs[1..]);
    }
  }

  /** Two identical clicks restore the flags. */
  lemma DoubleClickRestores(f: Flags, c: Click)
    ensures Run(f, [c, c]) == f
  {
    assert [c, c][1..] == [c] && [c][1..] == [];
    assert Run(f, [c, c]) == Run(Step(f, c), [c]) == Step(Step(f, c), c);
  }

  /** A plain click zooms its chart to 2 when it has just become zoomed and back
      to 1 otherwise; an Alt-click on the scatter plot changes no zoom flag and
      starts or stops the pulse according to the new pulse flag. */
  lemma ClickEffects(f: Flags, c: Click)
    ensures c == ScatterClick(true) ==>
              Step(f, c).isPulsing == !f.isPulsing &&
              Step(f, c).(isPulsing := f.isPulsing) == f &&
              EffectOf(Step(f, c), c) == if f.isPulsing then StopPulsing else StartPulsing
    ensures c == ScatterClick(false) ==>
              Step(f, c).(scatterZoomed := f.scatterZoomed) == f &&
              EffectOf(Step(f, c), c) == ZoomTo(if f.scatterZoomed then 1 else 2)
    ensures c == DonutClick ==>
              Step(f, c).(donutZoomed := f.donutZoomed) == f &&
              EffectOf(Step(f, c), c) == ZoomTo(if f.donutZoomed then 1 else 2)
    ensures c == ParallelClick ==>
              Step(f, c).(parallelZoomed := f.parallelZoomed) == f &&
              EffectOf(Step(f, c), c) == ZoomTo(if f.parallelZoomed then 1 else 2)
  {
  }

  /** The closure state the three click handlers share. */
  class Controller {
    var isPulsing: bool
    var scatterZoomed: bool
    var donutZoomed: bool
    var parallelZoomed: bool

    function State(): Flags
      reads this
    {
      Flags(isPulsing, scatterZoomed, donutZoomed, parallelZoomed)
    }

    constructor ()
      ensures State() == Initial
    {
      isPulsing := true;
      scatterZoomed := false;
      donutZoomed := false;
      parallelZoomed := false;
    }

    /** `g1.on("click", ...)` */
    method OnScatterClick(altKey: bool) returns (e: Effect)
      modifies this
      ensures State() == Step(old(State()), ScatterClick(altKey))
      ensures e == EffectOf(State(), ScatterClick(altKey))
    {
      if altKey {
        isPulsing := !isPulsing;
        e := if isPulsing then StartPulsing else StopPulsing;
      } else {
        scatterZoomed := !scatterZoomed;
        e := ZoomTo(if scatterZoomed then 2 else 1);
      }
    }

    /** `g2.on("click", ...)` */
    method OnDonutClick() returns (e: Effect)
      modifies this
      ensures State() == Step(old(State()), DonutClick)
      ensures e == EffectOf(State(), DonutClick)
    {
      donutZoomed := !donutZoomed;
      e := ZoomTo(if donutZoomed then 2 else 1);
    }

    /** `g3.on("click", ...)` */
    method OnParallelClick() returns (e: Effect)
      modifies this
      ensures State() == Step(old(State()), ParallelClick)
      ensures e == EffectOf(State(), ParallelClick)
    {
      parallelZoomed := !parallelZoomed;
      e := ZoomTo(if parallelZoomed then 2 else 1);
    }
  }

  /** The radius a circle shrinks back to at the end of each pulse. */
  const RestRadius: real := 4.0

  /** `6 + (d.Anxiety / 10) * 4`: the radius a pulse grows to. */
  function MaxRadius(anxiety: real): (r: real)
    ensures 0.0 <= anxiety <= 10.0 ==> 6.0 <= r <= 10.0 && r > RestRadius
  {
    6.0 + (anxiety / 10.0) * 4.0
  }

  /** `2000 - (d.Anxiety / 10) * 1000`: the milliseconds of each half pulse. */
  function PulseDuration(anxiety: real): (ms: real)
    ensures 0.0 <= anxiety <= 10.0 ==> 1000.0 <= ms <= 2000.0
  {
    2000.0 - (anxiety / 10.0) * 1000.0
  }

  /** More anxiety gives a larger and faster pulse. */
  lemma PulseMonotone(a: real, b: real)
    requires a <= b
    ensures MaxRadius(a) <= MaxRadius(b)
    ensures PulseDuration(b) <= PulseDuration(a)
  {
  }
}
