/** The scale inputs the model keeps: each parallel axis's Y domain
    (Homework3/nigomez/main.js:402-409, Homework2/nigomez/main.js:291-298) and
    the scatter colour table with its legend (Homework2/nigomez/main.js:134-136,
    172; the same in Homework3/nigomez/main.js:125-127, 239). */
module Scales {
  import opened Wrappers
  import opened Views

  /** `d3.max`: the largest value, or `undefined` (here `None`) for no values. */
  function MaxOf(xs: seq<real>): (m: Option<real>)
    ensures m.None? <==> xs == []
    ensures m.Some? ==> m.value in xs && forall x :: x in xs ==> x <= m.value
  {
    if xs == [] then None
    else
      assert forall x :: x in xs ==> x == xs[0] || x in xs[1..];
      match MaxOf(xs[1..])
      case None => Some(xs[0])
      case Some(rest) => Some(if rest < xs[0] then xs[0] else rest)
  }

  function HoursOf(view: seq<ParallelRecord>): (hs: seq<real>)
    ensures |hs| == |view| && forall i :: 0 <= i < |view| ==> hs[i] == view[i].hoursPerDay
  {
    seq(|view|, i requires 0 <= i < |view| => view[i].hoursPerDay)
  }

  /** A linear domain `[lo, hi]`; `hi` is `None` when `d3.max` had no values. */
  datatype Domain = Domain(lo: real, hi: Option<real>)

  /** The Y domain of one axis before `.nice()`: [0, largest hours in the
      parallel view] for hours per day, the survey's [0, 10] for the four
      mental-health scores. */
  function YDomain(dim: Dim, view: seq<ParallelRecord>): (d: Domain)
    ensures d.lo == 0.0
    ensures dim != HoursPerDay ==> d.hi == Some(10.0)
    ensures dim == HoursPerDay ==> (d.hi.None? <==> view == [])
    ensures dim == HoursPerDay && d.hi.Some? ==>
              (exists p :: p in view && p.hoursPerDay == d.hi.value) &&
              forall p :: p in view ==> p.hoursPerDay <= d.hi.value
  {
    if dim == HoursPerDay then
      var m := MaxOf(HoursOf(view));
      if m.Some? then
        var i :| 0 <= i < |view| && HoursOf(view)[i] == m.value;
        assert view[i] in view;
        assert forall p :: p in view ==> p.hoursPerDay in HoursOf(view);
        Domain(0.0, m)
      else Domain(0.0, m)
    else Domain(0.0, Some(10.0))
  }

  /** The scatter colour scale's domain and range, index for index. */
  const EffectDomain: seq<string> := ["Improve", "No effect", "Worsen", "Unknown"]
  const EffectColors: seq<string> := ["#4CAF50", "#FFC107", "#F44336", "#B0BEC5"]

  /** The scatter legend's entries. */
  const ScatterLegend: seq<string> := ["Improve", "No effect", "Worsen"]

  /** The colour listed at the position of `key` among `keys`, if it is listed. */
  function Lookup(keys: seq<string>, colors: seq<string>, key: string): (c: Option<string>)
    requires |keys| == |colors|
    ensures c.Some? <==> key in keys
    ensures c.Some? ==> exists i :: 0 <= i < |keys| && keys[i] == key && colors[i] == c.value
    ensures forall i :: 0 <= i < |keys| && keys[i] == key && key !in keys[..i] ==> c == Some(colors[i])
  {
    if keys == [] then None
    else if keys[0] == key then Some(colors[0])
    else
      var c := Lookup(keys[1..], colors[1..], key);
      assert forall i :: 1 <= i < |keys| && key !in keys[..i] ==> key !in keys[1..][..i - 1] by {
        forall i | 1 <= i < |keys| && key !in keys[..i]
          ensures key !in keys[1..][..i - 1]
        {
          assert keys[1..][..i - 1] == keys[..i][1..];
        }
      }
      c
  }

  /** The colour of a music-effect category on the scatter plot. */
  function ScatterColor(effect: string): Option<string>
  {
    Lookup(EffectDomain, EffectColors, effect)
  }

  /** The four listed categories get their four listed colours, and no other
      category is listed. */
  lemma ScatterColorTable()
    ensures ScatterColor("Improve") == Some("#4CAF50")
    ensures ScatterColor("No effect") == Some("#FFC107")
    ensures ScatterColor("Worsen") == Some("#F44336")
    ensures ScatterColor("Unknown") == Some("#B0BEC5")
    ensures forall e :: ScatterColor(e).Some? <==> e in EffectDomain
  {
  }

  /** The legend shows exactly the first three categories, leaving out
      "Unknown" although it has a colour, and each legend entry has a colour. */
  lemma ScatterLegendSpec()
    ensures ScatterLegend == EffectDomain[..3]
    ensures "Unknown" !in ScatterLegend && ScatterColor("Unknown").Some?
    ensures forall e :: e in ScatterLegend ==> ScatterColor(e).Some?
  {
  }
}
