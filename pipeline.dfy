/** What each homework derives once the CSV has loaded: normalise the rows in
    place, then the three views, the hours axis's domain and the line sample.
    The two variants differ only in how the sample is drawn. */
module Pipeline {
  import opened Wrappers
  import opened Seqs
  import opened Survey
  import opened Views
  import opened Scales

  datatype Derived = Derived(
    scatter: seq<Record>,
    donut: seq<ServiceCount>,
    parallel: seq<ParallelRecord>,
    hoursDomain: Domain,
    sample: seq<ParallelRecord>)

  /** Homework3/nigomez/main.js: the first 200 lines are drawn. */
  method LoadHomework3(rows: array<Row>, parse: string -> Option<real>) returns (out: Derived)
    requires forall i :: 0 <= i < rows.Length ==> IsRaw(rows[i])
    modifies rows
    ensures forall i :: 0 <= i < rows.Length ==>
              rows[i] == NormalizeRow(old(rows[i]), parse) && IsNormalized(rows[i])
    ensures var recs := Records(rows[..]);
      out.scatter == ScatterView(recs) &&
      out.donut == DonutView(recs) &&
      out.parallel == ParallelView(recs) &&
      out.hoursDomain == YDomain(HoursPerDay, out.parallel) &&
      out.sample == FirstSample(out.parallel)
  {
    NormalizeRows(rows, parse);
    var recs := Records(rows[..]);
    var parallel := ParallelView(recs);
    out := Derived(ScatterView(recs), DonutView(recs), parallel,
                   YDomain(HoursPerDay, parallel), FirstSample(parallel));
  }

  /** Homework2/nigomez/main.js: 200 lines of a shuffle are drawn; `draws` are
      the random numbers the shuffle consumes. */
  method LoadHomework2(rows: array<Row>, parse: string -> Option<real>, draws: seq<real>) returns (out: Derived)
    requires forall i :: 0 <= i < rows.Length ==> IsRaw(rows[i])
    requires |draws| >= rows.Length
    requires forall k :: 0 <= k < |draws| ==> 0.0 <= draws[k] < 1.0
    modifies rows
    ensures forall i :: 0 <= i < rows.Length ==>
              rows[i] == NormalizeRow(old(rows[i]), parse) && IsNormalized(rows[i])
    ensures var recs := Records(rows[..]);
      out.scatter == ScatterView(recs) &&
      out.donut == DonutView(recs) &&
      out.parallel == ParallelView(recs) &&
      out.hoursDomain == YDomain(HoursPerDay, out.parallel)
    ensures |out.sample| == Min(|out.parallel|, SampleSize)
    ensures multiset(out.sample) <= multiset(out.parallel)
  {
    NormalizeRows(rows, parse);
    var recs := Records(rows[..]);
    var parallel := ParallelView(recs);
    var hoursDomain := YDomain(HoursPerDay, parallel);
    var sample := ShuffledSample(parallel, draws);
    out := Derived(ScatterView(recs), DonutView(recs), parallel, hoursDomain, sample);
  }
}
