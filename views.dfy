/** The three views derived from the normalised rows: scatter points, donut
    counts per streaming service, and parallel-coordinates lines with their
    200-line sample (Homework3/nigomez/main.js:42-71, 416-417;
    Homework2/nigomez/main.js:41-67, 305-306). */
module Views {
  import opened Wrappers
  import opened Seqs
  import opened Survey

  // ---------------------------------------------------------------- scatter

  predicate HasScatterFields(r: Record)
  {
    r.hoursPerDay.Some? && r.anxiety.Some?
  }

  /** `rawData.filter(d => !isNaN(d["Hours per day"]) && !isNaN(d.Anxiety))` */
  function ScatterView(rs: seq<Record>): seq<Record>
  {
    Filter(rs, HasScatterFields)
  }

  /** The scatter view is exactly the rows with hours and anxiety present, in
      their original order, each as often as it occurs, values unchanged. */
  lemma ScatterViewSpec(rs: seq<Record>)
    ensures forall r :: r in ScatterView(rs) <==> r in rs && HasScatterFields(r)
    ensures forall r :: multiset(ScatterView(rs))[r] == if HasScatterFields(r) then multiset(rs)[r] else 0
    ensures IsSubsequence(ScatterView(rs), rs)
  {
    forall r
      ensures r in ScatterView(rs) <==> r in rs && HasScatterFields(r)
      ensures multiset(ScatterView(rs))[r] == if HasScatterFields(r) then multiset(rs)[r] else 0
    {
      FilterMembership(rs, HasScatterFields, r);
      FilterMultiset(rs, HasScatterFields, r);
    }
    FilterIsSubsequence(rs, HasScatterFields);
  }

  // ------------------------------------------------------------------ donut

  /** `{ service, count }` */
  datatype ServiceCount = ServiceCount(service: string, count: nat)

  function Keys(t: seq<ServiceCount>): (ks: seq<string>)
    ensures |ks| == |t| && forall i :: 0 <= i < |t| ==> ks[i] == t[i].service
  {
    seq(|t|, i requires 0 <= i < |t| => t[i].service)
  }

  function TotalCount(t: seq<ServiceCount>): nat
  {
    if t == [] then 0 else t[0].count + TotalCount(t[1..])
  }

  /** Adds one row with key `k` to the groups: the group of `k` grows by one,
      or a new group of one is appended after all existing ones. */
  function Bump(t: seq<ServiceCount>, k: string): seq<ServiceCount>
  {
    if t == [] then [ServiceCount(k, 1)]
    else if t[0].service == k then [t[0].(count := t[0].count + 1)] + t[1..]
    else [t[0]] + Bump(t[1..], k)
  }

  /** Group-by-count over `keys`, groups in order of first appearance: what
      `d3.rollup(rows, v => v.length, key)` (an insertion-ordered map) and
      `d3.nest().key(key).rollup(v => v.length).entries(rows)` both yield. */
  function Tally(keys: seq<string>): seq<ServiceCount>
  {
    if keys == [] then [] else Bump(Tally(keys[..|keys| - 1]), keys[|keys| - 1])
  }

  function Services(rs: seq<Record>): (ks: seq<string>)
    ensures |ks| == |rs| && forall i :: 0 <= i < |rs| ==> ks[i] == rs[i].primaryStreamingService
  {
    seq(|rs|, i requires 0 <= i < |rs| => rs[i].primaryStreamingService)
  }

  /** `streamServiceCounts` */
  function DonutView(rs: seq<Record>): seq<ServiceCount>
  {
    Tally(Services(rs))
  }

  lemma {:induction false} BumpKeys(t: seq<ServiceCount>, k: string)
    ensures Keys(Bump(t, k)) == if k in Keys(t) then Keys(t) else Keys(t) + [k]
  {
    if t != [] {
      BumpKeys(t[1..], k);
      assert Keys(t) == [t[0].service] + Keys(t[1..]);
      if t[0].service == k {
        assert Keys(Bump(t, k)) == [k] + Keys(t[1..]);
      } else {
        assert Keys(Bump(t, k)) == [t[0].service] + Keys(Bump(t[1..], k));
      }
    }
  }

  lemma {:induction false} BumpTotal(t: seq<ServiceCount>, k: string)
    ensures TotalCount(Bump(t, k)) == TotalCount(t) + 1
  {
    if t != [] && t[0].service != k {
      BumpTotal(t[1..], k);
      assert Bump(t, k)[1..] == Bump(t[1..], k);
    }
  }

  /** With distinct keys, a bump adds one to the group of `k` and to no other. */
  lemma {:induction false} BumpCounts(t: seq<ServiceCount>, k: string)
    requires NoDuplicates(Keys(t))
    ensures |Bump(t, k)| == if k in Keys(t) then |t| else |t| + 1
    ensures forall i :: 0 <= i < |t| ==>
              Bump(t, k)[i] == t[i].(count := t[i].count + if t[i].service == k then 1 else 0)
    ensures k !in Keys(t) ==> Bump(t, k)[|t|] == ServiceCount(k, 1)
  {
    BumpKeys(t, k);
    if t != [] {
      assert Keys(t[1..]) == Keys(t)[1..];
      BumpCounts(t[1..], k);
      if t[0].service == k {
        forall i | 1 <= i < |t|
          ensures t[i].service != k
        {
          assert Keys(t)[0] == k && Keys(t)[i] == t[i].service;
        }
      }
    }
  }

  /** The donut groups list each distinct service once, in order of first appearance. */
  lemma {:induction false} TallyKeys(keys: seq<string>)
    ensures Keys(Tally(keys)) == Distinct(keys)
  {
    if keys != [] {
      TallyKeys(keys[..|keys| - 1]);
      BumpKeys(Tally(keys[..|keys| - 1]), keys[|keys| - 1]);
    }
  }

  /** The counts add up to the number of rows grouped. */
  lemma {:induction false} TallyTotal(keys: seq<string>)
    ensures TotalCount(Tally(keys)) == |keys|
  {
    if keys != [] {
      TallyTotal(keys[..|keys| - 1]);
      BumpTotal(Tally(keys[..|keys| - 1]), keys[|keys| - 1]);
    }
  }

  /** `t` groups `keys`: one group per distinct key, counting its occurrences. */
  ghost predicate Groups(t: seq<ServiceCount>, keys: seq<string>)
  {
    NoDuplicates(Keys(t)) &&
    (forall k :: k in Keys(t) <==> k in keys) &&
    (forall i :: 0 <= i < |t| ==> t[i].count == multiset(keys)[t[i].service] >= 1)
  }

  /** Bumping `k` turns a grouping of `keys` into a grouping of `keys + [k]`. */
  lemma BumpGroups(t: seq<ServiceCount>, keys: seq<string>, k: string)
    requires Groups(t, keys)
    ensures Groups(Bump(t, k), keys + [k])
  {
    BumpKeys(t, k);
    BumpCounts(t, k);
    var t' := Bump(t, k);
    assert multiset(keys + [k]) == multiset(keys) + multiset{k};
    forall i | 0 <= i < |t'|
      ensures t'[i].count == multiset(keys + [k])[t'[i].service] >= 1
    {
      if i < |t| {
        assert Keys(t)[i] == t[i].service;
      } else {
        assert k !in keys;
      }
    }
    assert forall x :: x in Keys(t') <==> x in keys + [k];
    if k !in Keys(t) {
      forall i, j | 0 <= i < j < |t'|
        ensures Keys(t')[i] != Keys(t')[j]
      {
        if j == |t| {
          assert Keys(t')[i] == Keys(t)[i];
        }
      }
    }
  }

  /** Each group counts the rows with its key, hence at least one. */
  lemma {:induction false} TallyCounts(keys: seq<string>)
    ensures Groups(Tally(keys), keys)
  {
    if keys != [] {
      var init, last := keys[..|keys| - 1], keys[|keys| - 1];
      assert keys == init + [last];
      TallyCounts(init);
      BumpGroups(Tally(init), init, last);
    }
  }

  /** The donut view, stated on the rows: one group per distinct service in
      first-seen order, counting the rows with that service; counts sum to the
      number of rows. */
  lemma DonutViewSpec(rs: seq<Record>)
    ensures Keys(DonutView(rs)) == Distinct(Services(rs))
    ensures forall s :: s in Keys(DonutView(rs)) <==> exists r :: r in rs && r.primaryStreamingService == s
    ensures forall i :: 0 <= i < |DonutView(rs)| ==>
              DonutView(rs)[i].count == multiset(Services(rs))[DonutView(rs)[i].service] >= 1
    ensures TotalCount(DonutView(rs)) == |rs|
  {
    TallyKeys(Services(rs));
    TallyTotal(Services(rs));
    TallyCounts(Services(rs));
    DistinctSpec(Services(rs));
    forall s
      ensures s in Services(rs) <==> exists r :: r in rs && r.primaryStreamingService == s
    {
      if s in Services(rs) {
        var i :| 0 <= i < |rs| && Services(rs)[i] == s;
        assert rs[i] in rs;
      }
    }
  }

  // --------------------------------------------------------------- parallel

  /** The projected line of the parallel-coordinates plot. */
  datatype ParallelRecord = ParallelRecord(
    anxiety: real, depression: real, insomnia: real, ocd: real, hoursPerDay: real,
    musicEffects: string, favGenre: string)

  /** The five axes, in their drawing order. */
  datatype Dim = Anxiety | Depression | Insomnia | Ocd | HoursPerDay

  const Dimensions: seq<Dim> := [Anxiety, Depression, Insomnia, Ocd, HoursPerDay]

  /** `d[dim]` */
  function ValueOn(p: ParallelRecord, dim: Dim): real
  {
    match dim
    case Anxiety => p.anxiety
    case Depression => p.depression
    case Insomnia => p.insomnia
    case Ocd => p.ocd
    case HoursPerDay => p.hoursPerDay
  }

  predicate HasAllDimensions(r: Record)
  {
    r.anxiety.Some? && r.depression.Some? && r.insomnia.Some? && r.ocd.Some? && r.hoursPerDay.Some?
  }

  /** The `.map(d => ({ ... }))` that copies the seven fields. */
  function Project(r: Record): ParallelRecord
    requires HasAllDimensions(r)
  {
    ParallelRecord(r.anxiety.value, r.depression.value, r.insomnia.value, r.ocd.value,
                   r.hoursPerDay.value, r.musicEffects, r.favGenre)
  }

  /** `parallelData`: the rows with all five dimensions present, projected. */
  function ParallelView(rs: seq<Record>): (v: seq<ParallelRecord>)
    ensures |v| == |Filter(rs, HasAllDimensions)|
  {
    var kept := Filter(rs, HasAllDimensions);
    seq(|kept|, i requires 0 <= i < |kept| => Project(kept[i]))
  }

  /** A line is in the parallel view exactly when it is the projection of a row
      with all five dimensions present; the view keeps those rows' order. */
  lemma ParallelViewSpec(rs: seq<Record>)
    ensures forall p :: p in ParallelView(rs) <==>
              exists r :: r in rs && HasAllDimensions(r) && Project(r) == p
    ensures IsSubsequence(Filter(rs, HasAllDimensions), rs)
    ensures forall i :: 0 <= i < |ParallelView(rs)| ==>
              var r := Filter(rs, HasAllDimensions)[i];
              HasAllDimensions(r) &&
              ParallelView(rs)[i].anxiety == r.anxiety.value &&
              ParallelView(rs)[i].depression == r.depression.value &&
              ParallelView(rs)[i].insomnia == r.insomnia.value &&
              ParallelView(rs)[i].ocd == r.ocd.value &&
              ParallelView(rs)[i].hoursPerDay == r.hoursPerDay.value &&
              ParallelView(rs)[i].musicEffects == r.musicEffects &&
              ParallelView(rs)[i].favGenre == r.favGenre
  {
    var kept := Filter(rs, HasAllDimensions);
    FilterIsSubsequence(rs, HasAllDimensions);
    forall p
      ensures p in ParallelView(rs) <==> exists r :: r in rs && HasAllDimensions(r) && Project(r) == p
    {
      if p in ParallelView(rs) {
        var i :| 0 <= i < |kept| && ParallelView(rs)[i] == p;
        assert kept[i] in kept;
      }
      if exists r :: r in rs && HasAllDimensions(r) && Project(r) == p {
        var r :| r in rs && HasAllDimensions(r) && Project(r) == p;
        FilterMembership(rs, HasAllDimensions, r);
        var i :| 0 <= i < |kept| && kept[i] == r;
        assert ParallelView(rs)[i] == p;
      }
    }
  }

  // --------------------------------------------------------------- sampling

  const SampleSize: nat := 200

  /** Homework3: `parallelData.slice(0, sampleSize)`. */
  function FirstSample(view: seq<ParallelRecord>): (s: seq<ParallelRecord>)
    ensures |s| == Min(|view|, SampleSize)
    ensures forall i :: 0 <= i < |s| ==> s[i] == view[i]
  {
    view[..Min(|view|, SampleSize)]
  }

  /** `Math.random() * m | 0` for a draw `r` in [0, 1): an index below `m`. */
  function DrawIndex(r: real, m: nat): (i: nat)
    requires 0.0 <= r < 1.0 && 0 < m
    ensures i < m
  {
    var x := r * m as real;
    assert 0.0 <= x < m as real;
    x.Floor
  }

  /** `d3.shuffle(array)`: a Fisher-Yates shuffle in place; `draws` are the
      successive `Math.random()` results, one per position. */
  method Shuffle<T>(a: array<T>, draws: seq<real>)
    requires |draws| >= a.Length
    requires forall k :: 0 <= k < |draws| ==> 0.0 <= draws[k] < 1.0
    modifies a
    ensures multiset(a[..]) == multiset(old(a[..]))
  {
    var m := a.Length;
    while m > 0
      invariant 0 <= m <= a.Length
      invariant multiset(a[..]) == multiset(old(a[..]))
    {
      var i := DrawIndex(draws[a.Length - m], m);
      m := m - 1;
      a[m], a[i] := a[i], a[m];
    }
  }

  /** Homework2: `d3.shuffle(parallelData).slice(0, sampleSize)`. The sample has
      min(n, 200) lines and is a prefix of a permutation of the view, so no
      line occurs in it more often than in the view. */
  method ShuffledSample(view: seq<ParallelRecord>, draws: seq<real>) returns (sample: seq<ParallelRecord>)
    requires |draws| >= |view|
    requires forall k :: 0 <= k < |draws| ==> 0.0 <= draws[k] < 1.0
    ensures |sample| == Min(|view|, SampleSize)
    ensures multiset(sample) <= multiset(view)
  {
    var a := new ParallelRecord[|view|](i requires 0 <= i < |view| => view[i]);
    assert a[..] == view;
    Shuffle(a, draws);
    sample := a[..Min(a.Length, SampleSize)];
    PrefixMultiset(a[..], Min(a.Length, SampleSize));
    assert a[..][..Min(a.Length, SampleSize)] == sample;
  }
}
