// Counters and durations with bounded label cardinality
// (backend/app/observability/metrics.py, with the attribute rule of
// backend/app/observability/spans.py).
module Metrics {
  import opened Lists
  import opened Text
  import opened Wrappers

  const MAX_ATTRIBUTE_LENGTH := 120
  const OMITTED := "<omitted>"

  // -- labels -------------------------------------------------------------

  // A label value: a string, a scalar as `str` renders it, or anything with structure.
  datatype LabelValue = Token(text: string) | Scalar(rendered: string) | Structured

  function Sanitised(value: LabelValue): string {
    match value
    case Scalar(rendered) => rendered
    case Token(text) => if |text| > MAX_ATTRIBUTE_LENGTH || !NoSpace(text) then OMITTED else text
    case Structured => OMITTED
  }

  predicate IsToken(text: string) {
    |text| <= MAX_ATTRIBUTE_LENGTH && NoSpace(text)
  }

  // No label carries prose: a scalar is rendered, of a string a short token is kept as it is,
  // and everything else reads the same.
  lemma LabelsAreTokens(value: LabelValue)
    ensures !value.Scalar? ==> IsToken(Sanitised(value))
    ensures value.Scalar? ==> Sanitised(value) == value.rendered
    ensures value.Token? ==> (IsToken(value.text) <==> Sanitised(value) == value.text)
    ensures !value.Scalar? && !(value.Token? && IsToken(value.text)) ==> Sanitised(value) == OMITTED
  {
    assert OMITTED == ['<', 'o', 'm', 'i', 't', 't', 'e', 'd', '>'];
  }

  predicate TextLe(a: string, b: string) {
    a == "" || (b != "" && (a[0] < b[0] || (a[0] == b[0] && TextLe(a[1..], b[1..]))))
  }

  // The order of texts: by the first character in which they differ, or by length.
  lemma {:induction false} TextLeIsLexicographic(a: string, b: string, n: nat)
    requires n <= |a| && n <= |b| && a[..n] == b[..n]
    ensures n == |a| ==> TextLe(a, b)
    ensures n < |a| && n < |b| && a[n] != b[n] ==> (TextLe(a, b) <==> a[n] < b[n])
    decreases n
  {
    if n > 0 {
      assert a[0] == a[..n][0] && b[0] == b[..n][0];
      assert a[1..][..n - 1] == a[..n][1..] && b[1..][..n - 1] == b[..n][1..];
      TextLeIsLexicographic(a[1..], b[1..], n - 1);
    }
  }

  type Pair = (string, string)

  predicate PairLe(p: Pair, q: Pair) {
    if p.0 == q.0 then TextLe(p.1, q.1) else TextLe(p.0, q.0)
  }

  lemma {:induction false} TextOrder(a: string, b: string, c: string)
    ensures TextLe(a, b) || TextLe(b, a)
    ensures TextLe(a, b) && TextLe(b, a) ==> a == b
    ensures TextLe(a, b) && TextLe(b, c) ==> TextLe(a, c)
    decreases |a| + |b| + |c|
  {
    if a != "" && b != "" {
      TextOrder(a[1..], b[1..], if c == "" then "" else c[1..]);
      assert a == [a[0]] + a[1..] && b == [b[0]] + b[1..];
    }
  }

  lemma PairOrder(p: Pair, q: Pair, r: Pair)
    ensures PairLe(p, q) || PairLe(q, p)
    ensures PairLe(p, q) && PairLe(q, p) ==> p == q
    ensures PairLe(p, q) && PairLe(q, r) ==> PairLe(p, r)
  {
    TextOrder(p.0, q.0, r.0);
    TextOrder(p.1, q.1, r.1);
    TextOrder(q.0, r.0, p.0);
    TextOrder(r.0, p.0, q.0);
  }

  function Insert(p: Pair, ps: seq<Pair>): seq<Pair> {
    if ps == [] || PairLe(p, ps[0]) then [p] + ps else [ps[0]] + Insert(p, ps[1..])
  }

  function Sorted(ps: seq<Pair>): seq<Pair> {
    if ps == [] then [] else Insert(ps[0], Sorted(ps[1..]))
  }

  ghost predicate InOrder(ps: seq<Pair>) {
    forall i, j :: 0 <= i < j < |ps| ==> PairLe(ps[i], ps[j])
  }

  lemma {:induction false} InsertIsSorted(p: Pair, ps: seq<Pair>)
    requires InOrder(ps)
    ensures InOrder(Insert(p, ps)) && multiset(Insert(p, ps)) == multiset(ps) + multiset{p}
  {
    if ps == [] {
    } else if PairLe(p, ps[0]) {
      forall j | 0 <= j < |ps|
        ensures PairLe(p, ps[j])
      {
        if j > 0 {
          PairOrder(p, ps[0], ps[j]);
        }
      }
    } else {
      var rest := Insert(p, ps[1..]);
      InsertIsSorted(p, ps[1..]);
      assert ps == [ps[0]] + ps[1..];
      PairOrder(p, ps[0], ps[0]);
      forall j | 0 <= j < |rest|
        ensures PairLe(ps[0], rest[j])
      {
        assert rest[j] in multiset(rest);
        assert rest[j] in ps[1..] || rest[j] == p;
      }
    }
  }

  lemma {:induction false} SortedIsSorted(ps: seq<Pair>)
    ensures InOrder(Sorted(ps)) && multiset(Sorted(ps)) == multiset(ps)
  {
    if ps != [] {
      SortedIsSorted(ps[1..]);
      InsertIsSorted(ps[0], Sorted(ps[1..]));
      assert ps == [ps[0]] + ps[1..];
    }
  }

  lemma SameFirst(a: seq<Pair>, b: seq<Pair>)
    requires InOrder(a) && InOrder(b) && multiset(a) == multiset(b) && a != []
    ensures b != [] && a[0] == b[0]
  {
    assert a[0] in multiset(a) && a[0] in multiset(b);
    assert b[0] in multiset(b) && b[0] in multiset(a);
    FirstIsLeast(a, b[0]);
    FirstIsLeast(b, a[0]);
    PairOrder(a[0], b[0], a[0]);
  }

  lemma SameTails<T>(a: seq<T>, b: seq<T>)
    requires multiset(a) == multiset(b) && a != [] && b != [] && a[0] == b[0]
    ensures multiset(a[1..]) == multiset(b[1..])
  {
    Without(a, 0);
    Without(b, 0);
  }

  lemma {:induction false} OneOrder(a: seq<Pair>, b: seq<Pair>)
    requires InOrder(a) && InOrder(b) && multiset(a) == multiset(b)
    ensures a == b
  {
    if a == [] {
      assert |multiset(b)| == 0;
    } else {
      SameFirst(a, b);
      SameTails(a, b);
      OneOrder(a[1..], b[1..]);
      assert a == [a[0]] + a[1..] && b == [b[0]] + b[1..];
    }
  }

  lemma FirstIsLeast(ps: seq<Pair>, p: Pair)
    requires InOrder(ps) && p in ps
    ensures PairLe(ps[0], p)
  {
    PairOrder(p, p, p);
  }

  // `_labels`: sanitised, then sorted into a key.
  function LabelPairs(labels: seq<(string, LabelValue)>): seq<Pair> {
    if labels == [] then [] else [(labels[0].0, Sanitised(labels[0].1))] + LabelPairs(labels[1..])
  }

  function LabelKey(labels: seq<(string, LabelValue)>): seq<Pair> {
    Sorted(LabelPairs(labels))
  }

  lemma {:induction false} PairsWithout(b: seq<(string, LabelValue)>, i: nat)
    requires i < |b|
    ensures multiset(LabelPairs(b)) ==
            multiset(LabelPairs(b[..i] + b[i + 1..])) + multiset{(b[i].0, Sanitised(b[i].1))}
  {
    var rest := b[..i] + b[i + 1..];
    if i == 0 {
      assert rest == b[1..];
    } else {
      PairsWithout(b[1..], i - 1);
      assert rest[1..] == b[1..][..i - 1] + b[1..][i..];
    }
  }

  lemma {:induction false} PairsOfPermutation(a: seq<(string, LabelValue)>, b: seq<(string, LabelValue)>)
    requires multiset(a) == multiset(b)
    ensures multiset(LabelPairs(a)) == multiset(LabelPairs(b))
  {
    if a == [] {
      assert |multiset(b)| == 0;
    } else {
      assert a[0] in multiset(b);
      var i :| 0 <= i < |b| && b[i] == a[0];
      var rest := b[..i] + b[i + 1..];
      Without(b, i);
      Without(a, 0);
      PairsOfPermutation(a[1..], rest);
      PairsWithout(b, i);
      PairsWithout(a, 0);
    }
  }

  // The same labels in any order name the same series.
  lemma LabelOrderIsIrrelevant(a: seq<(string, LabelValue)>, b: seq<(string, LabelValue)>)
    requires multiset(a) == multiset(b)
    ensures LabelKey(a) == LabelKey(b)
  {
    PairsOfPermutation(a, b);
    SortedIsSorted(LabelPairs(a));
    SortedIsSorted(LabelPairs(b));
    OneOrder(LabelKey(a), LabelKey(b));
  }

  // The label has this name, and its value is rendered as this text.
  predicate Renders(given: (string, LabelValue), p: Pair) {
    given.0 == p.0 && Sanitised(given.1) == p.1
  }

  // How many of the labels read as this pair.
  function Bearers(labels: seq<(string, LabelValue)>, p: Pair): nat {
    if labels == [] then 0 else (if Renders(labels[0], p) then 1 else 0) + Bearers(labels[1..], p)
  }

  lemma {:induction false} PairsAreBearers(labels: seq<(string, LabelValue)>, p: Pair)
    ensures multiset(LabelPairs(labels))[p] == Bearers(labels, p)
  {
    if labels != [] {
      PairsAreBearers(labels[1..], p);
      assert LabelPairs(labels) == [(labels[0].0, Sanitised(labels[0].1))] + LabelPairs(labels[1..]);
    }
  }

  // A series' key holds every label's pair, as often as the labels do, and nothing else.
  lemma KeyHoldsTheLabels(labels: seq<(string, LabelValue)>, p: Pair)
    ensures multiset(LabelKey(labels))[p] == Bearers(labels, p)
    ensures InOrder(LabelKey(labels))
  {
    SortedIsSorted(LabelPairs(labels));
    PairsAreBearers(labels, p);
  }

  // The same pairs, each read off as many labels.
  ghost predicate ReadAlike(a: seq<(string, LabelValue)>, b: seq<(string, LabelValue)>) {
    forall p: Pair :: Bearers(a, p) == Bearers(b, p)
  }

  // Two lists of labels name the same series exactly if they read alike.
  lemma SameSeriesExactly(a: seq<(string, LabelValue)>, b: seq<(string, LabelValue)>)
    ensures LabelKey(a) == LabelKey(b) <==> ReadAlike(a, b)
  {
    SortedIsSorted(LabelPairs(a));
    SortedIsSorted(LabelPairs(b));
    forall p: Pair
      ensures multiset(LabelKey(a))[p] == Bearers(a, p) && multiset(LabelKey(b))[p] == Bearers(b, p)
    {
      KeyHoldsTheLabels(a, p);
      KeyHoldsTheLabels(b, p);
    }
    if ReadAlike(a, b) {
      assert multiset(LabelKey(a)) == multiset(LabelKey(b));
      OneOrder(LabelKey(a), LabelKey(b));
    } else {
      var p: Pair :| Bearers(a, p) != Bearers(b, p);
      assert multiset(LabelKey(a))[p] != multiset(LabelKey(b))[p];
    }
  }

  // -- the store ------------------------------------------------------------

  type Series = (string, seq<Pair>)

  // Every recording of a run, oldest first, with the series it named.
  type History<V> = seq<(Series, V)>

  // The series of one metric that a run has named, in order of first appearance.
  ghost function Named<V>(history: History<V>, metric: string): seq<Series> {
    if history == [] then []
    else
      var before := Named(history[..|history| - 1], metric);
      var key := history[|history| - 1].0;
      if key.0 == metric && key !in before then before + [key] else before
  }

  // The ones a store with a cap tracks: the first `cap` of them.
  ghost function Tracked<V>(history: History<V>, metric: string, cap: int): seq<Series> {
    FirstOf(Named(history, metric), cap)
  }

  ghost function FirstOf(all: seq<Series>, cap: int): seq<Series> {
    if cap <= 0 then [] else if |all| <= cap then all else all[..cap]
  }

  // All increments a run made to one series, whether or not they were kept.
  ghost function SumOf(history: History<int>, key: Series): int {
    if history == [] then 0
    else
      var last := history[|history| - 1];
      SumOf(history[..|history| - 1], key) + if last.0 == key then last.1 else 0
  }

  // All durations a run gave for one series, in order.
  ghost function DurationsOf(history: History<real>, key: Series): seq<real> {
    if history == [] then []
    else
      var last := history[|history| - 1];
      DurationsOf(history[..|history| - 1], key) + if last.0 == key then [last.1] else []
  }

  ghost predicate Occurs<V>(history: History<V>, key: Series) {
    exists i :: 0 <= i < |history| && history[i].0 == key
  }

  lemma OccursLater<V>(history: History<V>, key: Series)
    requires history != []
    ensures Occurs(history, key) <==>
            Occurs(history[..|history| - 1], key) || history[|history| - 1].0 == key
  {
    var before := history[..|history| - 1];
    if Occurs(before, key) {
      var i :| 0 <= i < |before| && before[i].0 == key;
      assert history[i].0 == key;
    }
    if Occurs(history, key) && history[|history| - 1].0 != key {
      var i :| 0 <= i < |history| && history[i].0 == key;
      assert before[i].0 == key;
    }
  }

  lemma {:induction false} NamedIsExact<V>(history: History<V>, metric: string, key: Series)
    ensures NoRepeats(Named(history, metric))
    ensures key in Named(history, metric) <==> key.0 == metric && Occurs(history, key)
  {
    if history != [] {
      NamedIsExact(history[..|history| - 1], metric, key);
      OccursLater(history, key);
    }
  }

  // A store tracks exactly the first series of every metric.
  ghost predicate TracksFirst<V>(keys: set<Series>, history: History<V>, cap: int) {
    forall key :: key in keys <==> key in Tracked(history, key.0, cap)
  }

  // The number `_key` compares with the cap.
  function SeriesOf(keys: set<Series>, metric: string): set<Series> {
    set key | key in keys && key.0 == metric
  }

  lemma CountOfTracked<V>(keys: set<Series>, history: History<V>, cap: int, metric: string)
    requires TracksFirst(keys, history, cap)
    ensures |SeriesOf(keys, metric)| == |Tracked(history, metric, cap)|
    ensures cap >= 0 ==> |SeriesOf(keys, metric)| <= cap
  {
    var tracked := Tracked(history, metric, cap);
    forall key
      ensures key in tracked ==> key.0 == metric
    {
      NamedIsExact(history, metric, key);
    }
    NamedIsExact(history, metric, (metric, []));
    assert SeriesOf(keys, metric) == set key | key in tracked;
    SizeOfDistinct(tracked);
  }

  // Whether `_key` accepts a series: it is tracked already, or there is room.
  predicate Admits(keys: set<Series>, cap: int, key: Series) {
    key in keys || |SeriesOf(keys, key.0)| < cap
  }

  // Accepting a new series, or refusing it, keeps exactly the first of every metric; and a
  // series is accepted for the first time only if the run never named it before.
  lemma Admission<V>(keys: set<Series>, history: History<V>, cap: int, key: Series, value: V)
    requires TracksFirst(keys, history, cap)
    ensures TracksFirst(if Admits(keys, cap, key) then keys + {key} else keys, history + [(key, value)], cap)
    ensures Admits(keys, cap, key) && key !in keys ==> forall i :: 0 <= i < |history| ==> history[i].0 != key
  {
    var after := if Admits(keys, cap, key) then keys + {key} else keys;
    var longer := history + [(key, value)];
    assert longer[..|longer| - 1] == history;
    CountOfTracked(keys, history, cap, key.0);
    NamedIsExact(history, key.0, key);
    forall k
      ensures k in after <==> k in Tracked(longer, k.0, cap)
    {
      assert k in keys <==> k in Tracked(history, k.0, cap);
      if k.0 == key.0 {
        TrackedAfter(Named(history, key.0), cap, key, k);
      } else {
        assert Named(longer, k.0) == Named(history, k.0);
      }
    }
  }

  lemma TrackedAfter(all: seq<Series>, cap: int, key: Series, k: Series)
    ensures k in FirstOf(if key in all then all else all + [key], cap) <==>
            k in FirstOf(all, cap) || (k == key && key !in all && |all| < cap)
  {
  }

  lemma {:induction false} NeverNamedSums(history: History<int>, key: Series)
    requires forall i :: 0 <= i < |history| ==> history[i].0 != key
    ensures SumOf(history, key) == 0
  {
    if history != [] {
      NeverNamedSums(history[..|history| - 1], key);
    }
  }

  lemma {:induction false} NeverNamedDurations(history: History<real>, key: Series)
    requires forall i :: 0 <= i < |history| ==> history[i].0 != key
    ensures DurationsOf(history, key) == []
  {
    if history != [] {
      NeverNamedDurations(history[..|history| - 1], key);
    }
  }

  ghost predicate CountsAll(counters: map<Series, int>, increments: History<int>, cap: int) {
    && TracksFirst(counters.Keys, increments, cap)
    && (forall key :: key in counters ==> counters[key] == SumOf(increments, key))
  }

  ghost predicate KeepsAll(durations: map<Series, seq<real>>, observed: History<real>, cap: int) {
    && TracksFirst(durations.Keys, observed, cap)
    && (forall key :: key in durations ==> durations[key] == DurationsOf(observed, key))
  }

  function Added(counters: map<Series, int>, key: Series, amount: int): map<Series, int> {
    counters[key := (if key in counters then counters[key] else 0) + amount]
  }

  function Appended(durations: map<Series, seq<real>>, key: Series, time: real): map<Series, seq<real>> {
    durations[key := (if key in durations then durations[key] else []) + [time]]
  }

  lemma AddedIsCounted(counters: map<Series, int>, increments: History<int>, key: Series, amount: int)
    requires forall k :: k in counters ==> counters[k] == SumOf(increments, k)
    requires key !in counters ==> SumOf(increments, key) == 0
    ensures forall k :: k in Added(counters, key, amount) ==>
              Added(counters, key, amount)[k] == SumOf(increments + [(key, amount)], k)
  {
    forall k | k in Added(counters, key, amount)
      ensures Added(counters, key, amount)[k] == SumOf(increments + [(key, amount)], k)
    {
      SumOfLonger(increments, key, amount, k);
    }
  }

  lemma RefusedIsUncounted(counters: map<Series, int>, increments: History<int>, key: Series, amount: int)
    requires key !in counters && forall k :: k in counters ==> counters[k] == SumOf(increments, k)
    ensures forall k :: k in counters ==> counters[k] == SumOf(increments + [(key, amount)], k)
  {
    forall k | k in counters
      ensures counters[k] == SumOf(increments + [(key, amount)], k)
    {
      SumOfLonger(increments, key, amount, k);
    }
  }

  lemma Counted(counters: map<Series, int>, increments: History<int>, cap: int, key: Series, amount: int)
    requires CountsAll(counters, increments, cap)
    ensures CountsAll(
              if Admits(counters.Keys, cap, key)
              then Added(counters, key, amount) else counters,
              increments + [(key, amount)], cap)
  {
    Admission(counters.Keys, increments, cap, key, amount);
    if Admits(counters.Keys, cap, key) {
      assert Added(counters, key, amount).Keys == counters.Keys + {key};
      if key !in counters {
        NeverNamedSums(increments, key);
      }
      AddedIsCounted(counters, increments, key, amount);
    } else {
      RefusedIsUncounted(counters, increments, key, amount);
    }
  }

  lemma SumOfLonger(increments: History<int>, key: Series, amount: int, k: Series)
    ensures SumOf(increments + [(key, amount)], k) == SumOf(increments, k) + if k == key then amount else 0
  {
    assert (increments + [(key, amount)])[..|increments|] == increments;
  }

  // An increment adds to the counter of the labels that read alike, and to no other of its metric.
  lemma CountsItsOwnLabels(
    increments: History<int>, metric: string, a: seq<(string, LabelValue)>, b: seq<(string, LabelValue)>, n: int)
    ensures SumOf(increments + [((metric, LabelKey(b)), n)], (metric, LabelKey(a))) ==
            SumOf(increments, (metric, LabelKey(a))) + if ReadAlike(a, b) then n else 0
  {
    SumOfLonger(increments, (metric, LabelKey(b)), n, (metric, LabelKey(a)));
    SameSeriesExactly(a, b);
  }

  lemma DurationsOfLonger(observed: History<real>, key: Series, time: real, k: Series)
    ensures DurationsOf(observed + [(key, time)], k) == DurationsOf(observed, k) + if k == key then [time] else []
  {
    assert (observed + [(key, time)])[..|observed|] == observed;
  }

  lemma AppendedIsKept(durations: map<Series, seq<real>>, observed: History<real>, key: Series, time: real)
    requires forall k :: k in durations ==> durations[k] == DurationsOf(observed, k)
    requires key !in durations ==> DurationsOf(observed, key) == []
    ensures forall k :: k in Appended(durations, key, time) ==>
              Appended(durations, key, time)[k] == DurationsOf(observed + [(key, time)], k)
  {
    forall k | k in Appended(durations, key, time)
      ensures Appended(durations, key, time)[k] == DurationsOf(observed + [(key, time)], k)
    {
      DurationsOfLonger(observed, key, time, k);
    }
  }

  lemma RefusedIsUnkept(durations: map<Series, seq<real>>, observed: History<real>, key: Series, time: real)
    requires key !in durations && forall k :: k in durations ==> durations[k] == DurationsOf(observed, k)
    ensures forall k :: k in durations ==> durations[k] == DurationsOf(observed + [(key, time)], k)
  {
    forall k | k in durations
      ensures durations[k] == DurationsOf(observed + [(key, time)], k)
    {
      DurationsOfLonger(observed, key, time, k);
    }
  }

  lemma Kept(durations: map<Series, seq<real>>, observed: History<real>, cap: int, key: Series, time: real)
    requires KeepsAll(durations, observed, cap)
    ensures KeepsAll(
              if Admits(durations.Keys, cap, key)
              then Appended(durations, key, time) else durations,
              observed + [(key, time)], cap)
  {
    Admission(durations.Keys, observed, cap, key, time);
    if Admits(durations.Keys, cap, key) {
      assert Appended(durations, key, time).Keys == durations.Keys + {key};
      if key !in durations {
        NeverNamedDurations(observed, key);
      }
      AppendedIsKept(durations, observed, key, time);
    } else {
      RefusedIsUnkept(durations, observed, key, time);
    }
  }

  class InMemoryMetrics {
    const maxSeries: int
    var counters: map<Series, int>
    var durations: map<Series, seq<real>>
    var dropped: set<string>
    ghost var increments: History<int>
    ghost var observed: History<real>

    // Each series is all or nothing: it holds everything its run ever recorded for it, or
    // it is not tracked at all.
    ghost predicate Valid()
      reads this
    {
      && CountsAll(counters, increments, maxSeries)
      && KeepsAll(durations, observed, maxSeries)
    }

    constructor (maxSeries: int)
      ensures Valid() && this.maxSeries == maxSeries
      ensures increments == [] && observed == [] && counters == map[] && durations == map[]
    {
      this.maxSeries := maxSeries;
      counters := map[];
      durations := map[];
      dropped := {};
      increments := [];
      observed := [];
    }

    // `_key`: the series to record under, or nothing when the metric is full.
    method Key(metric: string, labels: seq<(string, LabelValue)>, keys: set<Series>)
      returns (key: Option<Series>)
      modifies this`dropped
      ensures var series := (metric, LabelKey(labels));
              key == if Admits(keys, maxSeries, series) then Some(series) else None
      ensures dropped == if key.None? then old(dropped) + {metric} else old(dropped)
    {
      var series := (metric, LabelKey(labels));
      if series in keys {
        return Some(series);
      }
      if |SeriesOf(keys, metric)| >= maxSeries {
        if metric !in dropped {
          dropped := dropped + {metric};
        }
        return None;
      }
      return Some(series);
    }

    method Increment(metric: string, labels: seq<(string, LabelValue)>, amount: int)
      requires Valid()
      modifies this
      ensures Valid()
      ensures increments == old(increments) + [((metric, LabelKey(labels)), amount)]
      ensures durations == old(durations) && observed == old(observed)
    {
      ghost var series := (metric, LabelKey(labels));
      Counted(counters, increments, maxSeries, series, amount);
      increments := increments + [(series, amount)];
      var key := Key(metric, labels, counters.Keys);
      if key.Some? {
        counters := Added(counters, key.value, amount);
      }
    }

    method Observe(metric: string, milliseconds: real, labels: seq<(string, LabelValue)>)
      requires Valid()
      modifies this
      ensures Valid()
      ensures observed == old(observed) + [((metric, LabelKey(labels)), milliseconds)]
      ensures counters == old(counters) && increments == old(increments)
    {
      ghost var series := (metric, LabelKey(labels));
      Kept(durations, observed, maxSeries, series, milliseconds);
      observed := observed + [(series, milliseconds)];
      var key := Key(metric, labels, durations.Keys);
      if key.Some? {
        durations := Appended(durations, key.value, milliseconds);
      }
    }

    // What a reader sees: the exact sum of every increment of the run, or nothing because the
    // series came after the metric was full.
    method Counter(metric: string, labels: seq<(string, LabelValue)>) returns (count: int)
      requires Valid()
      ensures var key := (metric, LabelKey(labels));
              count == if key in Tracked(increments, metric, maxSeries) then SumOf(increments, key) else 0
    {
      var key := (metric, LabelKey(labels));
      assert key in counters.Keys <==> key in Tracked(increments, key.0, maxSeries);
      count := if key in counters then counters[key] else 0;
    }

    // `observations`: every duration the run gave for the series, in order, or none because the
    // series came after the metric was full.
    method Observations(metric: string, labels: seq<(string, LabelValue)>) returns (times: seq<real>)
      requires Valid()
      ensures var key := (metric, LabelKey(labels));
              times == if key in Tracked(observed, metric, maxSeries) then DurationsOf(observed, key) else []
    {
      var key := (metric, LabelKey(labels));
      assert key in durations.Keys <==> key in Tracked(observed, key.0, maxSeries);
      times := if key in durations then durations[key] else [];
    }
  }

  // The cap holds for every metric, in counters and durations alike, at every point of a run.
  lemma CapHolds(store: InMemoryMetrics, metric: string)
    requires store.Valid() && store.maxSeries >= 0
    ensures |SeriesOf(store.counters.Keys, metric)| <= store.maxSeries
    ensures |SeriesOf(store.durations.Keys, metric)| <= store.maxSeries
  {
    CountOfTracked(store.counters.Keys, store.increments, store.maxSeries, metric);
    CountOfTracked(store.durations.Keys, store.observed, store.maxSeries, metric);
  }
}
