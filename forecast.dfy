/**
 * `formatForecastData`: the 3-hour samples of a forecast response grouped by
 * local calendar day, and the first five days reduced to a rounded mean
 * temperature, the most frequent condition and a representative icon.
 */
module Forecast {
  import opened Wrappers
  import opened JsSemantics
  import opened InsertionOrder
  import opened Calendar
  import opened WeatherData

  /** The number of days kept, `slice(0, 5)`. */
  const ForecastDays: nat := 5

  /**
   * One value of the `dailyForecast` object: the date of the day's first
   * sample, and the temperatures, condition descriptions and icons of the
   * day's samples in input order.
   */
  datatype DayGroup = DayGroup(date: LocalDate, temps: seq<real>, conditions: seq<string>, icons: seq<string>)

  /** One element of the result (the locale-formatted `dateString` is not modelled). */
  datatype DayForecast = DayForecast(
    date: LocalDate,
    dayOfWeek: string,
    temperature: int,
    condition: string,
    icon: string)

  function Min(a: int, b: int): int
  {
    if a <= b then a else b
  }

  // ---------------------------------------------------------------------
  // What the grouping loop computes
  // ---------------------------------------------------------------------

  /**
   * Every sample has a `weather[0]`; otherwise `weather[0]` is `undefined`
   * and reading its `.description` throws a TypeError.
   */
  predicate AllHaveWeather(list: seq<Sample>)
  {
    forall i :: 0 <= i < |list| ==> |list[i].weather| > 0
  }

  /** The day key of every sample, in input order. */
  function DayKeySeq(list: seq<Sample>): (keys: seq<string>)
    ensures |keys| == |list|
    ensures forall i :: 0 <= i < |list| ==> keys[i] == list[i].date.dayKey
  {
    if |list| == 0 then [] else DayKeySeq(list[..|list| - 1]) + [list[|list| - 1].date.dayKey]
  }

  /** The keys of `dailyForecast`: the distinct day keys in order of first appearance. */
  function DayKeys(list: seq<Sample>): (keys: seq<string>)
    ensures NoDuplicates(keys)
    ensures forall i :: 0 <= i < |keys| ==> keys[i] in DayKeySeq(list)
    ensures |keys| <= |list|
  {
    DistinctHasNoDuplicates(DayKeySeq(list));
    Distinct(DayKeySeq(list))
  }

  /** The samples of one day, in input order. */
  function SamplesOn(list: seq<Sample>, key: string): (day: seq<Sample>)
    ensures forall j :: 0 <= j < |day| ==> day[j].date.dayKey == key
    ensures AllHaveWeather(list) ==> AllHaveWeather(day)
    ensures |day| == Occurrences(DayKeySeq(list), key)
  {
    if |list| == 0 then []
    else
      var prefix := list[..|list| - 1];
      var last := list[|list| - 1];
      var rest := SamplesOn(prefix, key);
      assert DayKeySeq(list) == DayKeySeq(prefix) + [last.date.dayKey];
      OccurrencesSnoc(DayKeySeq(prefix), last.date.dayKey, key);
      if last.date.dayKey == key then rest + [last] else rest
  }

  /** A fresh object `{date, temps: [], conditions: [], icons: []}`. */
  function EmptyGroup(date: LocalDate): (g: DayGroup)
    ensures g.date == date
    ensures |g.temps| == 0 && |g.conditions| == 0 && |g.icons| == 0
  {
    DayGroup(date, [], [], [])
  }

  /** The three `push` calls for one sample. */
  function Push(g: DayGroup, s: Sample): (g': DayGroup)
    requires |s.weather| > 0
    ensures g'.date == g.date
    ensures |g'.temps| == |g.temps| + 1 && g'.temps[|g.temps|] == s.temp
    ensures |g'.conditions| == |g.conditions| + 1 && g'.conditions[|g.conditions|] == s.weather[0].description
    ensures |g'.icons| == |g.icons| + 1 && g'.icons[|g.icons|] == s.weather[0].icon
    ensures forall k :: 0 <= k < |g.temps| ==> g'.temps[k] == g.temps[k]
    ensures forall k :: 0 <= k < |g.conditions| ==> g'.conditions[k] == g.conditions[k]
    ensures forall k :: 0 <= k < |g.icons| ==> g'.icons[k] == g.icons[k]
  {
    g.(temps := g.temps + [s.temp],
       conditions := g.conditions + [s.weather[0].description],
       icons := g.icons + [s.weather[0].icon])
  }

  /** The group built from a day's samples: a fresh entry dated by the first one, then one push per sample. */
  function GroupOf(day: seq<Sample>): (g: DayGroup)
    requires |day| > 0 && AllHaveWeather(day)
    ensures g.date == day[0].date
    ensures |g.temps| == |day| && |g.conditions| == |day| && |g.icons| == |day|
  {
    if |day| == 1 then Push(EmptyGroup(day[0].date), day[0])
    else Push(GroupOf(day[..|day| - 1]), day[|day| - 1])
  }

  /** The group holds the day's values in sample order. */
  lemma {:induction false} GroupOfContents(day: seq<Sample>, j: nat)
    requires |day| > 0 && AllHaveWeather(day) && j < |day|
    ensures GroupOf(day).temps[j] == day[j].temp
    ensures GroupOf(day).conditions[j] == day[j].weather[0].description
    ensures GroupOf(day).icons[j] == day[j].weather[0].icon
  {
    if j < |day| - 1 {
      GroupOfContents(day[..|day| - 1], j);
    }
  }

  /** The group of the day `key`, which has at least one sample. */
  function DayGroupOf(list: seq<Sample>, key: string): DayGroup
    requires AllHaveWeather(list) && key in DayKeySeq(list)
  {
    GroupOf(SamplesOn(list, key))
  }

  /**
   * The entries of `dailyForecast` after the `forEach` over `list`: each
   * sample is pushed onto the entry with its day key, and that entry is first
   * created, dated by the sample, when absent.
   */
  function Grouped(list: seq<Sample>): seq<(string, DayGroup)>
    requires AllHaveWeather(list)
  {
    if |list| == 0 then []
    else
      var before := Grouped(list[..|list| - 1]);
      var s := list[|list| - 1];
      var key := s.date.dayKey;
      var j := IndexOfKey(before, key);
      if j < 0 then before + [(key, Push(EmptyGroup(s.date), s))]
      else before[j := (key, Push(before[j].1, s))]
  }

  lemma {:induction false} GroupOfSnoc(day: seq<Sample>, s: Sample)
    requires |day| > 0 && AllHaveWeather(day) && |s.weather| > 0
    ensures AllHaveWeather(day + [s])
    ensures GroupOf(day + [s]) == Push(GroupOf(day), s)
  {
    assert (day + [s])[..|day|] == day;
  }

  lemma {:induction false} DayKeySeqSnoc(list: seq<Sample>, s: Sample)
    ensures DayKeySeq(list + [s]) == DayKeySeq(list) + [s.date.dayKey]
  {
    assert (list + [s])[..|list|] == list;
  }

  lemma {:induction false} SamplesOnSnoc(list: seq<Sample>, s: Sample, key: string)
    ensures SamplesOn(list + [s], key)
              == if s.date.dayKey == key then SamplesOn(list, key) + [s] else SamplesOn(list, key)
  {
    assert (list + [s])[..|list|] == list;
  }

  /** The grouping fold, unfolded for its last sample. */
  lemma {:induction false} GroupedSnoc(list: seq<Sample>, s: Sample)
    requires AllHaveWeather(list) && |s.weather| > 0
    ensures AllHaveWeather(list + [s])
    ensures var before := Grouped(list);
            var key := s.date.dayKey;
            var j := IndexOfKey(before, key);
            Grouped(list + [s])
              == if j < 0 then before + [(key, Push(EmptyGroup(s.date), s))]
                 else before[j := (key, Push(before[j].1, s))]
  {
    assert (list + [s])[..|list|] == list;
  }

  /**
   * The meaning of `dailyForecast`: one entry per distinct day key, in order
   * of first appearance, holding exactly that day's samples.
   */
  function ByDay(list: seq<Sample>): (entries: seq<(string, DayGroup)>)
    requires AllHaveWeather(list)
    ensures |entries| == |DayKeys(list)|
  {
    var keys := DayKeys(list);
    seq(|keys|, i requires 0 <= i < |keys| => (keys[i], DayGroupOf(list, keys[i])))
  }

  /** A day has an entry in the grouping by day exactly when some sample has its key. */
  lemma {:induction false} ByDayIndexOfKey(list: seq<Sample>, key: string)
    requires AllHaveWeather(list)
    ensures IndexOfKey(ByDay(list), key) >= 0 <==> key in DayKeySeq(list)
  {
    DistinctMember(DayKeySeq(list), key);
    if key in DayKeySeq(list) {
      var i :| 0 <= i < |DayKeys(list)| && DayKeys(list)[i] == key;
      assert ByDay(list)[i].0 == key;
    } else {
      forall i | 0 <= i < |ByDay(list)|
        ensures ByDay(list)[i].0 != key
      {
        assert ByDay(list)[i].0 == DayKeys(list)[i];
      }
    }
  }

  /** A sample of another day leaves a day's group unchanged. */
  lemma {:induction false} NewDayKeepsGroup(list: seq<Sample>, s: Sample, k: string)
    requires AllHaveWeather(list) && |s.weather| > 0
    requires k in DayKeySeq(list) && k != s.date.dayKey
    ensures AllHaveWeather(list + [s]) && k in DayKeySeq(list + [s])
    ensures DayGroupOf(list + [s], k) == DayGroupOf(list, k)
  {
    DayKeySeqSnoc(list, s);
    SamplesOnSnoc(list, s, k);
  }

  /** The first sample of a day forms that day's group on its own. */
  lemma {:induction false} NewDayGroup(list: seq<Sample>, s: Sample)
    requires AllHaveWeather(list) && |s.weather| > 0
    requires s.date.dayKey !in DayKeySeq(list)
    ensures AllHaveWeather(list + [s]) && s.date.dayKey in DayKeySeq(list + [s])
    ensures DayGroupOf(list + [s], s.date.dayKey) == Push(EmptyGroup(s.date), s)
  {
    var key := s.date.dayKey;
    DayKeySeqSnoc(list, s);
    assert SamplesOn(list, key) == [] by {
      assert Occurrences(DayKeySeq(list), key) == 0;
    }
    assert SamplesOn(list + [s], key) == [s] by {
      SamplesOnSnoc(list, s, key);
    }
  }

  /** A further sample of a day is pushed onto that day's group. */
  lemma {:induction false} KnownDayGroup(list: seq<Sample>, s: Sample)
    requires AllHaveWeather(list) && |s.weather| > 0
    requires s.date.dayKey in DayKeySeq(list)
    ensures AllHaveWeather(list + [s]) && s.date.dayKey in DayKeySeq(list + [s])
    ensures DayGroupOf(list + [s], s.date.dayKey) == Push(DayGroupOf(list, s.date.dayKey), s)
  {
    var key := s.date.dayKey;
    DayKeySeqSnoc(list, s);
    SamplesOnSnoc(list, s, key);
    GroupOfSnoc(SamplesOn(list, key), s);
  }

  /** A sample of a day not seen before adds its key at the end. */
  lemma {:induction false} NewDayKeys(list: seq<Sample>, s: Sample)
    requires s.date.dayKey !in DayKeySeq(list)
    ensures DayKeys(list + [s]) == DayKeys(list) + [s.date.dayKey]
  {
    DayKeySeqSnoc(list, s);
    DistinctSnoc(DayKeySeq(list), s.date.dayKey);
  }

  /** One entry after a sample of a new day: the old entries stay and the new day's entry follows them. */
  lemma {:induction false} NewDayEntry(list: seq<Sample>, s: Sample, i: nat)
    requires AllHaveWeather(list) && |s.weather| > 0
    requires s.date.dayKey !in DayKeySeq(list) && i <= |DayKeys(list)|
    ensures AllHaveWeather(list + [s]) && i < |ByDay(list + [s])|
    ensures ByDay(list + [s])[i]
              == if i < |DayKeys(list)| then ByDay(list)[i] else (s.date.dayKey, Push(EmptyGroup(s.date), s))
  {
    NewDayKeys(list, s);
    if i < |DayKeys(list)| {
      NewDayKeepsGroup(list, s, DayKeys(list)[i]);
    } else {
      NewDayGroup(list, s);
    }
  }

  /** A sample of a day not seen before adds an entry for that day at the end. */
  lemma {:induction false} GroupedByDaySnocNew(list: seq<Sample>, s: Sample)
    requires AllHaveWeather(list) && |s.weather| > 0
    requires s.date.dayKey !in DayKeySeq(list)
    ensures AllHaveWeather(list + [s])
    ensures ByDay(list + [s]) == ByDay(list) + [(s.date.dayKey, Push(EmptyGroup(s.date), s))]
  {
    NewDayKeys(list, s);
    NewDayGroup(list, s);
    var extended := ByDay(list) + [(s.date.dayKey, Push(EmptyGroup(s.date), s))];
    forall i | 0 <= i < |extended|
      ensures ByDay(list + [s])[i] == extended[i]
    {
      NewDayEntry(list, s, i);
    }
    assert ByDay(list + [s]) == extended;
  }

  /** A sample of a day already present adds no day key. */
  lemma {:induction false} KnownDayKeys(list: seq<Sample>, s: Sample)
    requires s.date.dayKey in DayKeySeq(list)
    ensures DayKeys(list + [s]) == DayKeys(list)
  {
    DayKeySeqSnoc(list, s);
    DistinctSnoc(DayKeySeq(list), s.date.dayKey);
  }

  /** One entry after a sample of a day already present: that day's entry gets the sample, the others stay. */
  lemma {:induction false} KnownDayEntry(list: seq<Sample>, s: Sample, i: nat)
    requires AllHaveWeather(list) && |s.weather| > 0
    requires s.date.dayKey in DayKeySeq(list) && i < |DayKeys(list)|
    ensures AllHaveWeather(list + [s]) && i < |ByDay(list + [s])|
    ensures ByDay(list + [s])[i]
              == if i == IndexOfKey(ByDay(list), s.date.dayKey) then (s.date.dayKey, Push(ByDay(list)[i].1, s))
                 else ByDay(list)[i]
  {
    var key := s.date.dayKey;
    var k := DayKeys(list)[i];
    KnownDayKeys(list, s);
    ByDayIndexOfKey(list, key);
    var j := IndexOfKey(ByDay(list), key);
    assert DayKeys(list)[j] == key;
    if i == j {
      KnownDayGroup(list, s);
    } else {
      assert k != key;
      NewDayKeepsGroup(list, s, k);
    }
  }

  /** A sample of a day already present is pushed onto that day's entry, in place. */
  lemma {:induction false} GroupedByDaySnocKnown(list: seq<Sample>, s: Sample)
    requires AllHaveWeather(list) && |s.weather| > 0
    requires s.date.dayKey in DayKeySeq(list)
    ensures AllHaveWeather(list + [s])
    ensures var j := IndexOfKey(ByDay(list), s.date.dayKey);
            && 0 <= j
            && ByDay(list + [s]) == ByDay(list)[j := (s.date.dayKey, Push(ByDay(list)[j].1, s))]
  {
    var key := s.date.dayKey;
    KnownDayGroup(list, s);
    KnownDayKeys(list, s);
    ByDayIndexOfKey(list, key);
    var j := IndexOfKey(ByDay(list), key);
    var updated := ByDay(list)[j := (key, Push(ByDay(list)[j].1, s))];
    forall i | 0 <= i < |updated|
      ensures ByDay(list + [s])[i] == updated[i]
    {
      KnownDayEntry(list, s, i);
    }
    assert ByDay(list + [s]) == updated;
  }

  /** The grouping fold groups the samples by day. */
  lemma {:induction false} GroupedGroupsByDay(list: seq<Sample>)
    requires AllHaveWeather(list)
    ensures Grouped(list) == ByDay(list)
  {
    if |list| > 0 {
      var prefix := list[..|list| - 1];
      var s := list[|list| - 1];
      assert list == prefix + [s];
      GroupedGroupsByDay(prefix);
      GroupedSnoc(prefix, s);
      ByDayIndexOfKey(prefix, s.date.dayKey);
      if s.date.dayKey in DayKeySeq(prefix) {
        GroupedByDaySnocKnown(prefix, s);
      } else {
        GroupedByDaySnocNew(prefix, s);
      }
    }
  }

  /**
   * The grouping loop (the `forEach` over `data.list`): one entry per
   * distinct day key, in order of first appearance, holding that day's
   * samples in input order. The result is `None` when a sample has no
   * `weather[0]`, where the source throws.
   */
  method GroupByDay(list: seq<Sample>) returns (r: Option<seq<(string, DayGroup)>>)
    ensures r.Some? <==> AllHaveWeather(list)
    ensures r.Some? ==> |r.value| == |DayKeys(list)|
    ensures r.Some? ==> forall i :: 0 <= i < |DayKeys(list)| ==>
              r.value[i] == (DayKeys(list)[i], DayGroupOf(list, DayKeys(list)[i]))
  {
    var dailyForecast: seq<(string, DayGroup)> := [];
    for i := 0 to |list|
      invariant AllHaveWeather(list[..i])
      invariant dailyForecast == Grouped(list[..i])
    {
      var item := list[i];
      if |item.weather| == 0 {
        return None;
      }
      assert list[..i + 1] == list[..i] + [item];
      GroupedSnoc(list[..i], item);
      var dateKey := item.date.dayKey;
      var j := IndexOfKey(dailyForecast, dateKey);
      var dayData := if j < 0 then EmptyGroup(item.date) else dailyForecast[j].1;
      dayData := Push(dayData, item);
      if j < 0 {
        dailyForecast := dailyForecast + [(dateKey, dayData)];
      } else {
        dailyForecast := dailyForecast[j := (dateKey, dayData)];
      }
      assert AllHaveWeather(list[..i + 1]) && dailyForecast == Grouped(list[..i + 1]);
    }
    assert list[..|list|] == list;
    GroupedGroupsByDay(list);
    return Some(dailyForecast);
  }

  /**
   * Every group is non-empty and its three arrays have the length of the
   * number of samples on that day, so the `reduce` without an initial value
   * and the division by `temps.length` are always defined.
   */
  lemma {:induction false} GroupSizes(list: seq<Sample>, key: string)
    requires AllHaveWeather(list) && key in DayKeySeq(list)
    ensures var g := DayGroupOf(list, key);
            var n := Occurrences(DayKeySeq(list), key);
            && n > 0 && WellFormedGroup(g)
            && |g.temps| == n && |g.conditions| == n && |g.icons| == n
  {
  }

  /** A day's group holds exactly the values of that day's samples, in input order. */
  lemma {:induction false} GroupContents(list: seq<Sample>, key: string, j: nat)
    requires AllHaveWeather(list) && key in DayKeySeq(list)
    requires j < |SamplesOn(list, key)|
    ensures var g := DayGroupOf(list, key);
            var s := SamplesOn(list, key)[j];
            && j < |g.temps| && g.temps[j] == s.temp
            && j < |g.conditions| && g.conditions[j] == s.weather[0].description
            && j < |g.icons| && g.icons[j] == s.weather[0].icon
  {
    GroupOfContents(SamplesOn(list, key), j);
  }

  /** The first sample of a day is the first sample in the input with that day's key. */
  lemma {:induction false} FirstSampleOfDay(list: seq<Sample>, key: string)
    requires key in DayKeySeq(list)
    ensures |SamplesOn(list, key)| > 0
    ensures SamplesOn(list, key)[0] == list[FirstIndex(DayKeySeq(list), key)]
  {
    var n := |list|;
    var prefix := list[..n - 1];
    assert list == prefix + [list[n - 1]];
    assert DayKeySeq(list) == DayKeySeq(prefix) + [list[n - 1].date.dayKey];
    if key in DayKeySeq(prefix) {
      FirstSampleOfDay(prefix, key);
      FirstIndexOfPrefix(DayKeySeq(prefix), [list[n - 1].date.dayKey], key);
    } else {
      assert Occurrences(DayKeySeq(prefix), key) == 0;
      FirstIndexUnique(DayKeySeq(list), key, n - 1);
    }
  }

  /** A day's group is dated by the day's first sample. */
  lemma {:induction false} GroupDate(list: seq<Sample>, key: string)
    requires AllHaveWeather(list) && key in DayKeySeq(list)
    ensures DayGroupOf(list, key).date == list[FirstIndex(DayKeySeq(list), key)].date
  {
    FirstSampleOfDay(list, key);
  }

  // ---------------------------------------------------------------------
  // Reducing one day
  // ---------------------------------------------------------------------

  /**
   * `temps.reduce((a, b) => a + b)`, a left fold. Without an initial value
   * the fold starts from the first element, so a single value is its own sum.
   */
  function Sum(xs: seq<real>): (s: real)
    ensures |xs| == 1 ==> s == xs[0]
  {
    if |xs| == 0 then 0.0 else Sum(xs[..|xs| - 1]) + xs[|xs| - 1]
  }

  /** The coldest sample. */
  function MinOf(xs: seq<real>): (m: real)
    requires |xs| > 0
    ensures m in xs
    ensures forall i :: 0 <= i < |xs| ==> m <= xs[i]
  {
    if |xs| == 1 then xs[0]
    else
      var m0 := MinOf(xs[..|xs| - 1]);
      if xs[|xs| - 1] < m0 then xs[|xs| - 1] else m0
  }

  /** The warmest sample. */
  function MaxOf(xs: seq<real>): (m: real)
    requires |xs| > 0
    ensures m in xs
    ensures forall i :: 0 <= i < |xs| ==> xs[i] <= m
  {
    if |xs| == 1 then xs[0]
    else
      var m0 := MaxOf(xs[..|xs| - 1]);
      if xs[|xs| - 1] > m0 then xs[|xs| - 1] else m0
  }

  /** A sum of `n` values that all lie in `[lo, hi]` lies in `[n * lo, n * hi]`. */
  lemma {:induction false} SumBetween(xs: seq<real>, lo: real, hi: real)
    requires forall i :: 0 <= i < |xs| ==> lo <= xs[i] <= hi
    ensures |xs| as real * lo <= Sum(xs) <= |xs| as real * hi
  {
    if |xs| > 0 {
      var prefix := xs[..|xs| - 1];
      SumBetween(prefix, lo, hi);
      SumStepBetween(|prefix| as real, |xs| as real, Sum(prefix), xs[|xs| - 1], lo, hi);
    }
  }

  /** One more value within `[lo, hi]` keeps a sum of `n` such values within the scaled bounds. */
  lemma {:induction false} SumStepBetween(n: real, n': real, sum: real, x: real, lo: real, hi: real)
    requires n >= 0.0 && n' == n + 1.0
    requires n * lo <= sum <= n * hi && lo <= x <= hi
    ensures n' * lo <= sum + x <= n' * hi
  {
    assert n' * lo == n * lo + lo;
    assert n' * hi == n * hi + hi;
  }

  /** `Math.round(sum / temps.length)`: the rounded mean temperature. */
  function AverageTemp(temps: seq<real>): (avg: int)
    requires |temps| > 0
    ensures RoundsTo(Sum(temps) / |temps| as real, avg)
  {
    Round(Sum(temps) / |temps| as real)
  }

  /** The mean of values that all lie in `[lo, hi]` lies in `[lo, hi]`. */
  lemma {:induction false} MeanWithin(temps: seq<real>, lo: real, hi: real)
    requires |temps| > 0
    requires forall i :: 0 <= i < |temps| ==> lo <= temps[i] <= hi
    ensures lo <= Sum(temps) / |temps| as real <= hi
  {
    SumBetween(temps, lo, hi);
    MeanBetween(Sum(temps), |temps| as real, lo, hi);
  }

  /** The rounded mean lies between the rounded coldest and the rounded warmest sample. */
  lemma {:induction false} AverageBetweenExtremes(temps: seq<real>)
    requires |temps| > 0
    ensures Round(MinOf(temps)) <= AverageTemp(temps) <= Round(MaxOf(temps))
  {
    MeanWithin(temps, MinOf(temps), MaxOf(temps));
    RoundMonotone(MinOf(temps), Sum(temps) / |temps| as real);
    RoundMonotone(Sum(temps) / |temps| as real, MaxOf(temps));
  }

  /** A value whose `n`-fold lies between `n * lo` and `n * hi` lies between `lo` and `hi`. */
  lemma {:induction false} MeanBetween(sum: real, n: real, lo: real, hi: real)
    requires n > 0.0 && n * lo <= sum <= n * hi
    ensures lo <= sum / n <= hi
  {
    var mean := sum / n;
    assert (mean - lo) * n == sum - n * lo;
    assert (hi - mean) * n == n * hi - sum;
  }

  /** `conditionCount`: each distinct condition with its number of occurrences, in order of first appearance. */
  function Tally(conditions: seq<string>): (counts: seq<(string, nat)>)
    ensures |counts| <= |conditions|
    ensures forall i :: 0 <= i < |counts| ==>
              counts[i].0 in conditions && counts[i].1 == Occurrences(conditions, counts[i].0) && counts[i].1 > 0
    ensures forall i, j :: 0 <= i < j < |counts| ==> counts[i].0 != counts[j].0
  {
    DistinctHasNoDuplicates(conditions);
    var keys := Distinct(conditions);
    seq(|keys|, i requires 0 <= i < |keys| => (keys[i], Occurrences(conditions, keys[i])))
  }

  /** One step of the counting loop: a new condition is appended with count 1, a known one counts one more. */
  lemma {:induction false} TallySnoc(conditions: seq<string>, cond: string)
    ensures var t := Tally(conditions);
            var j := IndexOfKey(t, cond);
            Tally(conditions + [cond]) == if j < 0 then t + [(cond, 1)] else t[j := (cond, t[j].1 + 1)]
  {
    var t := Tally(conditions);
    var after := Tally(conditions + [cond]);
    var keys := Distinct(conditions);
    var j := IndexOfKey(t, cond);
    assert |after| == |keys| + (if cond in conditions then 0 else 1) by {
      DistinctSnoc(conditions, cond);
    }
    if cond in conditions {
      var k :| 0 <= k < |keys| && keys[k] == cond by {
        DistinctMember(conditions, cond);
      }
      assert j == k by {
        DistinctHasNoDuplicates(conditions);
        assert t[k].0 == cond;
      }
      assert after[k] == (cond, t[k].1 + 1) by {
        DistinctSnoc(conditions, cond);
        OccurrencesSnoc(conditions, cond, cond);
      }
      forall i | 0 <= i < |keys| && i != k
        ensures after[i] == t[i]
      {
        assert keys[i] != cond by {
          DistinctHasNoDuplicates(conditions);
        }
        DistinctSnoc(conditions, cond);
        OccurrencesSnoc(conditions, cond, keys[i]);
      }
      UpdateByElements(after, t, k, (cond, t[k].1 + 1));
    } else {
      assert j < 0;
      forall i | 0 <= i < |keys|
        ensures after[i] == t[i]
      {
        DistinctSnoc(conditions, cond);
        OccurrencesSnoc(conditions, cond, keys[i]);
      }
      assert after[|keys|] == (cond, 1) by {
        DistinctSnoc(conditions, cond);
        OccurrencesSnoc(conditions, cond, cond);
      }
      SnocByElements(after, t, (cond, 1));
    }
  }

  /** Two sequences that agree element by element, one extending the other by `x`. */
  lemma {:induction false} SnocByElements<T>(a: seq<T>, b: seq<T>, x: T)
    requires |a| == |b| + 1 && a[|b|] == x
    requires forall i :: 0 <= i < |b| ==> a[i] == b[i]
    ensures a == b + [x]
  {
  }

  /** Two sequences of the same length that agree everywhere except at `j`, where `a` holds `x`. */
  lemma {:induction false} UpdateByElements<T>(a: seq<T>, b: seq<T>, j: nat, x: T)
    requires |a| == |b| && j < |b| && a[j] == x
    requires forall i :: 0 <= i < |b| && i != j ==> a[i] == b[i]
    ensures a == b[j := x]
  {
  }

  /**
   * The counting loop (`conditions.forEach(cond => conditionCount[cond] =
   * (conditionCount[cond] || 0) + 1)`).
   */
  method CountConditions(conditions: seq<string>) returns (conditionCount: seq<(string, nat)>)
    ensures conditionCount == Tally(conditions)
  {
    conditionCount := [];
    for i := 0 to |conditions|
      invariant conditionCount == Tally(conditions[..i])
    {
      var cond := conditions[i];
      assert conditions[..i + 1] == conditions[..i] + [cond];
      TallySnoc(conditions[..i], cond);
      var j := IndexOfKey(conditionCount, cond);
      var previous := if j < 0 then 0 else conditionCount[j].1;
      if j < 0 {
        conditionCount := conditionCount + [(cond, previous + 1)];
      } else {
        conditionCount := conditionCount[j := (cond, previous + 1)];
      }
    }
    assert conditions[..|conditions|] == conditions;
  }

  /**
   * `Object.keys(conditionCount).reduce((a, b) => count[a] > count[b] ? a : b)`,
   * as the position of the chosen key: a largest count, and on a tie the
   * last of the tied keys, since only a strictly larger count keeps `a`.
   */
  function MostCommonAt(counts: seq<(string, nat)>): (best: nat)
    requires |counts| > 0
    ensures best < |counts|
    ensures forall j :: 0 <= j < |counts| ==> counts[j].1 <= counts[best].1
    ensures forall j :: best < j < |counts| ==> counts[j].1 < counts[best].1
  {
    if |counts| == 1 then 0
    else
      var a := MostCommonAt(counts[..|counts| - 1]);
      var b := |counts| - 1;
      if counts[a].1 > counts[b].1 then a else b
  }

  /** The most frequent condition of a day. */
  function MostCommonCondition(conditions: seq<string>): (c: string)
    requires |conditions| > 0
    ensures c in conditions
  {
    DistinctMember(conditions, conditions[0]);
    var counts := Tally(conditions);
    counts[MostCommonAt(counts)].0
  }

  /**
   * The chosen condition occurs in the day, no condition occurs more often,
   * and any other condition that occurs as often was first seen earlier in
   * the day: a tie goes to the condition first seen later.
   */
  lemma {:induction false} MostCommonConditionIsMode(conditions: seq<string>)
    requires |conditions| > 0
    ensures var c := MostCommonCondition(conditions);
            && c in conditions
            && (forall x :: x in conditions ==> Occurrences(conditions, x) <= Occurrences(conditions, c))
            && (forall x :: (x in conditions && x != c && Occurrences(conditions, x) == Occurrences(conditions, c))
                  ==> FirstIndex(conditions, x) < FirstIndex(conditions, c))
  {
    var keys := Distinct(conditions);
    DistinctMember(conditions, conditions[0]);
    var counts := Tally(conditions);
    var best := MostCommonAt(counts);
    var c := MostCommonCondition(conditions);
    assert c == keys[best];
    forall x | x in conditions
      ensures Occurrences(conditions, x) <= Occurrences(conditions, c)
      ensures (x != c && Occurrences(conditions, x) == Occurrences(conditions, c))
                ==> FirstIndex(conditions, x) < FirstIndex(conditions, c)
    {
      DistinctMember(conditions, x);
      var k :| 0 <= k < |keys| && keys[k] == x;
      assert counts[k].1 <= counts[best].1;
      if x != c && Occurrences(conditions, x) == Occurrences(conditions, c) {
        assert k != best;
        assert !(best < k);
        DistinctInFirstAppearanceOrder(conditions, k, best);
      }
    }
  }

  /** With one clear and one cloudy sample, the condition seen later wins the tie. */
  lemma {:induction false} MostCommonConditionTie()
    ensures MostCommonCondition(["ясно", "облачно"]) == "облачно"
  {
    var c := ["ясно", "облачно"];
    MostCommonConditionIsMode(c);
    assert "ясно" != "облачно" by {
      assert |"ясно"| == 4 && |"облачно"| == 7;
    }
    assert c[..1] == ["ясно"] && c[..1][..0] == [];
    assert Occurrences(c, "ясно") == 1 && Occurrences(c, "облачно") == 1;
    assert c[1..] == ["облачно"];
    assert FirstIndex(c, "ясно") == 0 && FirstIndex(c, "облачно") == 1;
  }

  /** The noon test reads the hour of the group's `date`, not of each sample. */
  predicate IsNoonHour(hour: int)
  {
    11 <= hour <= 13
  }

  /** `temps.findIndex((temp, i) => hour of dayData.date is 11..13)`. */
  function NoonIndex(g: DayGroup): (k: int)
    ensures k == 0 <==> |g.temps| > 0 && IsNoonHour(g.date.hour)
    ensures k == -1 <==> !(|g.temps| > 0 && IsNoonHour(g.date.hour))
  {
    FindIndex(g.temps, (t: real, i: nat) => IsNoonHour(g.date.hour))
  }

  /** `icons[noonIndex] || icons[0]`: an absent (`undefined`) or empty icon falls back to the first. */
  function RepresentativeIcon(g: DayGroup): (icon: string)
    requires |g.icons| > 0
    ensures icon in g.icons
  {
    var k := NoonIndex(g);
    if 0 <= k < |g.icons| && g.icons[k] != "" then g.icons[k] else g.icons[0]
  }

  /**
   * Because the noon test does not depend on the sample, `findIndex` returns
   * 0 or -1, and both paths pick the icon of the day's first sample.
   */
  lemma {:induction false} RepresentativeIconIsFirst(g: DayGroup)
    requires |g.icons| > 0
    ensures NoonIndex(g) == -1 || NoonIndex(g) == 0
    ensures RepresentativeIcon(g) == g.icons[0]
  {
  }

  predicate WellFormedGroup(g: DayGroup)
  {
    |g.temps| > 0 && |g.conditions| == |g.temps| && |g.icons| == |g.temps|
  }

  /**
   * The `map` callback: one day's group reduced to its summary, which keeps
   * the group's date and weekday, a temperature between the rounded extremes,
   * one of the day's conditions and the icon of the day's first sample.
   */
  function Summarize(g: DayGroup): (d: DayForecast)
    requires WellFormedGroup(g)
    ensures d.date == g.date && d.dayOfWeek == DayOfWeek(g.date)
    ensures Round(MinOf(g.temps)) <= d.temperature <= Round(MaxOf(g.temps))
    ensures d.condition in g.conditions
    ensures d.icon == g.icons[0]
  {
    AverageBetweenExtremes(g.temps);
    RepresentativeIconIsFirst(g);
    DayForecast(
      g.date,
      DayOfWeek(g.date),
      AverageTemp(g.temps),
      MostCommonCondition(g.conditions),
      RepresentativeIcon(g))
  }

  /**
   * The `map` callback on one day's group: the rounded mean, the counting
   * loop and the `reduce` over its keys, and the noon-index icon choice.
   */
  method FormatDay(dayData: DayGroup) returns (day: DayForecast)
    requires WellFormedGroup(dayData)
    ensures day == Summarize(dayData)
  {
    var avgTemp := AverageTemp(dayData.temps);
    var conditionCount := CountConditions(dayData.conditions);
    DistinctMember(dayData.conditions, dayData.conditions[0]);
    var mostCommonCondition := conditionCount[MostCommonAt(conditionCount)].0;
    var noonIndex := NoonIndex(dayData);
    var icon := if 0 <= noonIndex < |dayData.icons| && dayData.icons[noonIndex] != ""
                then dayData.icons[noonIndex] else dayData.icons[0];
    day := DayForecast(dayData.date, DayOfWeek(dayData.date), avgTemp, mostCommonCondition, icon);
  }

  /** The mean of 10, 12 and 14.5 degrees, 12.17, shows as 12. */
  lemma {:induction false} AverageTempThreeSamples()
    ensures AverageTemp([10.0, 12.0, 14.5]) == 12
  {
    var t := [10.0, 12.0, 14.5];
    assert t[..2] == [10.0, 12.0] && t[..2][..1] == [10.0] && t[..2][..1][..0] == [];
    assert Sum([10.0]) == 10.0;
    assert Sum([10.0, 12.0]) == 22.0;
    assert Sum(t) == 36.5;
    RoundUnique(36.5 / 3.0, 12);
  }

  /** Of one clear and two cloudy samples, cloudy is the most common condition. */
  lemma {:induction false} MostCommonConditionThreeSamples()
    ensures MostCommonCondition(["ясно", "облачно", "облачно"]) == "облачно"
  {
    var c := ["ясно", "облачно", "облачно"];
    MostCommonConditionIsMode(c);
    assert "ясно" != "облачно" by {
      assert |"ясно"| == 4 && |"облачно"| == 7;
    }
    assert c[..2] == ["ясно", "облачно"] && c[..2][..1] == ["ясно"] && c[..2][..1][..0] == [];
    assert Occurrences(c, "ясно") == 1 && Occurrences(c, "облачно") == 2;
  }

  /** When every sample has the day key `key`, the day's samples are the whole input. */
  lemma {:induction false} SamplesOnSingleDay(list: seq<Sample>, key: string)
    requires forall i :: 0 <= i < |list| ==> list[i].date.dayKey == key
    ensures SamplesOn(list, key) == list
  {
    if |list| > 0 {
      var prefix, last := list[..|list| - 1], list[|list| - 1];
      assert list == prefix + [last];
      SamplesOnSingleDay(prefix, key);
      SamplesOnSnoc(prefix, last, key);
    }
  }

  /**
   * Three samples of Wednesday 15 October 2025, at 09:00, 12:00 and 15:00
   * Moscow time, with 10, 12 and 14.5 degrees.
   */
  const WednesdaySamples: seq<Sample> := [
    Sample(LocalDate(1760508000, "15.10.2025", 9, 3), 10.0, [WeatherEntry("Clear", "ясно", "01d")]),
    Sample(LocalDate(1760518800, "15.10.2025", 12, 3), 12.0, [WeatherEntry("Clouds", "облачно", "03d")]),
    Sample(LocalDate(1760529600, "15.10.2025", 15, 3), 14.5, [WeatherEntry("Clouds", "облачно", "04d")])
  ]

  /** The three Wednesday samples all fall on one day. */
  lemma {:induction false} WednesdayOneDay()
    ensures AllHaveWeather(WednesdaySamples) && "15.10.2025" in DayKeySeq(WednesdaySamples)
    ensures SamplesOn(WednesdaySamples, "15.10.2025") == WednesdaySamples
  {
    var w := WednesdaySamples;
    assert w == [w[0], w[1], w[2]];
    GroupOfThree(w[0], w[1], w[2]);
    OneDayOfThree(w[0], w[1], w[2]);
  }

  /** Three samples with the same day key are that day's samples. */
  lemma {:induction false} OneDayOfThree(a: Sample, b: Sample, c: Sample)
    requires a.date.dayKey == b.date.dayKey == c.date.dayKey
    ensures a.date.dayKey in DayKeySeq([a, b, c])
    ensures SamplesOn([a, b, c], a.date.dayKey) == [a, b, c]
  {
    assert DayKeySeq([a, b, c])[0] == a.date.dayKey;
    SamplesOnSingleDay([a, b, c], a.date.dayKey);
  }

  /** The three Wednesday samples form one group holding their values in order. */
  lemma {:induction false} WednesdayGroup()
    ensures AllHaveWeather(WednesdaySamples) && "15.10.2025" in DayKeySeq(WednesdaySamples)
    ensures DayGroupOf(WednesdaySamples, "15.10.2025") == WednesdayDayGroup
  {
    WednesdayOneDay();
    var w := WednesdaySamples;
    GroupOfThree(w[0], w[1], w[2]);
    assert w == [w[0], w[1], w[2]];
  }

  /** The group of a day of three samples. */
  lemma {:induction false} GroupOfThree(a: Sample, b: Sample, c: Sample)
    requires |a.weather| > 0 && |b.weather| > 0 && |c.weather| > 0
    ensures AllHaveWeather([a, b, c])
    ensures GroupOf([a, b, c])
              == DayGroup(a.date, [a.temp, b.temp, c.temp],
                          [a.weather[0].description, b.weather[0].description, c.weather[0].description],
                          [a.weather[0].icon, b.weather[0].icon, c.weather[0].icon])
  {
    var day := [a, b, c];
    assert day[..2] == [a, b] && day[..2][..1] == [a];
    assert GroupOf([a]) == DayGroup(a.date, [a.temp], [a.weather[0].description], [a.weather[0].icon]);
    assert GroupOf([a, b]) == Push(GroupOf([a]), b);
    assert GroupOf(day) == Push(GroupOf([a, b]), c);
  }

  /** The group of the Wednesday samples. */
  const WednesdayDayGroup: DayGroup :=
    DayGroup(LocalDate(1760508000, "15.10.2025", 9, 3), [10.0, 12.0, 14.5],
             ["ясно", "облачно", "облачно"], ["01d", "03d", "04d"])

  /** The summary of the Wednesday group. */
  lemma {:induction false} SummarizeWednesdayGroup()
    ensures Summarize(WednesdayDayGroup)
              == DayForecast(WednesdayDayGroup.date, "Ср", 12, "облачно", "01d")
  {
    AverageTempThreeSamples();
    MostCommonConditionThreeSamples();
    RepresentativeIconIsFirst(WednesdayDayGroup);
  }

  /**
   * The Wednesday forecast: the mean shows as 12, the condition seen twice
   * wins, and the icon is the 09:00 one although the 12:00 sample falls in
   * the noon window.
   */
  lemma {:induction false} SummarizeThreeSamples()
    ensures IsNoonHour(WednesdaySamples[1].date.hour)
    ensures AllHaveWeather(WednesdaySamples) && "15.10.2025" in DayKeySeq(WednesdaySamples)
    ensures Summarize(DayGroupOf(WednesdaySamples, "15.10.2025"))
              == DayForecast(WednesdaySamples[0].date, "Ср", 12, "облачно", "01d")
  {
    WednesdayGroup();
    SummarizeWednesdayGroup();
  }

  // ---------------------------------------------------------------------
  // formatForecastData
  // ---------------------------------------------------------------------

  /** The summaries of the groups, in order. */
  function Summaries(groups: seq<(string, DayGroup)>): (days: seq<DayForecast>)
    requires forall i :: 0 <= i < |groups| ==> WellFormedGroup(groups[i].1)
    ensures |days| == |groups|
  {
    if |groups| == 0 then []
    else Summaries(groups[..|groups| - 1]) + [Summarize(groups[|groups| - 1].1)]
  }

  lemma {:induction false} SummariesAt(groups: seq<(string, DayGroup)>, i: nat)
    requires forall k :: 0 <= k < |groups| ==> WellFormedGroup(groups[k].1)
    requires i < |groups|
    ensures Summaries(groups)[i] == Summarize(groups[i].1)
  {
    if i < |groups| - 1 {
      var prefix := groups[..|groups| - 1];
      assert prefix[i] == groups[i];
      SummariesAt(prefix, i);
    }
  }

  /** `.map(dayData => ...)`: each day's group reduced to its summary, in order. */
  method SummarizeDays(groups: seq<(string, DayGroup)>) returns (days: seq<DayForecast>)
    requires forall i :: 0 <= i < |groups| ==> WellFormedGroup(groups[i].1)
    ensures |days| == |groups|
    ensures forall i :: 0 <= i < |groups| ==> days[i] == Summarize(groups[i].1)
  {
    days := [];
    for i := 0 to |groups|
      invariant days == Summaries(groups[..i])
    {
      var day := FormatDay(groups[i].1);
      assert groups[..i + 1][..i] == groups[..i];
      days := days + [day];
    }
    assert groups[..|groups|] == groups;
    forall i | 0 <= i < |groups|
      ensures days[i] == Summarize(groups[i].1)
    {
      SummariesAt(groups, i);
    }
  }

  /**
   * `formatForecastData(data)` on `data.list`: one summary per day for the
   * first five days, in order of first appearance; `None` where the source
   * throws because a sample has no `weather[0]`.
   */
  method FormatForecastData(list: seq<Sample>) returns (r: Option<seq<DayForecast>>)
    ensures r.Some? <==> AllHaveWeather(list)
    ensures r.Some? ==> |r.value| == Min(ForecastDays, |DayKeys(list)|)
    ensures r.Some? ==> forall i :: 0 <= i < |r.value| ==>
              r.value[i] == Summarize(DayGroupOf(list, DayKeys(list)[i]))
  {
    var grouped := GroupByDay(list);
    if grouped.None? {
      return None;
    }
    var dailyForecast := grouped.value;
    var shown := dailyForecast[..Min(ForecastDays, |dailyForecast|)];
    var days := SummarizeDays(shown);
    return Some(days);
  }

  /**
   * What each forecast day says about the input: it is dated by the day's
   * first sample, shows that sample's weekday and icon, and its temperature
   * lies between the rounded extremes of the day's samples.
   */
  lemma {:induction false} ForecastDayFacts(list: seq<Sample>, key: string)
    requires AllHaveWeather(list) && key in DayKeySeq(list)
    ensures var g := DayGroupOf(list, key);
            var first := list[FirstIndex(DayKeySeq(list), key)];
            && Summarize(g).date == first.date
            && Summarize(g).dayOfWeek == DayOfWeek(first.date)
            && Summarize(g).icon == first.weather[0].icon
            && Round(MinOf(g.temps)) <= Summarize(g).temperature <= Round(MaxOf(g.temps))
  {
    GroupDate(list, key);
    FirstSampleOfDay(list, key);
    GroupContents(list, key, 0);
    var g := DayGroupOf(list, key);
    RepresentativeIconIsFirst(g);
    AverageBetweenExtremes(g.temps);
  }
}
