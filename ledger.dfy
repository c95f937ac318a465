/** The daily-statistics ledger: a dictionary from a date key (`YYYY-MM-DD`)
    to that day's counters, and the read-only summaries of the stats window. */
module Ledger {

  /** One day's counters, `{videosWatched, totalTimeWatched}`; the time is in
      whole seconds. */
  datatype DayStats = DayStats(videosWatched: nat, totalTimeWatched: nat)

  /** What the script substitutes for a day without an entry. */
  const NoActivity := DayStats(0, 0)

  type DailyLedger = map<string, DayStats>

  /** `stats[key] || { videosWatched: 0, totalTimeWatched: 0 }`: the stored
      entry for `key`, or zeros when there is none. */
  function StatsOn(ledger: DailyLedger, key: string): (s: DayStats)
    ensures key in ledger ==> s == ledger[key]
    ensures key !in ledger ==> s == NoActivity
  {
    if key in ledger then ledger[key] else NoActivity
  }

  /** No entry disappears and no counter goes down from `before` to `after`. */
  predicate NeverDecreases(before: DailyLedger, after: DailyLedger) {
    forall k :: k in before ==>
      && k in after
      && before[k].videosWatched <= after[k].videosWatched
      && before[k].totalTimeWatched <= after[k].totalTimeWatched
  }

  /** The ledger after one more video of `seconds` whole seconds is counted on
      day `key`: that day gains an entry if it had none, its video count goes up
      by one and its time by `seconds`, and every other day is left alone. */
  function RecordVideo(ledger: DailyLedger, key: string, seconds: nat): (r: DailyLedger)
    ensures r.Keys == ledger.Keys + {key}
    ensures r[key].videosWatched == StatsOn(ledger, key).videosWatched + 1
    ensures r[key].totalTimeWatched == StatsOn(ledger, key).totalTimeWatched + seconds
    ensures forall k :: k in ledger && k != key ==> r[k] == ledger[k]
    ensures NeverDecreases(ledger, r)
  {
    var before := StatsOn(ledger, key);
    ledger[key := DayStats(before.videosWatched + 1, before.totalTimeWatched + seconds)]
  }

  /** One row of the 7-day series: the date key and that day's counters (the
      locale weekday name is not modelled). */
  datatype DayEntry = DayEntry(date: string, stats: DayStats)

  /** The counters of row `i`. Facts about every row are stated through these,
      so that they apply only where a row's counter is asked for. */
  function VideosOn(days: seq<DayEntry>, i: nat): nat
    requires i < |days|
  {
    days[i].stats.videosWatched
  }

  function TimeOn(days: seq<DayEntry>, i: nat): nat
    requires i < |days|
  {
    days[i].stats.totalTimeWatched
  }

  /** `days.reduce((sum, day) => sum + day.videosWatched, 0)`. */
  function TotalVideos(days: seq<DayEntry>): (n: nat)
    ensures n == 0 <==> forall i :: 0 <= i < |days| ==> VideosOn(days, i) == 0
  {
    if days == [] then 0
    else
      var init := days[..|days| - 1];
      assert forall i :: 0 <= i < |init| ==> VideosOn(init, i) == VideosOn(days, i);
      assert days[|days| - 1].stats.videosWatched == VideosOn(days, |days| - 1);
      TotalVideos(init) + days[|days| - 1].stats.videosWatched
  }

  /** `days.reduce((sum, day) => sum + day.totalTimeWatched, 0)`. */
  function TotalTime(days: seq<DayEntry>): (n: nat)
    ensures n == 0 <==> forall i :: 0 <= i < |days| ==> TimeOn(days, i) == 0
  {
    if days == [] then 0
    else
      var init := days[..|days| - 1];
      assert forall i :: 0 <= i < |init| ==> TimeOn(init, i) == TimeOn(days, i);
      assert days[|days| - 1].stats.totalTimeWatched == TimeOn(days, |days| - 1);
      TotalTime(init) + days[|days| - 1].stats.totalTimeWatched
  }

  /** `Math.max(...days.map(day => day.videosWatched), 1)`: the scale of the
      bar chart, never below one and never below any day's count, and either
      one or some day's count. */
  function MaxVideos(days: seq<DayEntry>): (m: nat)
    ensures m >= 1
    ensures forall i :: 0 <= i < |days| ==> days[i].stats.videosWatched <= m
    ensures m == 1 || exists i :: 0 <= i < |days| && days[i].stats.videosWatched == m
  {
    if days == [] then 1
    else
      var rest := MaxVideos(days[..|days| - 1]);
      var last := days[|days| - 1].stats.videosWatched;
      assert forall i :: 0 <= i < |days| - 1 ==> days[..|days| - 1][i] == days[i];
      if last > rest then last else rest
  }

  /** The width, in percent, of a day's bar: `(videosWatched / maxVideos) * 100`. */
  function BarWidth(videosWatched: nat, maxVideos: nat): (w: real)
    requires maxVideos >= 1
    ensures w >= 0.0
    ensures w == 0.0 <==> videosWatched == 0
    ensures videosWatched <= maxVideos ==> w <= 100.0
    ensures w == 100.0 <==> videosWatched == maxVideos
  {
    var q := videosWatched as real / maxVideos as real;
    assert q * maxVideos as real == videosWatched as real;
    q * 100.0
  }

  /** Every bar of the chart is between empty and full, and in a week with
      any video the busiest day's bar is full. */
  lemma BarWidthsInRange(days: seq<DayEntry>, i: nat)
    requires i < |days|
    ensures 0.0 <= BarWidth(days[i].stats.videosWatched, MaxVideos(days)) <= 100.0
    ensures TotalVideos(days) > 0 ==>
      exists j :: 0 <= j < |days| && BarWidth(days[j].stats.videosWatched, MaxVideos(days)) == 100.0
  {
    if TotalVideos(days) > 0 {
      var j :| 0 <= j < |days| && VideosOn(days, j) != 0;
      if MaxVideos(days) == 1 {
        assert BarWidth(days[j].stats.videosWatched, MaxVideos(days)) == 100.0;
      }
    }
  }

  /** Each day's counters are at most the week's totals. */
  lemma {:induction false} TotalsBoundDays(days: seq<DayEntry>)
    ensures forall i :: 0 <= i < |days| ==> days[i].stats.videosWatched <= TotalVideos(days)
    ensures forall i :: 0 <= i < |days| ==> days[i].stats.totalTimeWatched <= TotalTime(days)
  {
    if days != [] {
      var init := days[..|days| - 1];
      TotalsBoundDays(init);
      assert forall i :: 0 <= i < |init| ==> init[i] == days[i];
    }
  }

  /** The chart scale is one for an idle week, and otherwise at most the
      week's total. */
  lemma ScaleAtMostTotal(days: seq<DayEntry>)
    ensures TotalVideos(days) == 0 ==> MaxVideos(days) == 1
    ensures TotalVideos(days) > 0 ==> MaxVideos(days) <= TotalVideos(days)
  {
    TotalsBoundDays(days);
  }

  /** Multiplying by a natural keeps the order of the factors. */
  lemma MulMonotone(n: nat, a: nat, b: nat)
    requires a <= b
    ensures n * a <= n * b
  {
  }

  /** One more copy of `m` in a product adds `m`. */
  lemma MulSucc(n: nat, m: nat)
    ensures (n + 1) * m == n * m + m
  {
  }

  /** The week's total is at most the chart scale times the days shown. */
  lemma {:induction false} TotalAtMostScaleTimesDays(days: seq<DayEntry>)
    ensures TotalVideos(days) <= |days| * MaxVideos(days)
  {
    if days != [] {
      var init := days[..|days| - 1];
      TotalAtMostScaleTimesDays(init);
      var m, m0 := MaxVideos(days), MaxVideos(init);
      assert m0 <= m by {
        if m0 != 1 {
          var j :| 0 <= j < |init| && init[j].stats.videosWatched == m0;
          assert init[j] == days[j];
        }
      }
      var n := |init|;
      MulMonotone(n, m0, m);
      var last := days[|days| - 1].stats.videosWatched;
      assert TotalVideos(days) == TotalVideos(init) + last;
      assert last <= m;
      assert TotalVideos(days) <= n * m + m;
      MulSucc(n, m);
    }
  }

  /** The seven rows of the stats window for `today`, oldest first, each day's
      stored counters or zeros; `keyOf` renders a day number as its date key. */
  function Window(ledger: DailyLedger, keyOf: int -> string, today: int): (days: seq<DayEntry>)
    ensures |days| == 7
    ensures forall j :: 0 <= j < 7 ==> days[j].date == keyOf(today - 6 + j)
    ensures forall j :: 0 <= j < 7 ==> days[j].stats == StatsOn(ledger, keyOf(today - 6 + j))
  {
    seq(7, j requires 0 <= j < 7 => DayEntry(keyOf(today - 6 + j), StatsOn(ledger, keyOf(today - 6 + j))))
  }

  /** Changing one row changes the totals by that row's difference. */
  lemma {:induction false} TotalsAfterUpdate(days: seq<DayEntry>, i: nat, e: DayEntry)
    requires i < |days|
    ensures TotalVideos(days[i := e]) + days[i].stats.videosWatched == TotalVideos(days) + e.stats.videosWatched
    ensures TotalTime(days[i := e]) + days[i].stats.totalTimeWatched == TotalTime(days) + e.stats.totalTimeWatched
  {
    var n := |days|;
    var u := days[i := e];
    var init, uinit := days[..n - 1], u[..n - 1];
    assert TotalVideos(days) == TotalVideos(init) + days[n - 1].stats.videosWatched;
    assert TotalTime(days) == TotalTime(init) + days[n - 1].stats.totalTimeWatched;
    assert TotalVideos(u) == TotalVideos(uinit) + u[n - 1].stats.videosWatched;
    assert TotalTime(u) == TotalTime(uinit) + u[n - 1].stats.totalTimeWatched;
    if i < n - 1 {
      assert uinit == init[i := e];
      TotalsAfterUpdate(init, i, e);
      assert init[i] == days[i] && u[n - 1] == days[n - 1];
    } else {
      assert uinit == init && u[n - 1] == e;
    }
  }

  /** Counting a video today raises the week's totals by exactly that video
      and its seconds, provided today's key is not also the key of one of the
      six earlier days. */
  lemma RecordVideoRaisesWeek(ledger: DailyLedger, keyOf: int -> string, today: int, seconds: nat)
    requires forall d :: today - 6 <= d < today ==> keyOf(d) != keyOf(today)
    ensures var before := Window(ledger, keyOf, today);
      var after := Window(RecordVideo(ledger, keyOf(today), seconds), keyOf, today);
      && TotalVideos(after) == TotalVideos(before) + 1
      && TotalTime(after) == TotalTime(before) + seconds
  {
    var key := keyOf(today);
    var before := Window(ledger, keyOf, today);
    var after := Window(RecordVideo(ledger, key, seconds), keyOf, today);
    var old6 := before[6].stats;
    var e := DayEntry(key, DayStats(old6.videosWatched + 1, old6.totalTimeWatched + seconds));
    assert after == before[6 := e] by {
      forall j | 0 <= j < 6 ensures after[j] == before[j] {
        assert keyOf(today - 6 + j) != key;
      }
      assert after[6] == e;
    }
    TotalsAfterUpdate(before, 6, e);
  }
}
