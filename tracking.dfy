/** The watch tracker: the persisted set of watched video ids, the videos found
    on the current page, and the daily-statistics ledger kept in
    `localStorage`. */
module Tracking {
  import opened Wrappers
  import opened Durations
  import opened Patterns
  import opened Ledger

  const WatchedKey := "radiopaedia-watched-videos"
  const StatsKey := "radiopaedia-daily-stats"

  /** A value held in `localStorage`, already decoded: the array of watched ids,
      the daily ledger, or whatever other scripts of the site keep under their
      own keys. The JSON text itself is not modelled. */
  datatype Stored = IdList(ids: seq<string>) | StatsTable(days: DailyLedger) | Foreign(text: string)

  type Storage = map<string, Stored>

  /** The two keys of the tracker hold values of the shape the tracker writes.
      The script does not guard its `JSON.parse` calls, so other contents are
      outside what it handles. */
  predicate WellShaped(storage: Storage) {
    && (WatchedKey in storage ==> storage[WatchedKey].IdList?)
    && (StatsKey in storage ==> storage[StatsKey].StatsTable?)
  }

  /** `JSON.parse(localStorage.getItem(WatchedKey) || "[]")`. */
  function StoredIds(storage: Storage): (ids: seq<string>)
    requires WellShaped(storage)
    ensures WatchedKey !in storage ==> ids == []
  {
    if WatchedKey in storage then storage[WatchedKey].ids else []
  }

  /** `JSON.parse(localStorage.getItem(StatsKey) || "{}")`. */
  function StoredLedger(storage: Storage): (ledger: DailyLedger)
    requires WellShaped(storage)
    ensures StatsKey !in storage ==> ledger == map[]
  {
    if StatsKey in storage then storage[StatsKey].days else map[]
  }

  /** No id occurs twice. */
  predicate NoDup(s: seq<string>) {
    forall i, j :: 0 <= i < j < |s| ==> s[i] != s[j]
  }

  /** `new Set(ids)` in iteration order: each id at its first occurrence. */
  function Dedup(ids: seq<string>): (r: seq<string>)
    ensures NoDup(r)
    ensures forall x :: x in r <==> x in ids
  {
    if ids == [] then []
    else
      var d := Dedup(ids[..|ids| - 1]);
      var x := ids[|ids| - 1];
      assert forall y :: y in ids <==> y in ids[..|ids| - 1] || y == x;
      if x in d then d else d + [x]
  }

  /** `Dedup` keeps the order of first occurrences: the set of a prefix of the
      array is a prefix of the set of the whole array, so an id first seen
      earlier comes earlier. */
  lemma {:induction false} DedupExtends(ids: seq<string>, k: nat)
    requires k <= |ids|
    ensures Dedup(ids[..k]) <= Dedup(ids)
  {
    if k < |ids| {
      var init := ids[..|ids| - 1];
      assert init[..k] == ids[..k];
      DedupExtends(init, k);
    } else {
      assert ids[..k] == ids;
    }
  }

  /** A list without repetitions is its own set. */
  lemma {:induction false} DedupOfNoDup(ids: seq<string>)
    requires NoDup(ids)
    ensures Dedup(ids) == ids
  {
    if ids != [] {
      var init := ids[..|ids| - 1];
      assert NoDup(init);
      DedupOfNoDup(init);
      assert ids[|ids| - 1] !in init;
      assert init + [ids[|ids| - 1]] == ids;
    }
  }

  /** A video found on the page: its Vimeo id and its duration, `null` until
      the player reports it. */
  datatype Video = Video(id: string, duration: Option<Seconds>)

  /** `videos.map(v => v.id)`. */
  function VideoIds(videos: seq<Video>): (ids: seq<string>)
    ensures |ids| == |videos|
    ensures forall i :: 0 <= i < |videos| ==> ids[i] == videos[i].id
  {
    seq(|videos|, i requires 0 <= i < |videos| => videos[i].id)
  }

  /** The scan of `videos.find(v => v.id === id)` from index `k`. */
  function FindVideoFrom(videos: seq<Video>, id: string, k: nat): (r: Option<nat>)
    ensures r.Some? ==> k <= r.value < |videos| && videos[r.value].id == id
    ensures r.Some? ==> forall j :: k <= j < r.value ==> videos[j].id != id
    ensures r.None? ==> forall j :: k <= j < |videos| ==> videos[j].id != id
    decreases |videos| - k
  {
    if k >= |videos| then None
    else if videos[k].id == id then Some(k)
    else FindVideoFrom(videos, id, k + 1)
  }

  /** `video && video.duration ? video.duration : 0`: the duration of the
      first page video with this id, or zero when there is no such video or its
      duration is still unknown. */
  function DurationOf(videos: seq<Video>, id: string): (d: Seconds)
    ensures (forall i :: 0 <= i < |videos| ==> videos[i].id != id) ==> d == 0.0
    ensures forall i :: 0 <= i < |videos| && videos[i].id == id && (forall j :: 0 <= j < i ==> videos[j].id != id) ==>
      d == (if videos[i].duration.Some? then videos[i].duration.value else 0.0)
  {
    match FindVideoFrom(videos, id, 0)
    case None => 0.0
    case Some(i) => if videos[i].duration.Some? then videos[i].duration.value else 0.0
  }

  /** `getCurrentPageWatchedCount`: how many of the page's ids are watched
      (`filter(...).length`, so an id shown twice counts twice). */
  function PageWatchedCount(pageIds: seq<string>, watched: seq<string>): (n: nat)
    ensures n <= |pageIds|
    ensures n == |pageIds| <==> forall i :: 0 <= i < |pageIds| ==> pageIds[i] in watched
    ensures n == 0 <==> forall i :: 0 <= i < |pageIds| ==> pageIds[i] !in watched
  {
    if pageIds == [] then 0
    else
      var init := pageIds[..|pageIds| - 1];
      assert forall i :: 0 <= i < |init| ==> init[i] == pageIds[i];
      PageWatchedCount(init, watched) + if pageIds[|pageIds| - 1] in watched then 1 else 0
  }

  /** Marking a new id raises the page's count by the number of times that id
      appears on the page. */
  lemma {:induction false} PageCountAfterMark(pageIds: seq<string>, watched: seq<string>, id: string)
    requires id !in watched
    ensures PageWatchedCount(pageIds, watched + [id]) == PageWatchedCount(pageIds, watched) + multiset(pageIds)[id]
  {
    if pageIds != [] {
      var init := pageIds[..|pageIds| - 1];
      PageCountAfterMark(init, watched, id);
      assert pageIds == init + [pageIds[|pageIds| - 1]];
      assert multiset(pageIds) == multiset(init) + multiset{pageIds[|pageIds| - 1]};
    }
  }

  /** The script's state at one moment: the page's videos, the in-memory
      `watchedVideos` set (in insertion order) and the contents of
      `localStorage`. */
  datatype Session = Session(videos: seq<Video>, watched: seq<string>, storage: Storage)

  /** The invariant of a running script: storage is well shaped, the watched
      list has no repetitions, and it is exactly the set a reload would read
      back from storage. */
  ghost predicate SessionValid(s: Session) {
    && WellShaped(s.storage)
    && NoDup(s.watched)
    && Dedup(StoredIds(s.storage)) == s.watched
  }

  /** A fresh page load over `storage` with `videos` found on the page:
      `watchedVideos = new Set(JSON.parse(... || "[]"))`. */
  function Load(storage: Storage, videos: seq<Video>): (s: Session)
    requires WellShaped(storage)
    ensures SessionValid(s)
    ensures s.storage == storage && s.videos == videos
    ensures s.watched == Dedup(StoredIds(storage))
    ensures forall x :: x in s.watched <==> x in StoredIds(storage)
  {
    Session(videos, Dedup(StoredIds(storage)), storage)
  }

  /** The state after `markVideoAsWatched(id)` on the day with key `todayKey`.
      An id already watched changes nothing. Otherwise the id is appended to
      the set, the set is saved, and today's counters go up by one video and by
      the whole seconds of its duration (zero when unknown). */
  function Marked(s: Session, id: string, todayKey: string): (r: Session)
    requires WellShaped(s.storage)
    ensures WellShaped(r.storage) && r.videos == s.videos
    ensures id in s.watched ==> r == s
    ensures id !in s.watched ==> r.watched == s.watched + [id]
    ensures id !in s.watched ==> StoredIds(r.storage) == r.watched
    ensures id !in s.watched ==>
      && StatsOn(StoredLedger(r.storage), todayKey).videosWatched == StatsOn(StoredLedger(s.storage), todayKey).videosWatched + 1
      && StatsOn(StoredLedger(r.storage), todayKey).totalTimeWatched
         == StatsOn(StoredLedger(s.storage), todayKey).totalTimeWatched + WholeSeconds(DurationOf(s.videos, id))
    ensures id !in s.watched ==>
      StoredLedger(r.storage) == RecordVideo(StoredLedger(s.storage), todayKey, WholeSeconds(DurationOf(s.videos, id)))
    ensures forall k :: k != todayKey ==> StatsOn(StoredLedger(r.storage), k) == StatsOn(StoredLedger(s.storage), k)
    ensures NeverDecreases(StoredLedger(s.storage), StoredLedger(r.storage))
    ensures forall key :: key != WatchedKey && key != StatsKey ==>
      (key in r.storage <==> key in s.storage) && (key in s.storage ==> r.storage[key] == s.storage[key])
  {
    if id in s.watched then s
    else
      var watched := s.watched + [id];
      var saved := s.storage[WatchedKey := IdList(watched)];
      var ledger := RecordVideo(StoredLedger(saved), todayKey, WholeSeconds(DurationOf(s.videos, id)));
      Session(s.videos, watched, saved[StatsKey := StatsTable(ledger)])
  }

  /** Marking keeps the session invariant, in particular a reload reads back
      exactly the watched set in memory. */
  lemma MarkedKeepsValid(s: Session, id: string, todayKey: string)
    requires SessionValid(s)
    ensures SessionValid(Marked(s, id, todayKey))
    ensures forall x :: x in Marked(s, id, todayKey).watched <==> x in s.watched || x == id
  {
    var r := Marked(s, id, todayKey);
    if id !in s.watched {
      assert NoDup(r.watched);
      DedupOfNoDup(r.watched);
    }
  }

  /** Marking is idempotent, whatever day the second mark happens on. */
  lemma MarkedIdempotent(s: Session, id: string, day1: string, day2: string)
    requires WellShaped(s.storage)
    ensures Marked(Marked(s, id, day1), id, day2) == Marked(s, id, day1)
  {
  }

  /** A video counts towards the daily statistics once ever: after it is
      marked and the page is reloaded (with any videos on the new page),
      marking it again on any day changes nothing. */
  lemma MarkedOnceAcrossReloads(s: Session, id: string, day1: string, day2: string, nextPage: seq<Video>)
    requires SessionValid(s)
    ensures var reloaded := Load(Marked(s, id, day1).storage, nextPage);
      Marked(reloaded, id, day2) == reloaded
  {
    MarkedKeepsValid(s, id, day1);
    var r := Marked(s, id, day1);
    var reloaded := Load(r.storage, nextPage);
    assert id in r.watched;
    assert reloaded.watched == r.watched;
  }

  /** The page's "X of Y watched" count rises, on a first mark, by the number
      of times the id appears on the page, and is unchanged otherwise. */
  lemma MarkedRaisesPageCount(s: Session, id: string, todayKey: string)
    requires WellShaped(s.storage)
    ensures var r := Marked(s, id, todayKey);
      PageWatchedCount(VideoIds(r.videos), r.watched)
      == PageWatchedCount(VideoIds(s.videos), s.watched) + (if id in s.watched then 0 else multiset(VideoIds(s.videos))[id])
  {
    if id !in s.watched {
      PageCountAfterMark(VideoIds(s.videos), s.watched, id);
    }
  }

  /** The userscript's module-level state, with "today" given as a day number
      and `dateKey` standing for `new Date(...).toISOString().split("T")[0]`. */
  class Tracker {
    const dateKey: int -> string
    var videos: seq<Video>
    var watched: seq<string>
    var storage: Storage

    function Snapshot(): Session
      reads this
    {
      Session(videos, watched, storage)
    }

    ghost predicate Valid()
      reads this
    {
      SessionValid(Snapshot())
    }

    /** The daily ledger as currently stored. */
    function StoredStats(): DailyLedger
      reads this
      requires Valid()
    {
      StoredLedger(storage)
    }

    /** Script start-up: the watched set is read from storage; no videos yet. */
    constructor (storage: Storage, dateKey: int -> string)
      requires WellShaped(storage)
      ensures Valid()
      ensures Snapshot() == Load(storage, [])
      ensures this.dateKey == dateKey
    {
      this.dateKey := dateKey;
      this.videos := [];
      this.watched := Dedup(StoredIds(storage));
      this.storage := storage;
    }

    /** One iframe of the page: a video is added, with unknown duration, only
        when its `src` yields an id. */
    method AddVideo(src: string) returns (added: bool)
      requires Valid()
      modifies this
      ensures Valid()
      ensures added <==> VideoId(src).Some?
      ensures videos == if added then old(videos) + [Video(VideoId(src).value, None)] else old(videos)
      ensures watched == old(watched) && storage == old(storage)
    {
      var videoId := VideoId(src);
      added := videoId.Some?;
      if added {
        videos := videos + [Video(videoId.value, None)];
      }
    }

    /** The player reported the duration of the video at `index`. */
    method SetDuration(index: nat, duration: Seconds)
      requires Valid() && index < |videos|
      modifies this
      ensures Valid()
      ensures videos == old(videos)[index := Video(old(videos)[index].id, Some(duration))]
      ensures watched == old(watched) && storage == old(storage)
    {
      videos := videos[index := Video(videos[index].id, Some(duration))];
    }

    /** `saveWatchedVideos`: the watched set is written, as an array, under its key. */
    method SaveWatchedVideos()
      requires WellShaped(storage)
      modifies this
      ensures storage == old(storage)[WatchedKey := IdList(watched)]
      ensures WellShaped(storage) && StoredIds(storage) == watched
      ensures videos == old(videos) && watched == old(watched)
    {
      storage := storage[WatchedKey := IdList(watched)];
    }

    /** `getTodayStats`: today's entry, or zeros when today has none. */
    function TodayStats(today: int): (s: DayStats)
      reads this
      requires Valid()
      ensures dateKey(today) in StoredStats() ==> s == StoredStats()[dateKey(today)]
      ensures dateKey(today) !in StoredStats() ==> s == NoActivity
    {
      StatsOn(StoredLedger(storage), dateKey(today))
    }

    /** `updateTodayStats(videoDuration)`: read the ledger, create today's
        entry with zeros if absent, add one video and the whole seconds of
        `videoDuration`, and write the ledger back. */
    method UpdateTodayStats(today: int, videoDuration: Seconds)
      requires WellShaped(storage)
      modifies this
      ensures storage == old(storage)[StatsKey := StatsTable(RecordVideo(StoredLedger(old(storage)), dateKey(today), WholeSeconds(videoDuration)))]
      ensures WellShaped(storage)
      ensures videos == old(videos) && watched == old(watched)
    {
      var todayKey := dateKey(today);
      var allStats := StoredLedger(storage);
      if todayKey !in allStats {
        allStats := allStats[todayKey := NoActivity];
      }
      var entry := allStats[todayKey];
      assert entry == StatsOn(StoredLedger(storage), todayKey);
      allStats := allStats[todayKey := DayStats(entry.videosWatched + 1, entry.totalTimeWatched + WholeSeconds(videoDuration))];
      assert allStats == RecordVideo(StoredLedger(storage), todayKey, WholeSeconds(videoDuration)) by {
        var expected := RecordVideo(StoredLedger(storage), todayKey, WholeSeconds(videoDuration));
        assert allStats.Keys == expected.Keys;
        assert forall k :: k in allStats ==> allStats[k] == expected[k];
      }
      storage := storage[StatsKey := StatsTable(allStats)];
    }

    /** `markVideoAsWatched(videoId)`, without the checkmark and header updates. */
    method MarkVideoAsWatched(videoId: string, today: int)
      requires Valid()
      modifies this
      ensures Valid()
      ensures Snapshot() == Marked(old(Snapshot()), videoId, dateKey(today))
    {
      ghost var before := Snapshot();
      if videoId in watched {
        return;
      }
      watched := watched + [videoId];
      SaveWatchedVideos();
      var videoDuration := DurationOf(videos, videoId);
      UpdateTodayStats(today, videoDuration);
      MarkedKeepsValid(before, videoId, dateKey(today));
    }

    /** `getLast7DaysStats`: seven rows, oldest first, for the days `today - 6`
        to `today`, each with the stored counters of that date or zeros. */
    method Last7DaysStats(today: int) returns (days: seq<DayEntry>)
      requires Valid()
      ensures |days| == 7
      ensures forall j :: 0 <= j < 7 ==> days[j].date == dateKey(today - 6 + j)
      ensures forall j :: 0 <= j < 7 ==> days[j].stats == StatsOn(StoredStats(), dateKey(today - 6 + j))
      ensures days == Window(StoredStats(), dateKey, today)
    {
      var allStats := StoredLedger(storage);
      days := [];
      var i := 6;
      while i >= 0
        invariant -1 <= i <= 6
        invariant |days| == 6 - i
        invariant forall j :: 0 <= j < |days| ==> days[j] == DayEntry(dateKey(today - 6 + j), StatsOn(allStats, dateKey(today - 6 + j)))
      {
        var key := dateKey(today - i);
        var dayStats := if key in allStats then allStats[key] else NoActivity;
        days := days + [DayEntry(key, dayStats)];
        i := i - 1;
      }
    }

    /** `getCurrentPageWatchedCount`. */
    function CurrentPageWatchedCount(): (n: nat)
      reads this
      ensures n <= |videos|
      ensures n == |videos| <==> forall i :: 0 <= i < |videos| ==> videos[i].id in watched
    {
      PageWatchedCount(VideoIds(videos), watched)
    }
  }
}
