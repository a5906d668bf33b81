/** One run of the poll cycle, `check_new_videos` in main.py (lines 33-102
    less the rescheduling, which lives in the Scheduler module).

    `Run` is the run as a pure function of its inputs: the channel list, the
    outcome of the batched provider query, a per-call oracle for the
    notifier's results, and the current time. `CheckNewVideos` is the run as
    the code performs it, threading the store through the loop and calling
    the notifier on the store as it stands at each call; `CheckNewVideosIsRun`
    proves the two agree. */
module Poller {
  import opened Base
  import Store
  import Provider
  import Notifier

  type Upload = Provider.Upload

  /** `timedelta(hours=1)`, in seconds: every run looks back this far from
      its `now`, for every channel alike. */
  const Lookback: Time := 3600

  const WatchUrl: string := "https://www.youtube.com/watch?v="

  /** One `send_notification` call: the provider channel id and the video. */
  datatype Notice = Notice(ytChannelId: string, video: Upload)

  /** What one run does: the notifier calls it makes, in order; how many of
      them returned true (`notification_count`); and the provider ids whose
      watermark it writes, in the order of the writes. */
  datatype RunResult = RunResult(attempts: seq<Notice>, count: nat, written: seq<string>)

  const NothingDone := RunResult([], 0, [])

  /** One channel's calls, successes and watermark write, ahead of the rest
      of the run. */
  function Extend(yt: string, videos: seq<Upload>, count: nat, rest: RunResult): RunResult {
    RunResult(NoticesFor(yt, videos) + rest.attempts, count + rest.count,
              (if videos != [] then [yt] else []) + rest.written)
  }

  /** `new_videos_by_channel.get(channel.yt_channel_id, [])`. */
  function VideosFor(found: map<string, seq<Upload>>, ytChannelId: string): seq<Upload> {
    if ytChannelId in found then found[ytChannelId] else []
  }

  function NoticesFor(ytChannelId: string, videos: seq<Upload>): (r: seq<Notice>)
    ensures |r| == |videos|
    ensures forall i :: 0 <= i < |r| ==> r[i] == Notice(ytChannelId, videos[i])
  {
    seq(|videos|, i requires 0 <= i < |videos| => Notice(ytChannelId, videos[i]))
  }

  /** The notifier calls for the channel with provider id `yt`. */
  function ChannelNotices(yt: string, found: map<string, seq<Upload>>): seq<Notice> {
    NoticesFor(yt, VideosFor(found, yt))
  }

  /** The notifier calls a run over the channels with provider ids `ids`
      should make: channel-list order first, then the provider's order
      within a channel. */
  function Planned(ids: seq<string>, found: map<string, seq<Upload>>): seq<Notice> {
    Flatten(seq(|ids|, i requires 0 <= i < |ids| => ChannelNotices(ids[i], found)))
  }

  lemma PlannedCons(ids: seq<string>, found: map<string, seq<Upload>>)
    requires ids != []
    ensures Planned(ids, found) == ChannelNotices(ids[0], found) + Planned(ids[1..], found)
  {
    var all := seq(|ids|, i requires 0 <= i < |ids| => ChannelNotices(ids[i], found));
    var tail := seq(|ids[1..]|, i requires 0 <= i < |ids[1..]| => ChannelNotices(ids[1..][i], found));
    assert all[1..] == tail;
  }

  /** The provider ids a run over `ids` should write: those listed that
      have at least one video. */
  predicate ShouldWrite(ids: seq<string>, found: map<string, seq<Upload>>, yt: string) {
    yt in ids && VideosFor(found, yt) != []
  }

  /** How many of the calls `ns`, numbered from `base`, the oracle reports
      as successful. */
  function Successes(ns: seq<Notice>, notify: (nat, Notice) -> bool, base: nat): (n: nat)
    ensures n <= |ns|
    decreases |ns|
  {
    if ns == [] then 0
    else (if notify(base, ns[0]) then 1 else 0) + Successes(ns[1..], notify, base + 1)
  }

  lemma {:induction false} SuccessesAppend(a: seq<Notice>, b: seq<Notice>, notify: (nat, Notice) -> bool, base: nat)
    ensures Successes(a + b, notify, base) == Successes(a, notify, base) + Successes(b, notify, base + |a|)
    decreases |a|
  {
    if a == [] {
      assert a + b == b;
    } else {
      assert (a + b)[1..] == a[1..] + b;
      SuccessesAppend(a[1..], b, notify, base + 1);
    }
  }

  /** The channel loop of `check_new_videos` with the notifier's results
      given by `notify`, indexed by call number from `base`: each channel's
      videos are notified in order, then its watermark is written if it had
      any. At most one write per channel, and no more successes than calls;
      the full account is `DispatchMeetsPlan`. */
  function Dispatch(ids: seq<string>, found: map<string, seq<Upload>>,
                    notify: (nat, Notice) -> bool, base: nat): (r: RunResult)
    ensures r.count <= |r.attempts|
    ensures |r.written| <= |ids|
    decreases |ids|
  {
    if ids == [] then NothingDone
    else
      var yt := ids[0];
      var here := NoticesFor(yt, VideosFor(found, yt));
      var rest := Dispatch(ids[1..], found, notify, base + |here|);
      Extend(yt, VideosFor(found, yt), Successes(here, notify, base), rest)
  }

  /** The calls are the planned ones in the planned order, the count is the
      number the oracle reports as successful, and the watermark writes are
      exactly the listed channels with at least one video. */
  lemma DispatchMeetsPlan(ids: seq<string>, found: map<string, seq<Upload>>,
                          notify: (nat, Notice) -> bool, base: nat)
    ensures var r := Dispatch(ids, found, notify, base);
            && r.attempts == Planned(ids, found)
            && r.count == Successes(r.attempts, notify, base)
            && forall yt :: yt in r.written <==> ShouldWrite(ids, found, yt)
  {
    DispatchAttempts(ids, found, notify, base);
    DispatchCount(ids, found, notify, base);
    DispatchWrites(ids, found, notify, base);
  }

  lemma {:induction false} DispatchAttempts(ids: seq<string>, found: map<string, seq<Upload>>,
                                            notify: (nat, Notice) -> bool, base: nat)
    ensures Dispatch(ids, found, notify, base).attempts == Planned(ids, found)
    decreases |ids|
  {
    if ids != [] {
      var here := ChannelNotices(ids[0], found);
      var rest := Dispatch(ids[1..], found, notify, base + |here|);
      assert Dispatch(ids, found, notify, base).attempts == here + rest.attempts;
      DispatchAttempts(ids[1..], found, notify, base + |here|);
      PlannedCons(ids, found);
    }
  }

  lemma {:induction false} DispatchCount(ids: seq<string>, found: map<string, seq<Upload>>,
                                         notify: (nat, Notice) -> bool, base: nat)
    ensures var r := Dispatch(ids, found, notify, base);
            r.count == Successes(r.attempts, notify, base)
    decreases |ids|
  {
    if ids != [] {
      var here := ChannelNotices(ids[0], found);
      var rest := Dispatch(ids[1..], found, notify, base + |here|);
      var r := Dispatch(ids, found, notify, base);
      assert r.attempts == here + rest.attempts && r.count == Successes(here, notify, base) + rest.count;
      DispatchCount(ids[1..], found, notify, base + |here|);
      SuccessesAppend(here, rest.attempts, notify, base);
    }
  }

  lemma {:induction false} DispatchWrites(ids: seq<string>, found: map<string, seq<Upload>>,
                                          notify: (nat, Notice) -> bool, base: nat)
    ensures forall yt :: yt in Dispatch(ids, found, notify, base).written <==> ShouldWrite(ids, found, yt)
    decreases |ids|
  {
    if ids != [] {
      var here := ChannelNotices(ids[0], found);
      var rest := Dispatch(ids[1..], found, notify, base + |here|);
      assert Dispatch(ids, found, notify, base).written == (if here != [] then [ids[0]] else []) + rest.written;
      DispatchWrites(ids[1..], found, notify, base + |here|);
      assert forall x :: x in ids <==> x == ids[0] || x in ids[1..];
    }
  }

  /** One run as a function of its inputs. No channels: nothing is queried,
      sent or written. A failed batch query: nothing is sent or written.
      Otherwise one call per video in channel-list then video order, the
      count of true results, and a watermark write for exactly the channels
      with at least one video. */
  function Run(ids: seq<string>, batch: Result<map<string, seq<Upload>>, Provider.BatchError>,
               notify: (nat, Notice) -> bool): (r: RunResult)
    ensures ids == [] || batch.Failure? ==> r == NothingDone
    ensures ids != [] && batch.Success? ==>
              && r.attempts == Planned(ids, batch.value)
              && (forall yt :: yt in r.written <==> ShouldWrite(ids, batch.value, yt))
    ensures r.count == Successes(r.attempts, notify, 0) && r.count <= |r.attempts|
  {
    if ids == [] then NothingDone
    else
      match batch
      case Failure(_) => NothingDone
      case Success(found) =>
        DispatchMeetsPlan(ids, found, notify, 0);
        Dispatch(ids, found, notify, 0)
  }

  // ---------------------------------------------------------- the code's run

  /** The message dict `check_new_videos` hands the notifier; `fmt` stands
      for `format_utc`. The link is the watch page, from which the video id
      reads back. */
  function MessageOf(video: Upload, fmt: Time -> string): (r: Notifier.Message)
    ensures r.title == video.title && r.publishedAt == fmt(video.publishedAt)
    ensures |r.url| == |WatchUrl| + |video.videoId|
    ensures r.url[..|WatchUrl|] == WatchUrl && r.url[|WatchUrl|..] == video.videoId
  {
    Notifier.Message(video.title, WatchUrl + video.videoId, fmt(video.publishedAt))
  }

  /** The notifier as the per-call oracle of `Run`: call `k` goes through
      the transport's `k`-th answer. */
  function Notify(db: Store.Database, transport: (nat, Notifier.Delivery) -> Notifier.TransportReply,
                  fmt: Time -> string): (nat, Notice) -> bool {
    (k: nat, n: Notice) =>
      Notifier.Send(db, n.ytChannelId, MessageOf(n.video, fmt), (d: Notifier.Delivery) => transport(k, d)).ok
  }

  /** One channel's notifications in `check_new_videos`: notify each video
      in order and count the successes, against the store as it stands. A
      provider id with no row gets nothing sent and nothing counted. */
  function NotifyAll(db: Store.Database, ytChannelId: string, videos: seq<Upload>,
                     transport: (nat, Notifier.Delivery) -> Notifier.TransportReply,
                     fmt: Time -> string, calls: nat): (n: nat)
    ensures n <= |videos|
    ensures Store.ChannelByYtChannelId(db, ytChannelId).None? ==> n == 0
    decreases |videos|
  {
    if videos == [] then 0
    else
      var sent := Notifier.Send(db, ytChannelId, MessageOf(videos[0], fmt),
                                (d: Notifier.Delivery) => transport(calls, d));
      (if sent.ok then 1 else 0) + NotifyAll(db, ytChannelId, videos[1..], transport, fmt, calls + 1)
  }

  /** The channel loop of `check_new_videos` as the code runs it: the store
      is threaded through the loop, each channel's watermark write lands
      before the next channel is processed. The webhook table is never
      touched, at most one write is made per channel, and no more successes
      are counted than calls made. */
  function Loop(chs: seq<Store.Channel>, found: map<string, seq<Upload>>, db: Store.Database,
                transport: (nat, Notifier.Delivery) -> Notifier.TransportReply, fmt: Time -> string,
                now: Time, calls: nat): (r: (Store.Database, RunResult))
    ensures r.0.webhooks == db.webhooks
    ensures r.1.count <= |r.1.attempts|
    ensures |r.1.written| <= |chs|
    decreases |chs|
  {
    if chs == [] then (db, NothingDone)
    else
      var yt := chs[0].ytChannelId;
      var videos := VideosFor(found, yt);
      var count := NotifyAll(db, yt, videos, transport, fmt, calls);
      var db1 := NextStore(db, yt, videos, now);
      var rest := Loop(chs[1..], found, db1, transport, fmt, now, calls + |videos|);
      (rest.0, Extend(yt, videos, count, rest.1))
  }

  /** The store after one channel's step: its watermark is written when it
      had videos. */
  function NextStore(db: Store.Database, ytChannelId: string, videos: seq<Upload>, now: Time): Store.Database {
    if videos != [] then Store.UpdateLastCheckTime(db, ytChannelId, None, now).0 else db
  }

  lemma NextStoreVariant(db0: Store.Database, db: Store.Database, ytChannelId: string, videos: seq<Upload>, now: Time)
    requires Store.SameButWatermarks(db0, db)
    ensures Store.SameButWatermarks(db0, NextStore(db, ytChannelId, videos, now))
  {
    if videos != [] {
      Store.UpdateChangesOnlyWatermarks(db, ytChannelId, None, now);
      Store.SameButWatermarksTransitive(db0, db, NextStore(db, ytChannelId, videos, now));
    }
  }

  /** The store, client and observable result after one run. */
  datatype Cycle = Cycle(db: Store.Database, client: Provider.Client, run: RunResult)

  function ChannelIds(chs: seq<Store.Channel>): (ids: seq<string>)
    ensures |ids| == |chs|
    ensures forall i :: 0 <= i < |chs| ==> ids[i] == chs[i].ytChannelId
  {
    seq(|chs|, i requires 0 <= i < |chs| => chs[i].ytChannelId)
  }

  lemma ChannelIdsCons(chs: seq<Store.Channel>)
    requires chs != []
    ensures ChannelIds(chs)[0] == chs[0].ytChannelId && ChannelIds(chs)[1..] == ChannelIds(chs[1..])
  {
  }

  /** The horizon of a run whose clock reads `now`. */
  function Horizon(now: Time): Time {
    now - Lookback
  }

  /** `check_new_videos`, the body at main.py lines 36-97: load every channel, query the
      provider once for uploads after `now - 1h`, notify, write watermarks. */
  function CheckNewVideos(db: Store.Database, client: Provider.Client, api: Provider.Api,
                          transport: (nat, Notifier.Delivery) -> Notifier.TransportReply,
                          fmt: Time -> string, now: Time): (r: Cycle)
    ensures r.client == client
    ensures Store.SameButWatermarks(db, r.db)
    ensures forall k :: k in db.channels ==>
              r.db.channels[k] == if db.channels[k].ytChannelId in r.run.written
                                  then db.channels[k].(lastCheckAt := now, updateAt := now)
                                  else db.channels[k]
  {
    var chs := Store.AllChannels(db);
    if chs == [] then Cycle(db, client, NothingDone)
    else
      var (client', batch) := Provider.CheckNewVideosBatch(client, ChannelIds(chs), Horizon(now), api);
      match batch
      case Failure(_) => Cycle(db, client', NothingDone)
      case Success(found) =>
        var (db', run) := Loop(chs, found, db, transport, fmt, now, 0);
        LoopWritesWatermarks(chs, found, db, transport, fmt, now, 0);
        Cycle(db', client', run)
  }

  // -------------------------------------------------------------- the proofs

  /** The store a run leaves behind: the rows of the written channels carry
      the run's `now` as watermark and update stamp; every other row,
      and the webhook table, are untouched. */
  predicate StampedFor(db: Store.Db, db': Store.Db, written: seq<string>, now: Time) {
    && Store.SameButWatermarks(db, db')
    && forall k :: k in db.channels ==>
         db'.channels[k] == if db.channels[k].ytChannelId in written
                            then db.channels[k].(lastCheckAt := now, updateAt := now)
                            else db.channels[k]
  }

  lemma {:induction false} LoopWritesWatermarks(chs: seq<Store.Channel>, found: map<string, seq<Upload>>,
                                                db: Store.Database,
                                                transport: (nat, Notifier.Delivery) -> Notifier.TransportReply,
                                                fmt: Time -> string, now: Time, calls: nat)
    ensures var r := Loop(chs, found, db, transport, fmt, now, calls);
            StampedFor(db, r.0, r.1.written, now)
    decreases |chs|
  {
    if chs != [] {
      var yt := chs[0].ytChannelId;
      var videos := VideosFor(found, yt);
      var db1 := NextStore(db, yt, videos, now);
      var rest := Loop(chs[1..], found, db1, transport, fmt, now, calls + |videos|);
      LoopStep(chs, found, db, transport, fmt, now, calls);
      LoopWritesWatermarks(chs[1..], found, db1, transport, fmt, now, calls + |videos|);
      StampStep(db, rest.0, yt, videos, rest.1.written, now);
    }
  }

  /** One channel's step composed with the rest of the run. */
  lemma StampStep(db: Store.Database, db': Store.Db, yt: string, videos: seq<Upload>, written: seq<string>, now: Time)
    requires StampedFor(NextStore(db, yt, videos, now), db', written, now)
    ensures StampedFor(db, db', (if videos != [] then [yt] else []) + written, now)
  {
    if videos != [] {
      var db1 := NextStore(db, yt, videos, now);
      Store.UpdateChangesOnlyWatermarks(db, yt, None, now);
      Store.SameButWatermarksTransitive(db, db1, db');
    }
  }

  /** The per-channel counts of `check_new_videos` are what the oracle
      `Notify` of the starting store reports, whatever watermarks have been
      written since. */
  lemma {:induction false} NotifyAllCounts(db: Store.Database, db0: Store.Database, ytChannelId: string,
                                           videos: seq<Upload>,
                                           transport: (nat, Notifier.Delivery) -> Notifier.TransportReply,
                                           fmt: Time -> string, calls: nat)
    requires Store.SameButWatermarks(db0, db)
    ensures NotifyAll(db, ytChannelId, videos, transport, fmt, calls)
            == Successes(NoticesFor(ytChannelId, videos), Notify(db0, transport, fmt), calls)
    decreases |videos|
  {
    if videos != [] {
      NotifyAllCounts(db, db0, ytChannelId, videos[1..], transport, fmt, calls + 1);
      assert NoticesFor(ytChannelId, videos)[1..] == NoticesFor(ytChannelId, videos[1..]);
      Notifier.SendOnVariants(db, db0, ytChannelId, MessageOf(videos[0], fmt),
                              (d: Notifier.Delivery) => transport(calls, d));
    }
  }

  /** The threaded loop makes the calls and counts of `Dispatch` with the
      notifier of the starting store as oracle. */
  lemma {:induction false} LoopIsDispatch(chs: seq<Store.Channel>, found: map<string, seq<Upload>>,
                                          db: Store.Database, db0: Store.Database,
                                          transport: (nat, Notifier.Delivery) -> Notifier.TransportReply,
                                          fmt: Time -> string, now: Time, calls: nat)
    requires Store.SameButWatermarks(db0, db)
    ensures Loop(chs, found, db, transport, fmt, now, calls).1
            == Dispatch(ChannelIds(chs), found, Notify(db0, transport, fmt), calls)
    decreases |chs|
  {
    if chs != [] {
      var yt := chs[0].ytChannelId;
      var videos := VideosFor(found, yt);
      NextStoreVariant(db0, db, yt, videos, now);
      LoopIsDispatch(chs[1..], found, NextStore(db, yt, videos, now), db0, transport, fmt, now, calls + |videos|);
      LoopIsDispatchStep(chs, found, db, db0, transport, fmt, now, calls);
    }
  }

  /** The inductive step of `LoopIsDispatch`: if the loop over the tail
      agrees with `Dispatch`, so does the loop over the whole list. */
  lemma LoopIsDispatchStep(chs: seq<Store.Channel>, found: map<string, seq<Upload>>,
                           db: Store.Database, db0: Store.Database,
                           transport: (nat, Notifier.Delivery) -> Notifier.TransportReply,
                           fmt: Time -> string, now: Time, calls: nat)
    requires chs != [] && Store.SameButWatermarks(db0, db)
    requires var videos := VideosFor(found, chs[0].ytChannelId);
             Loop(chs[1..], found, NextStore(db, chs[0].ytChannelId, videos, now), transport, fmt, now,
                  calls + |videos|).1
             == Dispatch(ChannelIds(chs[1..]), found, Notify(db0, transport, fmt), calls + |videos|)
    ensures Loop(chs, found, db, transport, fmt, now, calls).1
            == Dispatch(ChannelIds(chs), found, Notify(db0, transport, fmt), calls)
  {
    var notify := Notify(db0, transport, fmt);
    var yt := chs[0].ytChannelId;
    var videos := VideosFor(found, yt);
    var rest := Dispatch(ChannelIds(chs[1..]), found, notify, calls + |videos|);
    LoopHead(chs, found, db, db0, transport, fmt, now, calls);
    DispatchHead(chs, found, notify, calls);
  }

  /** One step of the loop, its count read through the oracle of the
      starting store. */
  lemma LoopHead(chs: seq<Store.Channel>, found: map<string, seq<Upload>>,
                 db: Store.Database, db0: Store.Database,
                 transport: (nat, Notifier.Delivery) -> Notifier.TransportReply,
                 fmt: Time -> string, now: Time, calls: nat)
    requires chs != [] && Store.SameButWatermarks(db0, db)
    ensures var yt := chs[0].ytChannelId;
            var videos := VideosFor(found, yt);
            var rest := Loop(chs[1..], found, NextStore(db, yt, videos, now), transport, fmt, now, calls + |videos|).1;
            Loop(chs, found, db, transport, fmt, now, calls).1
            == Extend(yt, videos, Successes(NoticesFor(yt, videos), Notify(db0, transport, fmt), calls), rest)
  {
    var yt := chs[0].ytChannelId;
    var videos := VideosFor(found, yt);
    NotifyAllCounts(db, db0, yt, videos, transport, fmt, calls);
    LoopStep(chs, found, db, transport, fmt, now, calls);
  }

  /** One step of `Dispatch` over the ids of a channel list. */
  lemma DispatchHead(chs: seq<Store.Channel>, found: map<string, seq<Upload>>,
                     notify: (nat, Notice) -> bool, base: nat)
    requires chs != []
    ensures var yt := chs[0].ytChannelId;
            var videos := VideosFor(found, yt);
            var rest := Dispatch(ChannelIds(chs[1..]), found, notify, base + |videos|);
            Dispatch(ChannelIds(chs), found, notify, base)
            == Extend(yt, videos, Successes(NoticesFor(yt, videos), notify, base), rest)
  {
    ChannelIdsCons(chs);
    DispatchStep(ChannelIds(chs), found, notify, base);
  }

  lemma LoopStep(chs: seq<Store.Channel>, found: map<string, seq<Upload>>, db: Store.Database,
                 transport: (nat, Notifier.Delivery) -> Notifier.TransportReply,
                 fmt: Time -> string, now: Time, calls: nat)
    requires chs != []
    ensures var yt := chs[0].ytChannelId;
            var videos := VideosFor(found, yt);
            var db1 := NextStore(db, yt, videos, now);
            var rest := Loop(chs[1..], found, db1, transport, fmt, now, calls + |videos|).1;
            Loop(chs, found, db, transport, fmt, now, calls).1
            == Extend(yt, videos, NotifyAll(db, yt, videos, transport, fmt, calls), rest)
    ensures var yt := chs[0].ytChannelId;
            var db1 := NextStore(db, yt, VideosFor(found, yt), now);
            Loop(chs, found, db, transport, fmt, now, calls).0
            == Loop(chs[1..], found, db1, transport, fmt, now, calls + |VideosFor(found, yt)|).0
  {
  }

  lemma DispatchStep(ids: seq<string>, found: map<string, seq<Upload>>,
                     notify: (nat, Notice) -> bool, base: nat)
    requires ids != []
    ensures var yt := ids[0];
            var videos := VideosFor(found, yt);
            var rest := Dispatch(ids[1..], found, notify, base + |videos|);
            Dispatch(ids, found, notify, base)
            == Extend(yt, videos, Successes(NoticesFor(yt, videos), notify, base), rest)
  {
  }

  /** The code's run is the pure run: same calls in the same order, same
      count, same writes, with the notifier of the starting store as the
      per-call oracle and the batch outcome of the one provider query. */
  lemma CheckNewVideosIsRun(db: Store.Database, client: Provider.Client, api: Provider.Api,
                            transport: (nat, Notifier.Delivery) -> Notifier.TransportReply,
                            fmt: Time -> string, now: Time)
    ensures var chs := Store.AllChannels(db);
            var batch := Provider.CheckNewVideosBatch(client, ChannelIds(chs), Horizon(now), api).1;
            CheckNewVideos(db, client, api, transport, fmt, now).run
            == Run(ChannelIds(chs), batch, Notify(db, transport, fmt))
  {
    var chs := Store.AllChannels(db);
    if chs != [] {
      var batch := Provider.CheckNewVideosBatch(client, ChannelIds(chs), Horizon(now), api).1;
      if batch.Success? {
        LoopIsDispatch(chs, batch.value, db, db, transport, fmt, now, 0);
      }
    }
  }

  // ------------------------------------------------------ what a run reads

  /** Every call a run plans is for a listed channel and a video found for
      it, and every video found for a listed channel is called for. */
  lemma {:induction false} PlannedMembers(ids: seq<string>, found: map<string, seq<Upload>>)
    ensures forall n :: n in Planned(ids, found) ==>
              n.ytChannelId in ids && n.ytChannelId in found && n.video in found[n.ytChannelId]
    ensures forall yt, v :: yt in ids && yt in found && v in found[yt] ==> Notice(yt, v) in Planned(ids, found)
    decreases |ids|
  {
    if ids != [] {
      PlannedMembers(ids[1..], found);
      PlannedCons(ids, found);
      var yt := ids[0];
      var here := ChannelNotices(yt, found);
      forall n | n in Planned(ids, found)
        ensures n.ytChannelId in ids && n.ytChannelId in found && n.video in found[n.ytChannelId]
      {
        if n in here {
          var j :| 0 <= j < |here| && here[j] == n;
        } else {
          assert n in Planned(ids[1..], found);
        }
      }
      forall x, v | x in ids && x in found && v in found[x]
        ensures Notice(x, v) in Planned(ids, found)
      {
        if x == yt {
          var j :| 0 <= j < |found[yt]| && found[yt][j] == v;
          assert here[j] == Notice(yt, v);
        } else {
          assert x in ids[1..];
        }
      }
    }
  }

  /** A run calls the notifier only for uploads published after its
      horizon, one hour before its `now`, and only for channels the store
      lists. */
  lemma RunNotifiesRecentUploads(db: Store.Database, client: Provider.Client, api: Provider.Api,
                                 transport: (nat, Notifier.Delivery) -> Notifier.TransportReply,
                                 fmt: Time -> string, now: Time)
    ensures var run := CheckNewVideos(db, client, api, transport, fmt, now).run;
            forall n :: n in run.attempts ==>
              && n.video.publishedAt > now - Lookback
              && exists c :: c in db.channels.Values && c.ytChannelId == n.ytChannelId
  {
    var chs := Store.AllChannels(db);
    var ids := ChannelIds(chs);
    var batch := Provider.CheckNewVideosBatch(client, ids, Horizon(now), api).1;
    var run := CheckNewVideos(db, client, api, transport, fmt, now).run;
    assert run == Run(ids, batch, Notify(db, transport, fmt)) by {
      CheckNewVideosIsRun(db, client, api, transport, fmt, now);
    }
    if ids != [] && batch.Success? {
      PlannedFromFound(ids, batch.value, Horizon(now));
      forall n | n in run.attempts
        ensures exists c :: c in db.channels.Values && c.ytChannelId == n.ytChannelId
      {
        ListedIdHasRow(db, n.ytChannelId);
      }
    }
  }

  /** Every planned call is for a listed channel and a video newer than
      the horizon the findings were filtered by. */
  lemma PlannedFromFound(ids: seq<string>, found: map<string, seq<Upload>>, since: Time)
    requires forall c :: c in found ==> forall i :: 0 <= i < |found[c]| ==> found[c][i].publishedAt > since
    ensures forall n :: n in Planned(ids, found) ==> n.ytChannelId in ids && n.video.publishedAt > since
  {
    PlannedMembers(ids, found);
    forall n | n in Planned(ids, found)
      ensures n.video.publishedAt > since
    {
      var vs := found[n.ytChannelId];
      var j :| 0 <= j < |vs| && vs[j] == n.video;
    }
  }

  /** Every id the run lists belongs to a stored row. */
  lemma ListedIdHasRow(db: Store.Database, yt: string)
    requires yt in ChannelIds(Store.AllChannels(db))
    ensures exists c :: c in db.channels.Values && c.ytChannelId == yt
  {
    var chs := Store.AllChannels(db);
    var i :| 0 <= i < |chs| && ChannelIds(chs)[i] == yt;
    assert chs[i].id in db.channels && db.channels[chs[i].id] == chs[i];
    assert chs[i] in db.channels.Values;
  }

  /** `Dispatch` reads the oracle only through its answers. */
  lemma {:induction false} DispatchOnAgreeing(ids: seq<string>, found: map<string, seq<Upload>>,
                                              notify: (nat, Notice) -> bool, notify': (nat, Notice) -> bool,
                                              base: nat)
    requires forall k, n :: notify(k, n) == notify'(k, n)
    ensures Dispatch(ids, found, notify, base) == Dispatch(ids, found, notify', base)
    decreases |ids|
  {
    if ids != [] {
      var yt := ids[0];
      var videos := VideosFor(found, yt);
      var here := NoticesFor(yt, videos);
      var rest := Dispatch(ids[1..], found, notify, base + |videos|);
      assert rest == Dispatch(ids[1..], found, notify', base + |videos|) by {
        DispatchOnAgreeing(ids[1..], found, notify, notify', base + |videos|);
      }
      assert Successes(here, notify, base) == Successes(here, notify', base) by {
        SuccessesOnAgreeing(here, notify, notify', base);
      }
      DispatchStep(ids, found, notify, base);
      DispatchStep(ids, found, notify', base);
    }
  }

  lemma {:induction false} SuccessesOnAgreeing(ns: seq<Notice>, notify: (nat, Notice) -> bool,
                                               notify': (nat, Notice) -> bool, base: nat)
    requires forall k, n :: notify(k, n) == notify'(k, n)
    ensures Successes(ns, notify, base) == Successes(ns, notify', base)
    decreases |ns|
  {
    if ns != [] {
      SuccessesOnAgreeing(ns[1..], notify, notify', base + 1);
    }
  }

  /** A run does not read the watermarks: on two stores that differ only
      in `last_check_at` and `update_at`, it makes the same calls, counts
      the same successes and writes the same watermarks. */
  lemma RunIgnoresStoredWatermarks(a: Store.Database, b: Store.Database, client: Provider.Client,
                                   api: Provider.Api,
                                   transport: (nat, Notifier.Delivery) -> Notifier.TransportReply,
                                   fmt: Time -> string, now: Time)
    requires Store.SameButWatermarks(a, b)
    ensures CheckNewVideos(a, client, api, transport, fmt, now).run
            == CheckNewVideos(b, client, api, transport, fmt, now).run
  {
    var chsA := Store.AllChannels(a);
    var chsB := Store.AllChannels(b);
    var ids := ChannelIds(chsA);
    assert ids == ChannelIds(chsB) by {
      Store.AllChannelsOnVariants(a, b);
    }
    var batch := Provider.CheckNewVideosBatch(client, ids, Horizon(now), api).1;
    assert CheckNewVideos(a, client, api, transport, fmt, now).run == Run(ids, batch, Notify(a, transport, fmt)) by {
      CheckNewVideosIsRun(a, client, api, transport, fmt, now);
    }
    assert CheckNewVideos(b, client, api, transport, fmt, now).run == Run(ids, batch, Notify(b, transport, fmt)) by {
      CheckNewVideosIsRun(b, client, api, transport, fmt, now);
    }
    NotifyOnVariants(a, b, transport, fmt);
    RunOnAgreeing(ids, batch, Notify(a, transport, fmt), Notify(b, transport, fmt));
  }

  lemma RunOnAgreeing(ids: seq<string>, batch: Result<map<string, seq<Upload>>, Provider.BatchError>,
                      notify: (nat, Notice) -> bool, notify': (nat, Notice) -> bool)
    requires forall k, n :: notify(k, n) == notify'(k, n)
    ensures Run(ids, batch, notify) == Run(ids, batch, notify')
  {
    if ids != [] && batch.Success? {
      DispatchOnAgreeing(ids, batch.value, notify, notify', 0);
    }
  }

  lemma NotifyOnVariants(a: Store.Database, b: Store.Database,
                         transport: (nat, Notifier.Delivery) -> Notifier.TransportReply, fmt: Time -> string)
    requires Store.SameButWatermarks(a, b)
    ensures forall k, n :: Notify(a, transport, fmt)(k, n) == Notify(b, transport, fmt)(k, n)
  {
    forall k, n ensures Notify(a, transport, fmt)(k, n) == Notify(b, transport, fmt)(k, n) {
      Notifier.SendOnVariants(a, b, n.ytChannelId, MessageOf(n.video, fmt),
                              (d: Notifier.Delivery) => transport(k, d));
    }
  }

  /** No upload on the first page of any playlist was published in
      `(from, to]`. */
  ghost predicate QuietBetween(api: Provider.Api, from: Time, to: Time) {
    forall p, u :: api.playlist(p).Items? && u in Provider.Page(api.playlist(p).items) ==>
      !(from < u.publishedAt <= to)
  }

  lemma BatchAcrossQuietHorizons(client: Provider.Client, ids: seq<string>, api: Provider.Api,
                                 h1: Time, h2: Time)
    requires h1 <= h2 && QuietBetween(api, h1, h2)
    ensures Provider.CheckNewVideosBatch(client, ids, h1, api) == Provider.CheckNewVideosBatch(client, ids, h2, api)
  {
    if api.uploads(ids).Items? {
      var mapping := Provider.PlaylistMapping(api.uploads(ids).items);
      forall p ensures Provider.ChannelFindings(api, p, h1) == Provider.ChannelFindings(api, p, h2) {
        FindingsAcrossQuietHorizons(api, p, h1, h2);
      }
      assert Provider.Findings(api, mapping, h1) == Provider.Findings(api, mapping, h2);
    }
  }

  lemma FindingsAcrossQuietHorizons(api: Provider.Api, p: string, h1: Time, h2: Time)
    requires h1 <= h2 && QuietBetween(api, h1, h2)
    ensures Provider.ChannelFindings(api, p, h1) == Provider.ChannelFindings(api, p, h2)
  {
    if api.playlist(p).Items? {
      var page := Provider.Page(api.playlist(p).items);
      forall i | 0 <= i < |page|
        ensures (page[i].publishedAt > h1) == (page[i].publishedAt > h2)
      {
        assert page[i] in page;
      }
      FilterAgrees(page, (u: Upload) => u.publishedAt > h1, (u: Upload) => u.publishedAt > h2);
    }
  }

  /** Runs are not idempotent: the watermark a run writes is never read,
      and the next run looks back a full hour from its own `now`. When the
      provider answers both runs alike and no first-page upload was
      published between the two horizons, a later run on the store the
      first left behind calls the notifier for exactly the same videos
      again and rewrites the same watermarks. */
  lemma BackToBackRunsResend(db: Store.Database, client: Provider.Client, api: Provider.Api,
                             transport: (nat, Notifier.Delivery) -> Notifier.TransportReply,
                             transport': (nat, Notifier.Delivery) -> Notifier.TransportReply,
                             fmt: Time -> string, t1: Time, t2: Time)
    requires t1 <= t2 && QuietBetween(api, Horizon(t1), Horizon(t2))
    ensures var first := CheckNewVideos(db, client, api, transport, fmt, t1);
            var second := CheckNewVideos(first.db, first.client, api, transport', fmt, t2);
            && second.run.attempts == first.run.attempts
            && forall yt :: yt in second.run.written <==> yt in first.run.written
  {
    var first := CheckNewVideos(db, client, api, transport, fmt, t1);
    RunIgnoresStoredWatermarks(first.db, db, client, api, transport', fmt, t2);
    var chs := Store.AllChannels(db);
    BatchAcrossQuietHorizons(client, ChannelIds(chs), api, Horizon(t1), Horizon(t2));
    CheckNewVideosIsRun(db, client, api, transport, fmt, t1);
    CheckNewVideosIsRun(db, client, api, transport', fmt, t2);
  }

  // ---------------------------------------------------------- watermarks

  /** With no channels, or when the batch query raises, a run sends
      nothing and leaves the store exactly as it was. */
  lemma IdleRunChangesNothing(db: Store.Database, client: Provider.Client, api: Provider.Api,
                              transport: (nat, Notifier.Delivery) -> Notifier.TransportReply,
                              fmt: Time -> string, now: Time)
    requires Store.AllChannels(db) == []
             || Provider.CheckNewVideosBatch(client, ChannelIds(Store.AllChannels(db)), Horizon(now), api).1.Failure?
    ensures var r := CheckNewVideos(db, client, api, transport, fmt, now);
            r.run == NothingDone && r.db == db
  {
  }

  /** A row's watermark is written, to the run's `now`, exactly when
      the batch found uploads for its provider id; every other row is left
      as it was. */
  lemma WatermarkWrittenIffFound(db: Store.Database, client: Provider.Client, api: Provider.Api,
                                 transport: (nat, Notifier.Delivery) -> Notifier.TransportReply,
                                 fmt: Time -> string, now: Time, k: int)
    requires k in db.channels
    ensures var chs := Store.AllChannels(db);
            var batch := Provider.CheckNewVideosBatch(client, ChannelIds(chs), Horizon(now), api).1;
            var r := CheckNewVideos(db, client, api, transport, fmt, now);
            var c := db.channels[k];
            r.db.channels[k] == if batch.Success? && c.ytChannelId in batch.value
                                then c.(lastCheckAt := now, updateAt := now)
                                else c
  {
    var chs := Store.AllChannels(db);
    var ids := ChannelIds(chs);
    var batch := Provider.CheckNewVideosBatch(client, ids, Horizon(now), api).1;
    var r := CheckNewVideos(db, client, api, transport, fmt, now);
    var c := db.channels[k];
    assert r.run == Run(ids, batch, Notify(db, transport, fmt)) by {
      CheckNewVideosIsRun(db, client, api, transport, fmt, now);
    }
    assert c.ytChannelId in ids by {
      assert c in chs;
      var i :| 0 <= i < |chs| && chs[i] == c;
      assert ids[i] == c.ytChannelId;
    }
    RunWritesFound(ids, batch, Notify(db, transport, fmt), c.ytChannelId);
  }

  /** A listed id is written exactly when the batch succeeded and found
      uploads for it. */
  lemma RunWritesFound(ids: seq<string>, batch: Result<map<string, seq<Upload>>, Provider.BatchError>,
                       notify: (nat, Notice) -> bool, yt: string)
    requires yt in ids
    requires batch.Success? ==> forall c :: c in batch.value ==> batch.value[c] != []
    ensures yt in Run(ids, batch, notify).written <==> batch.Success? && yt in batch.value
  {
  }

  /** The watermark does not depend on delivery: whatever the webhook
      endpoints answer, a run leaves every row in the same state. */
  lemma WatermarksIgnoreDelivery(db: Store.Database, client: Provider.Client, api: Provider.Api,
                                 transport: (nat, Notifier.Delivery) -> Notifier.TransportReply,
                                 transport': (nat, Notifier.Delivery) -> Notifier.TransportReply,
                                 fmt: Time -> string, now: Time, k: int)
    requires k in db.channels
    ensures CheckNewVideos(db, client, api, transport, fmt, now).db.channels[k]
            == CheckNewVideos(db, client, api, transport', fmt, now).db.channels[k]
  {
    WatermarkWrittenIffFound(db, client, api, transport, fmt, now, k);
    WatermarkWrittenIffFound(db, client, api, transport', fmt, now, k);
  }
}
