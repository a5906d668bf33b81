/** The SQLite store of utils/db_manager.py, as two finite maps keyed by rowid.
    Each table keeps its AUTOINCREMENT counter: rowids are handed out in
    increasing order and never reused, even after a delete. A SELECT without
    ORDER BY is read as a scan in rowid order, so "the first matching row" is
    the matching row with the least id. */
module Store {
  import opened Base

  datatype Webhook = Webhook(
    webhookId: int,
    workspaceName: string,
    webhookName: string,
    url: string,
    createAt: Time,
    updateAt: Time)

  datatype Channel = Channel(
    id: int,
    webhookId: int,
    ytChannelId: string,
    ytHandlingId: string,
    ytChName: string,
    lastCheckAt: Time,
    createAt: Time,
    updateAt: Time)

  datatype Db = Db(
    webhooks: map<int, Webhook>,
    channels: map<int, Channel>,
    nextWebhookId: int,
    nextChannelId: int)

  /** What SQLite guarantees of every reachable state: rowids are positive,
      below the AUTOINCREMENT counter, and stored in the row itself. */
  predicate Valid(db: Db) {
    && 1 <= db.nextWebhookId
    && 1 <= db.nextChannelId
    && (forall k :: k in db.webhooks ==> 1 <= k < db.nextWebhookId && db.webhooks[k].webhookId == k)
    && (forall k :: k in db.channels ==> 1 <= k < db.nextChannelId && db.channels[k].id == k)
  }

  type Database = db: Db | Valid(db) witness Db(map[], map[], 1, 1)

  /** A database `initialize_db` creates on a new file: both tables empty,
      both AUTOINCREMENT counters at their start. */
  const Empty: Database := Db(map[], map[], 1, 1)

  /** The keys of `m` in [1, n), ascending: the order of a rowid scan. */
  function RowIds<R>(m: map<int, R>, n: int): (ks: seq<int>)
    ensures forall i, j :: 0 <= i < j < |ks| ==> ks[i] < ks[j]
    ensures forall k :: k in ks <==> k in m && 1 <= k < n
    decreases n
  {
    if n <= 1 then []
    else
      var below := RowIds(m, n - 1);
      assert forall i :: 0 <= i < |below| ==> below[i] < n - 1 by {
        forall i | 0 <= i < |below| ensures below[i] < n - 1 {
          assert below[i] in below;
        }
      }
      below + (if n - 1 in m then [n - 1] else [])
  }

  /** A rowid scan visits the same ids in any two tables with the same keys. */
  lemma {:induction false} RowIdsDependOnKeysOnly<R, S>(m: map<int, R>, m': map<int, S>, n: int)
    requires m.Keys == m'.Keys
    ensures RowIds(m, n) == RowIds(m', n)
    decreases n
  {
    if n > 1 {
      RowIdsDependOnKeysOnly(m, m', n - 1);
      assert (n - 1 in m) == (n - 1 in m');
    }
  }

  /** The rows of `m` in rowid order: every row below `n` appears, at the
      position of its key in the scan. */
  function Scan<R>(m: map<int, R>, n: int): (r: seq<R>)
    ensures |r| == |RowIds(m, n)|
    ensures forall i :: 0 <= i < |r| ==> RowIds(m, n)[i] in m && r[i] == m[RowIds(m, n)[i]]
    ensures forall k :: k in m && 1 <= k < n ==> m[k] in r
  {
    var ks := RowIds(m, n);
    var r := seq(|ks|, i requires 0 <= i < |ks| => m[ks[i]]);
    assert forall k :: k in m && 1 <= k < n ==> m[k] in r by {
      forall k | k in m && 1 <= k < n
        ensures m[k] in r
      {
        var i :| 0 <= i < |ks| && ks[i] == k;
        assert r[i] == m[k];
      }
    }
    r
  }

  // ---------------------------------------------------------------- webhooks

  function GetWebhook(db: Database, webhookId: int): (r: Option<Webhook>)
    ensures r.Some? <==> webhookId in db.webhooks
    ensures r.Some? ==> r.value == db.webhooks[webhookId] && r.value.webhookId == webhookId
  {
    if webhookId in db.webhooks then Some(db.webhooks[webhookId]) else None
  }

  /** `SELECT * FROM webhook ORDER BY webhook_id`. */
  function AllWebhooks(db: Database): (r: seq<Webhook>)
    ensures forall i :: 0 <= i < |r| ==> r[i].webhookId in db.webhooks && db.webhooks[r[i].webhookId] == r[i]
    ensures forall k :: k in db.webhooks ==> db.webhooks[k] in r
    ensures forall i, j :: 0 <= i < j < |r| ==> r[i].webhookId < r[j].webhookId
  {
    Scan(db.webhooks, db.nextWebhookId)
  }

  /** `add_webhook`: a new row under the next rowid, both audit stamps set to
      the insertion time. */
  function AddWebhook(db: Database, workspaceName: string, webhookName: string, url: string, now: Time)
    : (r: (Database, int))
    ensures r.1 !in db.webhooks
    ensures forall k :: k in db.webhooks ==> k < r.1
    ensures r.0.webhooks == db.webhooks[r.1 := Webhook(r.1, workspaceName, webhookName, url, now, now)]
    ensures r.0.channels == db.channels
    ensures r.1 == db.nextWebhookId && r.0.nextWebhookId == r.1 + 1 && r.0.nextChannelId == db.nextChannelId
  {
    var id := db.nextWebhookId;
    (db.(webhooks := db.webhooks[id := Webhook(id, workspaceName, webhookName, url, now, now)],
         nextWebhookId := id + 1), id)
  }

  /** `delete_webhook`: removes that row only, and reports whether it existed.
      It does not look at the channels that reference the row. */
  function DeleteWebhook(db: Database, webhookId: int): (r: (Database, bool))
    ensures r.1 <==> webhookId in db.webhooks
    ensures r.0.webhooks == db.webhooks - {webhookId}
    ensures r.0.channels == db.channels
    ensures r.0.nextWebhookId == db.nextWebhookId && r.0.nextChannelId == db.nextChannelId
  {
    (db.(webhooks := db.webhooks - {webhookId}), webhookId in db.webhooks)
  }

  /** AUTOINCREMENT never hands a deleted rowid out again: a webhook added,
      deleted and followed by another gets a strictly larger rowid, and so
      does a channel. */
  lemma DeletedRowIdNeverReused(db: Database, workspaceName: string, webhookName: string, url: string,
                                webhookId: int, ytChannelId: string, handle: string, name: string, now: Time)
    ensures var (db1, first) := AddWebhook(db, workspaceName, webhookName, url, now);
            var db2 := DeleteWebhook(db1, first).0;
            AddWebhook(db2, workspaceName, webhookName, url, now).1 > first
    ensures var (db1, first) := AddChannel(db, webhookId, ytChannelId, handle, name, now);
            var db2 := DeleteChannel(db1, first).0;
            AddChannel(db2, webhookId, ytChannelId, handle, name, now).1 > first
  {
  }

  // ---------------------------------------------------------------- channels

  function GetChannelById(db: Database, id: int): (r: Option<Channel>)
    ensures r.Some? <==> id in db.channels
    ensures r.Some? ==> r.value == db.channels[id] && r.value.id == id
  {
    if id in db.channels then Some(db.channels[id]) else None
  }

  /** `SELECT * FROM channel ORDER BY id`. */
  function AllChannels(db: Database): (r: seq<Channel>)
    ensures forall i :: 0 <= i < |r| ==> r[i].id in db.channels && db.channels[r[i].id] == r[i]
    ensures forall k :: k in db.channels ==> db.channels[k] in r
    ensures forall i, j :: 0 <= i < j < |r| ==> r[i].id < r[j].id
  {
    Scan(db.channels, db.nextChannelId)
  }

  /** `get_channels_by_webhook`. */
  function ChannelsByWebhook(db: Database, webhookId: int): (r: seq<Channel>)
    ensures forall c :: c in r <==> c.id in db.channels && db.channels[c.id] == c && c.webhookId == webhookId
  {
    var all := AllChannels(db);
    var r := Filter(all, (c: Channel) => c.webhookId == webhookId);
    assert forall c: Channel :: c.id in db.channels && db.channels[c.id] == c && c.webhookId == webhookId ==> c in r by {
      forall c: Channel | c.id in db.channels && db.channels[c.id] == c && c.webhookId == webhookId
        ensures c in r
      {
        assert c in all;
        var i :| 0 <= i < |all| && all[i] == c;
      }
    }
    r
  }

  /** The least rowid in [lo, hi) whose row satisfies `p`. */
  function FirstRowId(m: map<int, Channel>, p: Channel -> bool, lo: int, hi: int): (r: Option<int>)
    ensures r.None? <==> forall k :: lo <= k < hi && k in m ==> !p(m[k])
    ensures r.Some? ==> lo <= r.value < hi && r.value in m && p(m[r.value])
    ensures r.Some? ==> forall k :: lo <= k < r.value && k in m ==> !p(m[k])
    decreases hi - lo
  {
    if lo >= hi then None
    else if lo in m && p(m[lo]) then Some(lo)
    else FirstRowId(m, p, lo + 1, hi)
  }

  /** The row of least id satisfying `p`: what `fetchone()` returns for a
      filtered `SELECT` on the channel table. */
  function FirstChannel(db: Database, p: Channel -> bool): (r: Option<Channel>)
    ensures r.None? <==> forall k :: k in db.channels ==> !p(db.channels[k])
    ensures r.Some? ==> r.value.id in db.channels && db.channels[r.value.id] == r.value && p(r.value)
    ensures r.Some? ==> forall k :: k in db.channels && p(db.channels[k]) ==> r.value.id <= k
  {
    match FirstRowId(db.channels, p, 1, db.nextChannelId)
    case Some(k) => Some(db.channels[k])
    case None => None
  }

  /** `get_channel_by_handling_id`. */
  function ChannelByHandlingId(db: Database, handle: string): (r: Option<Channel>)
    ensures r.None? <==> forall k :: k in db.channels ==> db.channels[k].ytHandlingId != handle
    ensures r.Some? ==> r.value.id in db.channels && db.channels[r.value.id] == r.value
                        && r.value.ytHandlingId == handle
  {
    FirstChannel(db, (c: Channel) => c.ytHandlingId == handle)
  }

  /** `get_channel_by_yt_channel_id`: the matching row of least id. */
  function ChannelByYtChannelId(db: Database, ytChannelId: string): (r: Option<Channel>)
    ensures r.None? <==> forall k :: k in db.channels ==> db.channels[k].ytChannelId != ytChannelId
    ensures r.Some? ==> r.value.id in db.channels && db.channels[r.value.id] == r.value
                        && r.value.ytChannelId == ytChannelId
    ensures r.Some? ==> forall k :: k in db.channels && db.channels[k].ytChannelId == ytChannelId ==> r.value.id <= k
  {
    FirstChannel(db, (c: Channel) => c.ytChannelId == ytChannelId)
  }

  /** `add_channel`: a new row under the next rowid; the watermark and both
      audit stamps are the insertion time. */
  function AddChannel(db: Database, webhookId: int, ytChannelId: string, handle: string, name: string, now: Time)
    : (r: (Database, int))
    ensures r.1 !in db.channels
    ensures forall k :: k in db.channels ==> k < r.1
    ensures r.0.channels == db.channels[r.1 := Channel(r.1, webhookId, ytChannelId, handle, name, now, now, now)]
    ensures r.0.webhooks == db.webhooks
    ensures r.1 == db.nextChannelId && r.0.nextChannelId == r.1 + 1 && r.0.nextWebhookId == db.nextWebhookId
  {
    var id := db.nextChannelId;
    (db.(channels := db.channels[id := Channel(id, webhookId, ytChannelId, handle, name, now, now, now)],
         nextChannelId := id + 1), id)
  }

  /** `delete_channel`: removes that row only, and reports whether it existed. */
  function DeleteChannel(db: Database, id: int): (r: (Database, bool))
    ensures r.1 <==> id in db.channels
    ensures r.0.channels == db.channels - {id}
    ensures r.0.webhooks == db.webhooks
    ensures r.0.nextWebhookId == db.nextWebhookId && r.0.nextChannelId == db.nextChannelId
  {
    (db.(channels := db.channels - {id}), id in db.channels)
  }

  // --------------------------------------------------------------- watermark

  /** Two rows that differ at most in the watermark and the update stamp. */
  predicate SameExceptWatermark(a: Channel, b: Channel) {
    a.(lastCheckAt := b.lastCheckAt, updateAt := b.updateAt) == b
  }

  /** The effect of the watermark UPDATE on one row: matching rows take the
      new watermark, and the row trigger sets `update_at` to the current time. */
  function Stamp(c: Channel, ytChannelId: string, t: Time, now: Time): Channel {
    if c.ytChannelId == ytChannelId then c.(lastCheckAt := t, updateAt := now) else c
  }

  /** `update_last_check_time`: every row with that provider id gets the
      watermark `checkTime`, or the current time when none is given; the
      result says whether any row matched. */
  function UpdateLastCheckTime(db: Database, ytChannelId: string, checkTime: Option<Time>, now: Time)
    : (r: (Database, bool))
    ensures r.1 <==> ChannelByYtChannelId(db, ytChannelId).Some?
    ensures r.0.webhooks == db.webhooks
    ensures r.0.nextWebhookId == db.nextWebhookId && r.0.nextChannelId == db.nextChannelId
    ensures r.0.channels.Keys == db.channels.Keys
    ensures forall k :: k in db.channels ==> SameExceptWatermark(db.channels[k], r.0.channels[k])
    ensures forall k :: k in db.channels && db.channels[k].ytChannelId == ytChannelId ==>
              r.0.channels[k].lastCheckAt == checkTime.GetOr(now) && r.0.channels[k].updateAt == now
    ensures forall k :: k in db.channels && db.channels[k].ytChannelId != ytChannelId ==>
              r.0.channels[k] == db.channels[k]
  {
    var t := checkTime.GetOr(now);
    var channels := map k | k in db.channels :: Stamp(db.channels[k], ytChannelId, t, now);
    var matched := exists k :: k in db.channels && db.channels[k].ytChannelId == ytChannelId;
    assert matched <==> ChannelByYtChannelId(db, ytChannelId).Some?;
    (db.(channels := channels), matched)
  }

  /** `get_last_check_time`: the stored watermark of the first row with that
      provider id, or the current time when there is none. */
  function LastCheckTime(db: Database, ytChannelId: string, now: Time): (r: Time)
    ensures (forall k :: k in db.channels ==> db.channels[k].ytChannelId != ytChannelId) ==> r == now
    ensures forall k :: k in db.channels && db.channels[k].ytChannelId == ytChannelId
                        && (forall j :: j in db.channels && j < k ==> db.channels[j].ytChannelId != ytChannelId)
                        ==> r == db.channels[k].lastCheckAt
  {
    match ChannelByYtChannelId(db, ytChannelId)
    case Some(c) => c.lastCheckAt
    case None => now
  }

  /** A new store lists nothing, and its first rows of either kind get
      rowid 1, as SQLite's AUTOINCREMENT starts there. */
  lemma FreshStore(workspaceName: string, webhookName: string, url: string, webhookId: int,
                   ytChannelId: string, handle: string, name: string, now: Time)
    ensures AllWebhooks(Empty) == [] && AllChannels(Empty) == []
    ensures AddWebhook(Empty, workspaceName, webhookName, url, now).1 == 1
    ensures AddChannel(Empty, webhookId, ytChannelId, handle, name, now).1 == 1
  {
  }

  /** Writing a watermark and reading it back: once `update_last_check_time`
      has matched, `get_last_check_time` returns the value written. */
  lemma WatermarkReadBack(db: Database, ytChannelId: string, t: Time, now: Time, later: Time)
    requires UpdateLastCheckTime(db, ytChannelId, Some(t), now).1
    ensures LastCheckTime(UpdateLastCheckTime(db, ytChannelId, Some(t), now).0, ytChannelId, later) == t
  {
    var db' := UpdateLastCheckTime(db, ytChannelId, Some(t), now).0;
    var c := ChannelByYtChannelId(db', ytChannelId);
    assert c.Some?;
  }

  /** Two states of the store that differ at most in channel watermarks:
      what a run of the poller can change. */
  predicate SameButWatermarks(a: Db, b: Db) {
    && a.webhooks == b.webhooks
    && a.nextWebhookId == b.nextWebhookId
    && a.nextChannelId == b.nextChannelId
    && a.channels.Keys == b.channels.Keys
    && (forall k :: k in a.channels ==> SameExceptWatermark(a.channels[k], b.channels[k]))
  }

  /** The watermark UPDATE is such a change. */
  lemma UpdateChangesOnlyWatermarks(db: Database, ytChannelId: string, checkTime: Option<Time>, now: Time)
    ensures SameButWatermarks(db, UpdateLastCheckTime(db, ytChannelId, checkTime, now).0)
  {
  }

  lemma SameButWatermarksTransitive(a: Db, b: Db, c: Db)
    requires SameButWatermarks(a, b) && SameButWatermarks(b, c)
    ensures SameButWatermarks(a, c)
  {
  }

  /** A rowid scan of two such states returns the same rows, position by
      position, up to their watermarks. */
  lemma AllChannelsOnVariants(a: Database, b: Database)
    requires SameButWatermarks(a, b)
    ensures |AllChannels(a)| == |AllChannels(b)|
    ensures forall i :: 0 <= i < |AllChannels(a)| ==> SameExceptWatermark(AllChannels(a)[i], AllChannels(b)[i])
  {
    RowIdsDependOnKeysOnly(a.channels, b.channels, a.nextChannelId);
  }

  /** Looking a channel up by provider id in two such states finds the same
      row (by id), up to its watermark. */
  lemma ChannelByYtOnVariants(a: Database, b: Database, query: string)
    requires SameButWatermarks(a, b)
    ensures var ra := ChannelByYtChannelId(a, query);
            var rb := ChannelByYtChannelId(b, query);
            (ra.Some? <==> rb.Some?)
            && (ra.Some? ==> ra.value.id == rb.value.id && SameExceptWatermark(ra.value, rb.value))
  {
    var ra := ChannelByYtChannelId(a, query);
    var rb := ChannelByYtChannelId(b, query);
    if ra.Some? {
      assert rb.Some? by {
        assert b.channels[ra.value.id].ytChannelId == query;
      }
      var i := ra.value.id;
      var j := rb.value.id;
      assert a.channels[j].ytChannelId == query;
      assert i <= j && j <= i;
    } else {
      assert forall k :: k in b.channels ==> b.channels[k].ytChannelId == a.channels[k].ytChannelId;
    }
  }
}
