/** The content-provider client of utils/youtube_api.py. Every request the
    SDK would send is answered by an oracle (`Api`); the only state the
    client owns is its cumulative quota tally. A reply the code cannot parse
    (a missing key, an unparsable timestamp) raises inside the same `try`
    as a failing request, so `Raised` stands for both. */
module Provider {
  import opened Base

  /** The process-wide client. The SDK handle and its credential are not
      modelled; the tally starts at 0 and is never reset. */
  datatype Client = Client(quotaUsed: nat)

  /** Units charged by the code for one `channels().list` call. */
  const LookupCost: nat := 1
  /** Units charged by the code for one `search().list` call. */
  const SearchCost: nat := 100
  /** `maxResults` of the uploads-playlist request. */
  const PageSize: nat := 5

  /** The three requests `get_channel_info` can make. */
  datatype ChannelQuery =
    | ById(id: string)               // channels().list(id=...)
    | ByUsername(username: string)   // channels().list(forUsername=...)
    | Search(q: string)              // search().list(q=..., type='channel')

  /** One item of a channel-lookup reply. A channel resource carries its id
      as a plain string; a search hit carries an object whose `channelId`
      field is the id. */
  datatype Hit =
    | ChannelResource(id: string, title: string)
    | SearchResult(channelId: string, title: string)

  /** The outcome of executing one request: its `items`, or an exception. */
  datatype Reply<T> = Items(items: seq<T>) | Raised

  /** One item of the batched `channels().list(part='contentDetails')` reply. */
  datatype UploadsEntry = UploadsEntry(channelId: string, uploadsPlaylist: string)

  /** One playlist item, with its `publishedAt` already parsed. */
  datatype Upload = Upload(videoId: string, title: string, publishedAt: Time)

  /** The provider as seen by the client: a reply for every request. The
      playlist oracle yields a playlist in the order the provider lists it;
      the client's page request sees its first `PageSize` entries. */
  datatype Api = Api(
    channels: ChannelQuery -> Reply<Hit>,
    uploads: seq<string> -> Reply<UploadsEntry>,
    playlist: string -> Reply<Upload>)

  datatype ChannelInfo = ChannelInfo(channelId: string, channelName: string)

  /** Why `get_channel_info` raised; each reaches the caller as a ValueError. */
  datatype LookupError = NotFound | RequestFailed | MalformedItem

  // ------------------------------------------------------------- singleton

  /** `YouTubeAPI.initialize`: the first call creates the client with a zero
      tally; every later call returns the one already created. */
  function Initialize(instance: Option<Client>): (r: (Option<Client>, Client))
    ensures r.0 == Some(r.1)
    ensures instance.Some? ==> r.1 == instance.value
    ensures instance.None? ==> r.1.quotaUsed == 0
  {
    match instance
    case Some(c) => (instance, c)
    case None => (Some(Client(0)), Client(0))
  }

  /** Initialising twice hands back the same client as initialising once. */
  lemma InitializeIsIdempotent(instance: Option<Client>)
    ensures Initialize(Initialize(instance).0) == Initialize(instance)
  {
  }

  /** `get_instance`: the client, or an error before `initialize`. */
  function GetInstance(instance: Option<Client>): (r: Result<Client, string>)
    ensures r.Success? <==> instance.Some?
    ensures r.Success? ==> r.value == instance.value
  {
    match instance
    case Some(c) => Success(c)
    case None => Failure("YouTubeAPI not initialized. Call initialize() first")
  }

  /** `get_daily_quota_used`. */
  function QuotaUsed(client: Client): nat {
    client.quotaUsed
  }

  /** The tally a fresh client reports is zero, and after one lookup it
      reports that lookup's charge. */
  lemma QuotaAfterFirstLookup(handle: string, api: Api)
    ensures QuotaUsed(Initialize(None).1) == 0
    ensures var used := QuotaUsed(GetChannelInfo(Initialize(None).1, handle, api).client);
            used == 1 || used == 101
  {
    LookupChargesOneOrOneHundredOne(Initialize(None).1, handle, api);
  }

  // -------------------------------------------------------- handle lookup

  /** `str.lstrip('@')`: every leading '@' removed. */
  function StripAt(s: string): (r: string)
    ensures |r| <= |s| && r == s[|s| - |r|..]
    ensures forall i :: 0 <= i < |s| - |r| ==> s[i] == '@'
    ensures r == [] || r[0] != '@'
    decreases |s|
  {
    if s != [] && s[0] == '@' then StripAt(s[1..]) else s
  }

  /** `startswith('UC')`: the shape of a canonical channel id. */
  predicate IsChannelIdShape(s: string) {
    |s| >= 2 && s[0] == 'U' && s[1] == 'C'
  }

  /** The units a sequence of lookup requests is charged. */
  function Cost(queries: seq<ChannelQuery>): nat
    decreases |queries|
  {
    if queries == [] then 0
    else (if queries[0].Search? then SearchCost else LookupCost) + Cost(queries[1..])
  }

  lemma CostOfOne(q: ChannelQuery)
    ensures Cost([q]) == if q.Search? then SearchCost else LookupCost
  {
    assert [q][1..] == [];
  }

  lemma CostOfTwo(q: ChannelQuery, q': ChannelQuery)
    ensures Cost([q, q']) == (if q.Search? then SearchCost else LookupCost) + (if q'.Search? then SearchCost else LookupCost)
  {
    assert [q, q'][1..] == [q'];
    CostOfOne(q');
  }

  /** The request phase of `get_channel_info`: which requests it sends, in
      order, the tally after charging each one before it executes, and the
      reply it goes on to read. */
  datatype Resolution = Resolution(client: Client, queries: seq<ChannelQuery>, reply: Reply<Hit>)

  function Resolve(client: Client, handle: string, api: Api): (r: Resolution)
    ensures r.client.quotaUsed == client.quotaUsed + Cost(r.queries)
    ensures IsChannelIdShape(StripAt(handle)) ==> r.queries == [ById(StripAt(handle))]
    ensures !IsChannelIdShape(StripAt(handle)) ==>
              && 1 <= |r.queries| <= 2
              && r.queries[0] == ByUsername(StripAt(handle))
              && (|r.queries| == 2 <==> api.channels(ByUsername(StripAt(handle))) == Items([]))
              && (|r.queries| == 2 ==> r.queries[1] == Search(handle))
    ensures r.reply == api.channels(r.queries[|r.queries| - 1])
  {
    var clean := StripAt(handle);
    if IsChannelIdShape(clean) then
      var queries := [ById(clean)];
      CostOfOne(ById(clean));
      Resolution(Client(client.quotaUsed + LookupCost), queries, api.channels(ById(clean)))
    else
      var first := api.channels(ByUsername(clean));
      if first == Items([]) then
        var queries := [ByUsername(clean), Search(handle)];
        CostOfTwo(ByUsername(clean), Search(handle));
        Resolution(Client(client.quotaUsed + LookupCost + SearchCost), queries, api.channels(Search(handle)))
      else
        var queries := [ByUsername(clean)];
        CostOfOne(ByUsername(clean));
        Resolution(Client(client.quotaUsed + LookupCost), queries, first)
  }

  /** The channel id of a reply item, as the code reads it:
      `item.get('id', {}).get('channelId', item.get('id'))`. On a channel
      resource `item['id']` is a string, which has no `.get`, so the
      expression raises. */
  function ChannelIdAsWritten(h: Hit): (r: Result<string, LookupError>)
    ensures r.Success? <==> h.SearchResult?
  {
    match h
    case SearchResult(cid, _) => Success(cid)
    case ChannelResource(_, _) => Failure(MalformedItem)
  }

  /** The channel id of a reply item as the expression is meant to read it:
      the `channelId` of a search hit, otherwise the item's own id. */
  function ChannelIdOf(h: Hit): (r: string)
    ensures h.SearchResult? ==> ChannelIdAsWritten(h) == Success(r)
  {
    match h
    case SearchResult(cid, _) => cid
    case ChannelResource(id, _) => id
  }

  function HitTitle(h: Hit): string {
    match h
    case SearchResult(_, title) => title
    case ChannelResource(_, title) => title
  }

  /** The outcome of `get_channel_info`: the tally after the call, the
      requests it sent, and the channel it resolved to or the error it raised. */
  datatype Lookup = Lookup(client: Client, queries: seq<ChannelQuery>, result: Result<ChannelInfo, LookupError>)

  /** Reads the reply `get_channel_info` ends with: no items is "not
      found", otherwise the first item gives the id (via `idOf`) and the
      snippet title. */
  function ReadReply(reply: Reply<Hit>, idOf: Hit -> Result<string, LookupError>)
    : (r: Result<ChannelInfo, LookupError>)
    ensures reply.Raised? ==> r == Failure(RequestFailed)
    ensures reply == Items([]) ==> r == Failure(NotFound)
    ensures reply.Items? && reply.items != [] ==>
              match idOf(reply.items[0])
              case Success(id) => r == Success(ChannelInfo(id, HitTitle(reply.items[0])))
              case Failure(e) => r == Failure(e)
  {
    match reply
    case Raised => Failure(RequestFailed)
    case Items(items) =>
      if items == [] then Failure(NotFound)
      else match idOf(items[0])
        case Success(id) => Success(ChannelInfo(id, HitTitle(items[0])))
        case Failure(e) => Failure(e)
  }

  /** `get_channel_info` with the id extraction corrected: a channel
      resource yields its own id. */
  function GetChannelInfo(client: Client, handle: string, api: Api): (r: Lookup)
    ensures r.queries == Resolve(client, handle, api).queries
    ensures r.client.quotaUsed == client.quotaUsed + Cost(r.queries)
    ensures r.client.quotaUsed - client.quotaUsed
              == if IsChannelIdShape(StripAt(handle)) then LookupCost
                 else if api.channels(ByUsername(StripAt(handle))) == Items([]) then LookupCost + SearchCost
                 else LookupCost
    ensures var last := api.channels(r.queries[|r.queries| - 1]);
            && (last.Raised? ==> r.result == Failure(RequestFailed))
            && (last == Items([]) ==> r.result == Failure(NotFound))
            && (last.Items? && last.items != [] ==>
                  r.result == Success(ChannelInfo(ChannelIdOf(last.items[0]), HitTitle(last.items[0]))))
  {
    var res := Resolve(client, handle, api);
    Lookup(res.client, res.queries, ReadReply(res.reply, (h: Hit) => Success(ChannelIdOf(h))))
  }

  /** `get_channel_info` exactly as written, with the raising id extraction. */
  function GetChannelInfoAsWritten(client: Client, handle: string, api: Api): (r: Lookup)
    ensures r.queries == Resolve(client, handle, api).queries
    ensures r.client == GetChannelInfo(client, handle, api).client
    ensures r.result.Success? ==> r.result == GetChannelInfo(client, handle, api).result
    ensures var last := api.channels(r.queries[|r.queries| - 1]);
            && (last.Raised? ==> r.result == Failure(RequestFailed))
            && (last == Items([]) ==> r.result == Failure(NotFound))
            && (last.Items? && last.items != [] && last.items[0].ChannelResource? ==>
                  r.result == Failure(MalformedItem))
            && (last.Items? && last.items != [] && last.items[0].SearchResult? ==>
                  r.result == Success(ChannelInfo(last.items[0].channelId, last.items[0].title)))
  {
    var res := Resolve(client, handle, api);
    Lookup(res.client, res.queries, ReadReply(res.reply, ChannelIdAsWritten))
  }

  /** Every lookup charges 1 or 101 units, whatever its outcome: the tally
      only grows. */
  lemma LookupChargesOneOrOneHundredOne(client: Client, handle: string, api: Api)
    ensures var d := GetChannelInfo(client, handle, api).client.quotaUsed - client.quotaUsed;
            d == 1 || d == 101
  {
  }

  /** As written, a handle of channel-id shape never resolves: the provider
      answers `channels().list(id=...)` with channel resources, and reading
      their id raises. The corrected lookup resolves the same handle. */
  lemma ChannelIdHandleFailsAsWritten(client: Client, handle: string, api: Api, id: string, title: string)
    requires IsChannelIdShape(StripAt(handle))
    requires api.channels(ById(StripAt(handle))) == Items([ChannelResource(id, title)])
    ensures GetChannelInfoAsWritten(client, handle, api).result.Failure?
    ensures GetChannelInfo(client, handle, api).result == Success(ChannelInfo(id, title))
    ensures GetChannelInfoAsWritten(client, handle, api).client == Client(client.quotaUsed + LookupCost)
  {
    CostOfOne(ById(StripAt(handle)));
  }

  // ------------------------------------------------------------ batch poll

  /** The dict `{channel_id: uploads_playlist}` built from the lookup reply
      in reply order; a later entry for the same channel overwrites. */
  function PlaylistMapping(entries: seq<UploadsEntry>): (m: map<string, string>)
    ensures forall i :: 0 <= i < |entries| ==> entries[i].channelId in m
    ensures forall c :: c in m ==> UploadsEntry(c, m[c]) in entries
    decreases |entries|
  {
    if entries == [] then map[]
    else
      var init := entries[..|entries| - 1];
      var last := entries[|entries| - 1];
      assert forall i :: 0 <= i < |init| ==> init[i] == entries[i];
      assert forall e :: e in init ==> e in entries;
      PlaylistMapping(init)[last.channelId := last.uploadsPlaylist]
  }

  /** The entry that wins for a channel is its last one in the reply. */
  lemma {:induction false} PlaylistMappingLastWins(entries: seq<UploadsEntry>, i: int)
    requires 0 <= i < |entries|
    requires forall j :: i < j < |entries| ==> entries[j].channelId != entries[i].channelId
    ensures PlaylistMapping(entries)[entries[i].channelId] == entries[i].uploadsPlaylist
    decreases |entries|
  {
    if i < |entries| - 1 {
      var init := entries[..|entries| - 1];
      assert init[i] == entries[i];
      PlaylistMappingLastWins(init, i);
    }
  }

  /** The first page of a playlist. */
  function Page(items: seq<Upload>): (r: seq<Upload>)
    ensures |r| <= PageSize && |r| <= |items|
    ensures r == items[..|r|]
    ensures |r| == PageSize || r == items
  {
    if |items| <= PageSize then items else items[..PageSize]
  }

  /** The uploads of one page published strictly after `since`, in page order. */
  function NewUploads(items: seq<Upload>, since: Time): (r: seq<Upload>)
    ensures |r| <= PageSize
    ensures forall i :: 0 <= i < |r| ==> r[i].publishedAt > since && r[i] in Page(items)
    ensures forall i :: 0 <= i < |Page(items)| && Page(items)[i].publishedAt > since ==> Page(items)[i] in r
    ensures forall u :: multiset(r)[u] == if u.publishedAt > since then multiset(Page(items))[u] else 0
    ensures Subsequence(r, Page(items))
  {
    Filter(Page(items), (u: Upload) => u.publishedAt > since)
  }

  /** The new uploads found for one channel's playlist, or nothing when the
      playlist request fails (the per-channel `except ... continue`). */
  function ChannelFindings(api: Api, playlist: string, since: Time): seq<Upload> {
    match api.playlist(playlist)
    case Raised => []
    case Items(items) => NewUploads(items, since)
  }

  /** Why the whole batch call raised. */
  datatype BatchError = LookupFailed

  /** `check_new_videos_batch`: one lookup of every channel's uploads
      playlist, then one page request per playlist. Only channels with at
      least one new upload appear in the result. The code charges nothing to
      the tally on this path. */
  function CheckNewVideosBatch(client: Client, channelIds: seq<string>, since: Time, api: Api)
    : (r: (Client, Result<map<string, seq<Upload>>, BatchError>))
    ensures r.0 == client
    ensures r.1.Failure? <==> api.uploads(channelIds).Raised?
    ensures r.1.Success? ==>
              var mapping := PlaylistMapping(api.uploads(channelIds).items);
              && (forall c :: c in r.1.value <==> c in mapping && ChannelFindings(api, mapping[c], since) != [])
              && (forall c :: c in r.1.value ==> r.1.value[c] == ChannelFindings(api, mapping[c], since))
    ensures r.1.Success? ==> forall c :: c in r.1.value ==>
              && r.1.value[c] != []
              && |r.1.value[c]| <= PageSize
              && forall i :: 0 <= i < |r.1.value[c]| ==> r.1.value[c][i].publishedAt > since
  {
    match api.uploads(channelIds)
    case Raised => (client, Failure(LookupFailed))
    case Items(entries) => (client, Success(Findings(api, PlaylistMapping(entries), since)))
  }

  /** The channels of `mapping` whose playlist yields at least one new
      upload, each with those uploads. */
  function Findings(api: Api, mapping: map<string, string>, since: Time): (found: map<string, seq<Upload>>)
    ensures forall c :: c in found <==> c in mapping && ChannelFindings(api, mapping[c], since) != []
    ensures forall c :: c in found ==> found[c] == ChannelFindings(api, mapping[c], since)
  {
    map c | c in mapping && ChannelFindings(api, mapping[c], since) != [] :: ChannelFindings(api, mapping[c], since)
  }

  /** Per-channel isolation: when one playlist request raises, every other
      channel's findings are exactly what they would have been, and that
      channel is simply absent. */
  lemma BatchIsolatesPlaylistFailures(client: Client, channelIds: seq<string>, since: Time,
                                      api: Api, failing: string)
    requires api.uploads(channelIds).Items?
    ensures var broken := api.(playlist := (p: string) => if p == failing then Raised else api.playlist(p));
            var good := CheckNewVideosBatch(client, channelIds, since, api).1;
            var bad := CheckNewVideosBatch(client, channelIds, since, broken).1;
            var mapping := PlaylistMapping(api.uploads(channelIds).items);
            && bad.Success?
            && (forall c :: c in bad.value <==> c in good.value && mapping[c] != failing)
            && (forall c :: c in bad.value ==> bad.value[c] == good.value[c])
  {
  }
}
