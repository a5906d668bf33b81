/** The channel routes of apis/channel.py over the store model: registration
    checks, in order, that the webhook exists, that the handle is not yet
    registered, and that the provider resolves it; deletion reports whether
    the row existed. */
module ChannelRoutes {
  import opened Base
  import Store
  import Provider

  const WebhookMissing: string := "Webhook not found"
  const HandleTaken: string := "Channel with this handling ID already exists"
  /** The start of the `detail` when the provider lookup raised; the code
      appends the exception text. */
  const LookupFailed: string := "Failed to get YouTube channel info: "
  const ChannelMissing: string := "Channel not found"

  /** Every channel row names a webhook that exists. */
  predicate RefIntegrity(db: Store.Db) {
    forall k :: k in db.channels ==> db.channels[k].webhookId in db.webhooks
  }

  /** No two channel rows share a handle. */
  predicate HandlesUnique(db: Store.Db) {
    forall j, k :: j in db.channels && k in db.channels && j != k ==>
      db.channels[j].ytHandlingId != db.channels[k].ytHandlingId
  }

  /** The provider lookup the route calls: `get_channel_info` as written,
      or with its channel-id extraction corrected. */
  function LookupWith(client: Provider.Client, handle: string, api: Provider.Api, corrected: bool): Provider.Lookup {
    if corrected then Provider.GetChannelInfo(client, handle, api)
    else Provider.GetChannelInfoAsWritten(client, handle, api)
  }

  /** `create_channel`. With `corrected` false this is the program as it
      stands, over the lookup as written; with it true, over the corrected
      lookup. The handle's length bounds are the request model's
      validation, done before the route runs. */
  function CreateChannel(db: Store.Database, client: Provider.Client, webhookId: int, handle: string,
                         api: Provider.Api, now: Time, corrected: bool)
    : (r: (Store.Database, Provider.Client, Response<Store.Channel>))
    requires 1 <= |handle| <= 30
    ensures webhookId !in db.webhooks ==> r == (db, client, Rejected(404, WebhookMissing))
    ensures webhookId in db.webhooks && (exists k :: k in db.channels && db.channels[k].ytHandlingId == handle) ==>
              r == (db, client, Rejected(400, HandleTaken))
    ensures webhookId in db.webhooks && (forall k :: k in db.channels ==> db.channels[k].ytHandlingId != handle) ==>
              var lookup := LookupWith(client, handle, api, corrected);
              && r.1 == lookup.client
              && (lookup.result.Failure? ==> r.0 == db && r.2 == Rejected(400, LookupFailed))
              && (lookup.result.Success? ==>
                    && r.2.Ok? && r.2.status == 201
                    && r.2.body == Store.Channel(r.2.body.id, webhookId, lookup.result.value.channelId, handle,
                                                 lookup.result.value.channelName, now, now, now)
                    && r.2.body.id !in db.channels
                    && r.0.channels == db.channels[r.2.body.id := r.2.body]
                    && r.0.webhooks == db.webhooks)
  {
    if Store.GetWebhook(db, webhookId).None? then (db, client, Rejected(404, WebhookMissing))
    else if Store.ChannelByHandlingId(db, handle).Some? then (db, client, Rejected(400, HandleTaken))
    else
      var lookup := LookupWith(client, handle, api, corrected);
      match lookup.result
      case Failure(_) => (db, lookup.client, Rejected(400, LookupFailed))
      case Success(info) =>
        var (db', id) := Store.AddChannel(db, webhookId, info.channelId, handle, info.channelName, now);
        (db', lookup.client, Ok(201, Store.GetChannelById(db', id).value))
  }

  /** `delete_channel`: 404 exactly when no row has that id; otherwise the
      row is gone and nothing else changes. */
  function DeleteChannel(db: Store.Database, id: int): (r: (Store.Database, Response<()>))
    ensures r.1.Rejected? <==> id !in db.channels
    ensures r.1.Rejected? ==> r.1 == Rejected(404, ChannelMissing)
    ensures r.1.Ok? ==> r.1.status == 204
    ensures r.0.channels == db.channels - {id}
    ensures r.0.webhooks == db.webhooks
  {
    var (db', deleted) := Store.DeleteChannel(db, id);
    if deleted then (db', Ok(204, ())) else (db', Rejected(404, ChannelMissing))
  }

  // ------------------------------------------------------------ invariants

  /** Registration never creates a dangling reference: the webhook check
      comes first. */
  lemma CreateKeepsRefIntegrity(db: Store.Database, client: Provider.Client, webhookId: int, handle: string,
                                api: Provider.Api, now: Time, corrected: bool)
    requires 1 <= |handle| <= 30
    requires RefIntegrity(db)
    ensures RefIntegrity(CreateChannel(db, client, webhookId, handle, api, now, corrected).0)
  {
  }

  /** Registration keeps handles unique: the duplicate check runs on the
      handle string before anything is inserted. */
  lemma CreateKeepsHandlesUnique(db: Store.Database, client: Provider.Client, webhookId: int, handle: string,
                                 api: Provider.Api, now: Time, corrected: bool)
    requires 1 <= |handle| <= 30
    requires HandlesUnique(db)
    ensures HandlesUnique(CreateChannel(db, client, webhookId, handle, api, now, corrected).0)
  {
  }

  /** A rejected duplicate costs no quota; any other rejection after the
      webhook check has spent the lookup's units. */
  lemma DuplicateSpendsNoQuota(db: Store.Database, client: Provider.Client, webhookId: int, handle: string,
                               api: Provider.Api, now: Time, corrected: bool)
    requires 1 <= |handle| <= 30
    requires webhookId in db.webhooks
    ensures var r := CreateChannel(db, client, webhookId, handle, api, now, corrected);
            r.1 == client <==> exists k :: k in db.channels && db.channels[k].ytHandlingId == handle
  {
    if forall k :: k in db.channels ==> db.channels[k].ytHandlingId != handle {
      Provider.LookupChargesOneOrOneHundredOne(client, handle, api);
    }
  }

  lemma DeleteKeepsInvariants(db: Store.Database, id: int)
    requires RefIntegrity(db) && HandlesUnique(db)
    ensures RefIntegrity(DeleteChannel(db, id).0) && HandlesUnique(DeleteChannel(db, id).0)
  {
  }

  /** The duplicate check looks at the handle only: two handles the
      provider resolves to the same channel register it twice, and the
      poller then finds two rows with that provider id. */
  lemma SameChannelUnderTwoHandles(db: Store.Database, client: Provider.Client, webhookId: int,
                                   h1: string, h2: string, api: Provider.Api, now: Time,
                                   corrected: bool)
    requires 1 <= |h1| <= 30 && 1 <= |h2| <= 30 && h1 != h2
    requires webhookId in db.webhooks
    requires forall k :: k in db.channels ==> db.channels[k].ytHandlingId != h1 && db.channels[k].ytHandlingId != h2
    requires LookupWith(client, h1, api, corrected).result.Success?
    requires var c1 := LookupWith(client, h1, api, corrected).client;
             LookupWith(c1, h2, api, corrected).result.Success?
             && LookupWith(c1, h2, api, corrected).result.value.channelId
                == LookupWith(client, h1, api, corrected).result.value.channelId
    ensures var first := CreateChannel(db, client, webhookId, h1, api, now, corrected);
            var second := CreateChannel(first.0, first.1, webhookId, h2, api, now, corrected);
            && first.2.Ok? && second.2.Ok?
            && first.2.body.id != second.2.body.id
            && second.0.channels[first.2.body.id].ytChannelId == second.0.channels[second.2.body.id].ytChannelId
  {
    var first := CreateChannel(db, client, webhookId, h1, api, now, corrected);
    assert forall k :: k in first.0.channels ==> first.0.channels[k].ytHandlingId != h2;
  }

  /** The route as it stands rejects a handle of channel-id shape that the
      provider resolves: the lookup raises on the channel resource, so the
      answer is 400 with nothing stored, though the lookup's unit is spent. */
  lemma ChannelIdHandleRejectedAsWritten(db: Store.Database, client: Provider.Client, webhookId: int,
                                         handle: string, api: Provider.Api, now: Time, id: string, title: string)
    requires 1 <= |handle| <= 30
    requires webhookId in db.webhooks
    requires forall k :: k in db.channels ==> db.channels[k].ytHandlingId != handle
    requires Provider.IsChannelIdShape(Provider.StripAt(handle))
    requires api.channels(Provider.ById(Provider.StripAt(handle))) == Provider.Items([Provider.ChannelResource(id, title)])
    ensures CreateChannel(db, client, webhookId, handle, api, now, false)
            == (db, Provider.Client(client.quotaUsed + Provider.LookupCost), Rejected(400, LookupFailed))
  {
    Provider.ChannelIdHandleFailsAsWritten(client, handle, api, id, title);
  }

  /** Over the corrected lookup the same request registers the channel
      under the provider's id and title. */
  lemma ChannelIdHandleRegisteredWhenCorrected(db: Store.Database, client: Provider.Client, webhookId: int,
                                               handle: string, api: Provider.Api, now: Time, id: string,
                                               title: string)
    requires 1 <= |handle| <= 30
    requires webhookId in db.webhooks
    requires forall k :: k in db.channels ==> db.channels[k].ytHandlingId != handle
    requires Provider.IsChannelIdShape(Provider.StripAt(handle))
    requires api.channels(Provider.ById(Provider.StripAt(handle))) == Provider.Items([Provider.ChannelResource(id, title)])
    ensures var r := CreateChannel(db, client, webhookId, handle, api, now, true);
            r.2.Ok? && r.2.status == 201 && r.2.body.ytChannelId == id && r.2.body.ytChName == title
  {
    Provider.ChannelIdHandleFailsAsWritten(client, handle, api, id, title);
  }
}
