/** The webhook routes of apis/webhook.py over the store model. Deletion is
    guarded by a reference check that runs before the existence check; the
    store's own delete does not look at channels. */
module WebhookRoutes {
  import opened Base
  import Store
  import ChannelRoutes

  const WebhookInUse: string := "Cannot delete webhook with associated channels"
  const WebhookMissing: string := "Webhook not found"

  /** `create_webhook`. The name bounds are the request model's validation,
      done before the route runs. */
  function CreateWebhook(db: Store.Database, workspaceName: string, webhookName: string, url: string, now: Time)
    : (r: (Store.Database, Response<Store.Webhook>))
    requires 1 <= |workspaceName| <= 30 && 1 <= |webhookName| <= 20
    ensures r.1.Ok? && r.1.status == 201
    ensures r.1.body == Store.Webhook(r.1.body.webhookId, workspaceName, webhookName, url, now, now)
    ensures r.1.body.webhookId !in db.webhooks
    ensures r.0.webhooks == db.webhooks[r.1.body.webhookId := r.1.body]
    ensures r.0.channels == db.channels
  {
    var (db', id) := Store.AddWebhook(db, workspaceName, webhookName, url, now);
    (db', Ok(201, Store.GetWebhook(db', id).value))
  }

  /** `delete_webhook`: 400 while any channel references the id, otherwise
      404 when there is no such row, otherwise 204 with only that row gone.
      A rejection leaves the store as it was. */
  function DeleteWebhook(db: Store.Database, webhookId: int): (r: (Store.Database, Response<()>))
    ensures var referenced := exists k :: k in db.channels && db.channels[k].webhookId == webhookId;
            && (referenced ==> r == (db, Rejected(400, WebhookInUse)))
            && (!referenced && webhookId !in db.webhooks ==> r == (db, Rejected(404, WebhookMissing)))
            && (!referenced && webhookId in db.webhooks ==>
                  && r.1 == Ok(204, ())
                  && r.0.webhooks == db.webhooks - {webhookId}
                  && r.0.channels == db.channels)
  {
    ReferencedIffListed(db, webhookId);
    if Store.ChannelsByWebhook(db, webhookId) != [] then
      (db, Rejected(400, WebhookInUse))
    else
      var (db', deleted) := Store.DeleteWebhook(db, webhookId);
      if deleted then (db', Ok(204, ()))
      else
        (db, Rejected(404, WebhookMissing))
  }

  lemma ReferencedIffListed(db: Store.Database, webhookId: int)
    ensures (exists k :: k in db.channels && db.channels[k].webhookId == webhookId)
            <==> Store.ChannelsByWebhook(db, webhookId) != []
  {
    var listed := Store.ChannelsByWebhook(db, webhookId);
    if exists k :: k in db.channels && db.channels[k].webhookId == webhookId {
      var k :| k in db.channels && db.channels[k].webhookId == webhookId;
      assert db.channels[k] in listed;
    }
    if listed != [] {
      assert listed[0] in listed;
      assert db.channels[listed[0].id].webhookId == webhookId;
    }
  }

  lemma CreateKeepsRefIntegrity(db: Store.Database, workspaceName: string, webhookName: string, url: string,
                                now: Time)
    requires 1 <= |workspaceName| <= 30 && 1 <= |webhookName| <= 20
    requires ChannelRoutes.RefIntegrity(db)
    ensures ChannelRoutes.RefIntegrity(CreateWebhook(db, workspaceName, webhookName, url, now).0)
  {
  }

  /** The route's guard is what keeps references intact: the store's delete
      alone can leave a channel pointing at a removed webhook. */
  lemma DeleteKeepsRefIntegrity(db: Store.Database, webhookId: int)
    requires ChannelRoutes.RefIntegrity(db)
    ensures ChannelRoutes.RefIntegrity(DeleteWebhook(db, webhookId).0)
  {
  }

  lemma StoreDeleteAloneDangles(db: Store.Database, k: int)
    requires k in db.channels && db.channels[k].webhookId in db.webhooks
    ensures !ChannelRoutes.RefIntegrity(Store.DeleteWebhook(db, db.channels[k].webhookId).0)
  {
  }
}
