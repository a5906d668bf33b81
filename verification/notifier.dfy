/** The notifier of utils/slack_sender.py: finds the destination of a
    provider channel through the store, lays the message out in three
    sections, and reports whether the endpoint answered 200. The HTTP
    transport is an oracle; whatever it does, `Send` returns a boolean and
    never fails. */
module Notifier {
  import opened Base
  import Store

  /** The dict `{'title', 'url', 'published_at'}` the poller passes in. */
  datatype Message = Message(title: string, url: string, publishedAt: string)

  /** A `section` block with `mrkdwn` text. */
  datatype Block = Section(text: string)

  /** One webhook call: the endpoint and the blocks posted to it. */
  datatype Delivery = Delivery(url: string, blocks: seq<Block>)

  /** What the webhook client's `send` produced: a response status, or an
      exception. */
  datatype TransportReply = Status(code: int) | Raised

  /** The call made, if any, and the boolean `send_notification` returns. */
  datatype Outcome = Outcome(sent: Option<Delivery>, ok: bool)

  const Announcement: string := "*새로운 영상이 업로드되었습니다!*\n*채널:* "
  const TitleLabel: string := "*제목:* "
  const TimeLabel: string := "*업로드 시간:* "

  /** The Slack link markup `<url|title>` behind the title label. */
  function LinkText(url: string, title: string): string {
    TitleLabel + "<" + url + "|" + title + ">"
  }

  /** The three sections, in order: the announcement naming the channel,
      the linked title, the upload time. */
  function Blocks(channelName: string, m: Message): (r: seq<Block>)
    ensures |r| == 3
    ensures |r[0].text| >= |Announcement| && r[0].text[|Announcement|..] == channelName
    ensures r[0].text[..|Announcement|] == Announcement
    ensures r[1].text == LinkText(m.url, m.title)
    ensures |r[2].text| >= |TimeLabel| && r[2].text[|TimeLabel|..] == m.publishedAt
    ensures r[2].text[..|TimeLabel|] == TimeLabel
  {
    [Section(Announcement + channelName),
     Section(LinkText(m.url, m.title)),
     Section(TimeLabel + m.publishedAt)]
  }

  /** The index of the first `c` in `s`, or |s| when there is none. */
  function IndexOf(s: string, c: char): (i: nat)
    ensures i <= |s|
    ensures forall j :: 0 <= j < i ==> s[j] != c
    ensures i < |s| ==> s[i] == c
    decreases |s|
  {
    if s == [] then 0
    else if s[0] == c then 0
    else 1 + IndexOf(s[1..], c)
  }

  /** Reads `url` and `title` back out of the link section. */
  function ParseLink(text: string): Option<(string, string)> {
    var head := TitleLabel + "<";
    if |text| < |head| + 1 || text[..|head|] != head || text[|text| - 1] != '>' then None
    else
      var body := text[|head|..|text| - 1];
      var bar := IndexOf(body, '|');
      if bar == |body| then None else Some((body[..bar], body[bar + 1..]))
  }

  /** The link section is unambiguous as long as the URL holds no '|':
      a reader recovers exactly the URL and the title that were sent. */
  lemma {:induction false} LinkRoundTrip(url: string, title: string)
    requires forall i :: 0 <= i < |url| ==> url[i] != '|'
    ensures ParseLink(LinkText(url, title)) == Some((url, title))
  {
    var head := TitleLabel + "<";
    var text := LinkText(url, title);
    assert text == head + (url + "|" + title) + ">";
    var body := text[|head|..|text| - 1];
    assert body == url + "|" + title;
    IndexOfPrefix(url, title, '|');
    assert body[..|url|] == url;
    assert body[|url| + 1..] == title;
  }

  lemma {:induction false} IndexOfPrefix(a: string, b: string, c: char)
    requires forall i :: 0 <= i < |a| ==> a[i] != c
    ensures IndexOf(a + [c] + b, c) == |a|
    decreases |a|
  {
    if a == [] {
      assert (a + [c] + b)[0] == c;
    } else {
      assert (a + [c] + b)[1..] == a[1..] + [c] + b;
      IndexOfPrefix(a[1..], b, c);
    }
  }

  /** `send_notification`: the destination is the webhook of the first
      channel row with that provider id. A missing row or webhook returns
      false without sending; otherwise the result is true exactly when the
      endpoint answered 200, and false on any other status or an exception. */
  function Send(db: Store.Database, ytChannelId: string, m: Message, transport: Delivery -> TransportReply)
    : (r: Outcome)
    ensures var c := Store.ChannelByYtChannelId(db, ytChannelId);
            r.sent.Some? <==> c.Some? && c.value.webhookId in db.webhooks
    ensures r.sent.Some? ==>
              var c := Store.ChannelByYtChannelId(db, ytChannelId).value;
              r.sent.value == Delivery(db.webhooks[c.webhookId].url, Blocks(c.ytChName, m))
    ensures r.sent.Some? ==> (r.ok <==> transport(r.sent.value) == Status(200))
    ensures r.sent.None? ==> !r.ok
  {
    match Store.ChannelByYtChannelId(db, ytChannelId)
    case None => Outcome(None, false)
    case Some(channel) =>
      match Store.GetWebhook(db, channel.webhookId)
      case None => Outcome(None, false)
      case Some(webhook) =>
        var delivery := Delivery(webhook.url, Blocks(channel.ytChName, m));
        match transport(delivery)
        case Status(code) => Outcome(Some(delivery), code == 200)
        case Raised => Outcome(Some(delivery), false)
  }

  /** The notifier reads nothing a watermark write changes: in two states
      that differ only in watermarks, the same call sends the same message
      to the same endpoint with the same result. */
  lemma SendOnVariants(a: Store.Database, b: Store.Database, ytChannelId: string, m: Message,
                       transport: Delivery -> TransportReply)
    requires Store.SameButWatermarks(a, b)
    ensures Send(a, ytChannelId, m, transport) == Send(b, ytChannelId, m, transport)
  {
    Store.ChannelByYtOnVariants(a, b, ytChannelId);
  }

  /** In particular, a call made after `update_last_check_time` behaves as it
      would have before it. */
  lemma SendIgnoresWatermarks(db: Store.Database, updated: string, checkTime: Option<Time>, now: Time,
                              ytChannelId: string, m: Message, transport: Delivery -> TransportReply)
    ensures Send(Store.UpdateLastCheckTime(db, updated, checkTime, now).0, ytChannelId, m, transport)
            == Send(db, ytChannelId, m, transport)
  {
    Store.UpdateChangesOnlyWatermarks(db, updated, checkTime, now);
    SendOnVariants(Store.UpdateLastCheckTime(db, updated, checkTime, now).0, db, ytChannelId, m, transport);
  }
}
