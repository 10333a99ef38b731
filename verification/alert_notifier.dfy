/**
 * The alert notifier: which channels an alert goes to, the Markdown text
 * posted to the webhook, the e-mail subject, body and message, the SMTP
 * address, and the order of the SMTP conversation over TLS.
 *
 * Go's map iteration order over an alert's metadata is the parameter
 * `order`; `%v` formatting of a metadata value is the parameter `show`;
 * the formatted timestamp ("2006-01-02 15:04:05") is the parameter
 * `timeText`. The HTTP and SMTP transports are outcomes passed in.
 */
module AlertNotifier {
  import opened Wrappers
  import Seqs
  import Text
  import Types
  import opened AlertTypes

  /** alert_notifier.go `NotifyConfig`, without the credentials and the timeout. */
  datatype NotifyConfig = NotifyConfig(
    webhookEnabled: bool,
    webhookUrl: string,
    emailEnabled: bool,
    smtpHost: string,
    smtpPort: int,
    emailFrom: string,
    emailTo: seq<string>,
    useTls: bool,
    notifyLevels: map<string, bool>)

  /** The channels Notify starts a sender for. */
  datatype Dispatch = Dispatch(webhook: bool, email: bool)

  /** A level is notified when the level map says true; a missing level reads false. */
  predicate LevelEnabled(cfg: NotifyConfig, level: string)
  {
    level in cfg.notifyLevels && cfg.notifyLevels[level]
  }

  /**
   * Notify: nothing for a level that is not enabled; otherwise the webhook
   * when it is enabled with a URL, and e-mail when it is enabled with at
   * least one recipient.
   */
  function Notify(cfg: NotifyConfig, a: Alert): (d: Dispatch)
    ensures !LevelEnabled(cfg, a.level) ==> d == Dispatch(false, false)
    ensures d.webhook <==> LevelEnabled(cfg, a.level) && cfg.webhookEnabled && cfg.webhookUrl != ""
    ensures d.email <==> LevelEnabled(cfg, a.level) && cfg.emailEnabled && |cfg.emailTo| > 0
  {
    if !LevelEnabled(cfg, a.level) then Dispatch(false, false)
    else Dispatch(cfg.webhookEnabled && cfg.webhookUrl != "", cfg.emailEnabled && |cfg.emailTo| > 0)
  }

  /** The two channels are independent: turning e-mail off never changes whether the webhook is used. */
  lemma ChannelsIndependent(cfg: NotifyConfig, a: Alert)
    ensures Notify(cfg.(emailEnabled := false), a).webhook == Notify(cfg, a).webhook
    ensures Notify(cfg.(webhookEnabled := false), a).email == Notify(cfg, a).email
  {
  }

  // ---------- metadata listing ----------

  /** One metadata line: prefix, key, ": ", value, newline. */
  function EntryLine(prefix: string, key: string, value: string): string
  {
    prefix + key + ": " + value + "\n"
  }

  /** The lines for the keys of `order`, in that order. */
  function Lines(prefix: string, m: Types.Metadata, order: seq<string>, show: Types.Value -> string): string
    requires forall i :: 0 <= i < |order| ==> order[i] in m
  {
    if order == [] then ""
    else
      var k := order[|order| - 1];
      Lines(prefix, m, order[..|order| - 1], show) + EntryLine(prefix, k, show(m[k]))
  }

  /** Every listed key has its line in the listing. */
  lemma {:induction false} LinesListEveryKey(prefix: string, m: Types.Metadata, order: seq<string>,
                                             show: Types.Value -> string, n: nat)
    requires forall i :: 0 <= i < |order| ==> order[i] in m
    requires n < |order|
    ensures Text.Contains(Lines(prefix, m, order, show), EntryLine(prefix, order[n], show(m[order[n]])))
  {
    var init := order[..|order| - 1];
    var k := order[|order| - 1];
    if n == |order| - 1 {
      Text.ContainsSelf(EntryLine(prefix, k, show(m[k])));
      Text.ContainsRight(Lines(prefix, m, init, show), EntryLine(prefix, k, show(m[k])), EntryLine(prefix, k, show(m[k])));
    } else {
      assert init[n] == order[n];
      LinesListEveryKey(prefix, m, init, show, n);
      Text.ContainsLeft(Lines(prefix, m, init, show), EntryLine(prefix, k, show(m[k])),
        EntryLine(prefix, order[n], show(m[order[n]])));
    }
  }

  /**
   * The metadata section: empty for empty metadata, otherwise a header
   * followed by one line per key.
   */
  function MetadataSection(header: string, prefix: string, m: Types.Metadata, order: seq<string>,
                           show: Types.Value -> string): (r: string)
    requires Seqs.Enumerates(order, m.Keys)
  {
    if |m| == 0 then "" else header + Lines(prefix, m, order, show)
  }

  /** A non-empty header makes the section empty exactly when there is no metadata, and lists every key otherwise. */
  lemma SectionListsMetadata(header: string, prefix: string, m: Types.Metadata, order: seq<string>,
                             show: Types.Value -> string, key: string)
    requires Seqs.Enumerates(order, m.Keys)
    requires header != ""
    ensures MetadataSection(header, prefix, m, order, show) == "" <==> |m| == 0
    ensures key in m ==> Text.Contains(MetadataSection(header, prefix, m, order, show), EntryLine(prefix, key, show(m[key])))
  {
    if key in m {
      var n :| 0 <= n < |order| && order[n] == key;
      LinesListEveryKey(prefix, m, order, show, n);
      Text.ContainsRight(header, Lines(prefix, m, order, show), EntryLine(prefix, key, show(m[key])));
    }
  }

  // ---------- webhook ----------

  const RedCircle: string := "\U{1F534}"
  const YellowCircle: string := "\U{1F7E1}"
  const BlueCircle: string := "\U{1F535}"

  /** The level's emoji; Go's map lookup gives "" for any other level. */
  function Emoji(level: string): (e: string)
    ensures level == LevelError ==> e == RedCircle
    ensures level == LevelWarning ==> e == YellowCircle
    ensures level == LevelInfo ==> e == BlueCircle
    ensures level !in {LevelError, LevelWarning, LevelInfo} ==> e == ""
  {
    if level == LevelError then RedCircle
    else if level == LevelWarning then YellowCircle
    else if level == LevelInfo then BlueCircle
    else ""
  }

  const MarkdownTitle: string := " AI-Memory 告警通知\n\n"
  const MarkdownLevel: string := "**级别**: "
  const MarkdownRule: string := "**规则**: "
  const MarkdownMessage: string := "**消息**: "
  const MarkdownTime: string := "**时间**: "
  const MarkdownDetails: string := "\n\n**详情**:\n"

  /** The alert's fields, one labelled line each, ending with the time. */
  function MarkdownBody(a: Alert, timeText: string): string
  {
    "## " + Emoji(a.level) + MarkdownTitle
    + MarkdownLevel + a.level + "\n"
    + MarkdownRule + a.rule + "\n"
    + MarkdownMessage + a.message + "\n"
    + MarkdownTime + timeText
  }

  /** formatMarkdown: the field lines, then the "- key: value" details when there is metadata. */
  function FormatMarkdown(a: Alert, timeText: string, order: seq<string>, show: Types.Value -> string): (r: string)
    requires Seqs.Enumerates(order, a.metadata.Keys)
    ensures Text.HasPrefix(r, MarkdownBody(a, timeText))
  {
    MarkdownBody(a, timeText) + MetadataSection(MarkdownDetails, "- ", a.metadata, order, show)
  }

  /**
   * The Markdown message ends with the time exactly when the alert has no
   * metadata, and otherwise lists every metadata entry.
   */
  lemma MarkdownShowsMetadata(a: Alert, timeText: string, order: seq<string>, show: Types.Value -> string, key: string)
    requires Seqs.Enumerates(order, a.metadata.Keys)
    ensures |a.metadata| == 0 <==> FormatMarkdown(a, timeText, order, show) == MarkdownBody(a, timeText)
    ensures key in a.metadata ==>
      Text.Contains(FormatMarkdown(a, timeText, order, show), EntryLine("- ", key, show(a.metadata[key])))
  {
    SectionListsMetadata(MarkdownDetails, "- ", a.metadata, order, show, key);
    if key in a.metadata {
      Text.ContainsRight(MarkdownBody(a, timeText), MetadataSection(MarkdownDetails, "- ", a.metadata, order, show),
        EntryLine("- ", key, show(a.metadata[key])));
    }
  }

  /** The webhook payload: a Markdown message in the shape chat-bot webhooks accept. */
  datatype WebhookPayload = WebhookPayload(msgtype: string, content: string)

  function WebhookPayloadFor(a: Alert, timeText: string, order: seq<string>, show: Types.Value -> string): (p: WebhookPayload)
    requires Seqs.Enumerates(order, a.metadata.Keys)
    ensures p.msgtype == "markdown" && p.content == FormatMarkdown(a, timeText, order, show)
  {
    WebhookPayload("markdown", FormatMarkdown(a, timeText, order, show))
  }

  /** How a webhook delivery ended: the POST failed, a 2xx status, or another status. */
  datatype WebhookOutcome = PostFailed | Delivered | BadStatus(status: int)

  /** sendWebhook's verdict on the POST's result (None when the request itself failed). */
  function SendWebhook(response: Option<int>): (o: WebhookOutcome)
    ensures o.Delivered? <==> response.Some? && 200 <= response.value < 300
    ensures o.PostFailed? <==> response.None?
    ensures o.BadStatus? ==> o.status == response.value && !(200 <= o.status < 300)
  {
    match response
    case None => PostFailed
    case Some(s) => if 200 <= s < 300 then Delivered else BadStatus(s)
  }

  // ---------- e-mail ----------

  /** The subject: "[<level> 告警] <rule>". */
  function EmailSubject(a: Alert): string
  {
    "[" + a.level + " 告警] " + a.rule
  }

  const BodyTitle: string := "AI-Memory 监控系统告警通知\n\n"
  const BodyLevel: string := "告警级别: "
  const BodyRule: string := "告警规则: "
  const BodyMessage: string := "告警消息: "
  const BodyTime: string := "触发时间: "
  const BodyDetails: string := "\n\n详细信息:\n"
  const BodyFooter: string := "\n---\n本邮件由 AI-Memory 监控系统自动发送，请勿回复。\n"

  /** formatEmailBody: the fields, the indented details when there is metadata, and the footer. */
  function FormatEmailBody(a: Alert, timeText: string, order: seq<string>, show: Types.Value -> string): (r: string)
    requires Seqs.Enumerates(order, a.metadata.Keys)
    ensures Text.HasSuffix(r, BodyFooter)
  {
    BodyTitle
    + BodyLevel + a.level + "\n"
    + BodyRule + a.rule + "\n"
    + BodyMessage + a.message + "\n"
    + BodyTime + timeText + "\n"
    + MetadataSection(BodyDetails, "  ", a.metadata, order, show)
    + BodyFooter
  }

  /** Every metadata entry appears in the e-mail body as an indented line. */
  lemma EmailBodyShowsMetadata(a: Alert, timeText: string, order: seq<string>, show: Types.Value -> string, key: string)
    requires Seqs.Enumerates(order, a.metadata.Keys)
    requires key in a.metadata
    ensures Text.Contains(FormatEmailBody(a, timeText, order, show), EntryLine("  ", key, show(a.metadata[key])))
  {
    var head := BodyTitle + BodyLevel + a.level + "\n" + BodyRule + a.rule + "\n" + BodyMessage + a.message + "\n"
      + BodyTime + timeText + "\n";
    var section := MetadataSection(BodyDetails, "  ", a.metadata, order, show);
    var line := EntryLine("  ", key, show(a.metadata[key]));
    SectionListsMetadata(BodyDetails, "  ", a.metadata, order, show, key);
    Text.ContainsRight(head, section, line);
    Text.ContainsLeft(head + section, BodyFooter, line);
  }

  const ContentTypeHeader: string := "Content-Type: text/plain; charset=UTF-8\r\n"

  /** The header block: From, To (recipients joined by ","), Subject and Content-Type, each ending in CRLF. */
  function EmailHeaders(cfg: NotifyConfig, a: Alert): string
  {
    "From: " + cfg.emailFrom + "\r\n"
    + "To: " + Text.Join(cfg.emailTo, ",") + "\r\n"
    + "Subject: " + EmailSubject(a) + "\r\n"
    + ContentTypeHeader
  }

  /** The message sendEmail hands to SMTP: the headers, a blank line, the body. */
  function EmailMessage(cfg: NotifyConfig, a: Alert, body: string): (m: string)
    ensures Text.HasSuffix(m, "\r\n" + body)
    ensures Text.HasPrefix(m, "From: " + cfg.emailFrom + "\r\n")
  {
    var h := EmailHeaders(cfg, a);
    assert h + "\r\n" + body == h + ("\r\n" + body);
    h + "\r\n" + body
  }

  /** Every recipient is named in the To header. */
  lemma EveryRecipientAddressed(cfg: NotifyConfig, a: Alert, body: string, k: nat)
    requires k < |cfg.emailTo|
    ensures Text.Contains(EmailMessage(cfg, a, body), cfg.emailTo[k])
  {
    var to := Text.Join(cfg.emailTo, ",");
    Text.JoinContains(cfg.emailTo, ",", k);
    var pre := "From: " + cfg.emailFrom + "\r\n" + "To: ";
    var post := "\r\n" + "Subject: " + EmailSubject(a) + "\r\n" + ContentTypeHeader + "\r\n" + body;
    Text.ContainsRight(pre, to, cfg.emailTo[k]);
    Text.ContainsLeft(pre + to, post, cfg.emailTo[k]);
    assert EmailMessage(cfg, a, body) == pre + to + post;
  }

  /** The SMTP address: host, a colon, the decimal port. */
  function SmtpAddr(host: string, port: int): string
  {
    host + ":" + Text.IntToString(port)
  }

  /** The host and port can be read back from the address. */
  lemma SmtpAddrRoundTrip(host: string, port: int)
    ensures var addr := SmtpAddr(host, port);
      addr[..|host|] == host && addr[|host|] == ':' && Text.ParseInt(addr[|host| + 1..]) == port
  {
    var addr := SmtpAddr(host, port);
    assert addr[|host| + 1..] == Text.IntToString(port);
    Text.ParseIntToString(port);
  }

  /** The steps of sendMailTLS, each of which may fail. */
  datatype SmtpStep = Dial | NewClient | Authenticate | MailFrom | Rcpt(addr: string) | OpenData | WriteMessage | CloseData | Quit

  function RcptSteps(to: seq<string>): (r: seq<SmtpStep>)
    ensures |r| == |to| && forall i :: 0 <= i < |to| ==> r[i] == Rcpt(to[i])
  {
    if to == [] then [] else [Rcpt(to[0])] + RcptSteps(to[1..])
  }

  /** The full conversation: dial, client, auth, MAIL, one RCPT per recipient, DATA, write, close, QUIT. */
  function SmtpSteps(to: seq<string>): (r: seq<SmtpStep>)
    ensures |r| == |to| + 8
  {
    [Dial, NewClient, Authenticate, MailFrom] + RcptSteps(to) + [OpenData, WriteMessage, CloseData, Quit]
  }

  /**
   * sendMailTLS: run the steps in order; the step at `failAt` (if any)
   * fails and ends the conversation. Returns the steps attempted.
   */
  function SendMailTls(to: seq<string>, failAt: nat): (r: (seq<SmtpStep>, Result<()>))
    ensures r.1.Ok? <==> failAt >= |SmtpSteps(to)|
    ensures r.1.Ok? ==> r.0 == SmtpSteps(to)
    ensures r.1.Err? ==> r.0 == SmtpSteps(to)[..failAt + 1]
  {
    var steps := SmtpSteps(to);
    if failAt >= |steps| then (steps, Ok(()))
    else (steps[..failAt + 1], Err("smtp step failed"))
  }

  /** The message is written only after every recipient has been accepted. */
  lemma MessageOnlyAfterAllRecipients(to: seq<string>, failAt: nat, k: nat)
    requires k < |to|
    requires WriteMessage in SendMailTls(to, failAt).0
    ensures Rcpt(to[k]) in SendMailTls(to, failAt).0[..|SendMailTls(to, failAt).0| - 1]
  {
    var steps := SmtpSteps(to);
    var done := SendMailTls(to, failAt).0;
    var w :| 0 <= w < |done| && done[w] == WriteMessage;
    assert steps[4 + k] == Rcpt(to[k]);
    assert steps[|to| + 5] == WriteMessage;
    forall i | 0 <= i < |steps| && i != |to| + 5
      ensures steps[i] != WriteMessage
    {
    }
    assert w == |to| + 5;
    assert done[4 + k] == Rcpt(to[k]);
  }
}
