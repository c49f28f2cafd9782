/** The contact endpoint (`POST /api/contact`): rate limit, honeypot, required
    fields, then an email and an optional chat-webhook notification. */
module ContactRoute {
  import opened Wrappers
  import opened Text
  import opened RateLimit

  const SENDER := "onboarding@resend.dev"
  const OPERATOR := "ghoshshreyan04042005@gmail.com"
  const DEFAULT_EMAIL_SUBJECT := "New Contact Message"
  const PLACEHOLDER_SUBJECT := "—"
  const LINE_BREAK := "<br />"
  const EXCERPT_LIMIT: nat := 1000
  const ELLIPSIS: char := '…'
  const EMBED_TITLE := "\U{1F4EC} New Contact Form Submission"
  const EMBED_COLOR: int := 0x5865f2

  /** JavaScript truthiness of a string that may be absent (`undefined` or `null`). */
  predicate Truthy(o: Option<string>) {
    o.Some? && o.value != ""
  }

  /** `o || fallback`. */
  function Or(o: Option<string>, fallback: string): string {
    if Truthy(o) then o.value else fallback
  }

  /** The two request headers the endpoint reads; `None` when a header is absent. */
  datatype Headers = Headers(forwardedFor: Option<string>, realIp: Option<string>)

  /** The caller identity: `x-forwarded-for` when non-empty, else `x-real-ip`
      when non-empty, else `"unknown"`. Never empty. */
  function CallerId(h: Headers): (ip: string)
    ensures ip != ""
    ensures Truthy(h.forwardedFor) ==> ip == h.forwardedFor.value
    ensures !Truthy(h.forwardedFor) && Truthy(h.realIp) ==> ip == h.realIp.value
    ensures !Truthy(h.forwardedFor) && !Truthy(h.realIp) ==> ip == "unknown"
  {
    Or(h.forwardedFor, Or(h.realIp, "unknown"))
  }

  /** The parsed JSON body; `None` for a field that is absent or `null`. */
  datatype ContactBody = ContactBody(
    name: Option<string>, email: Option<string>, subject: Option<string>,
    message: Option<string>, company: Option<string>)

  /** Name, email and message are all present and non-empty. */
  predicate Complete(b: ContactBody) {
    Truthy(b.name) && Truthy(b.email) && Truthy(b.message)
  }

  /** A body that passes the honeypot and the required-field check. */
  predicate Genuine(b: ContactBody) {
    !Truthy(b.company) && Complete(b)
  }

  datatype Email = Email(from: string, to: seq<string>, replyTo: string, subject: string, html: string)
  /** A webhook embed field; `inline` is `None` where the payload has no `inline` key. */
  datatype EmbedField = EmbedField(name: string, value: string, inline: Option<bool>)
  datatype Embed = Embed(title: string, color: int, fields: seq<EmbedField>, timestamp: string)

  /** An attempt to invoke one of the two notifiers. */
  datatype Notification = EmailSend(email: Email) | WebhookPost(url: string, embed: Embed)

  /** Subject line of the email: the submitted subject, or a default. */
  function EmailSubject(subject: Option<string>): (r: string)
    ensures r != ""
    ensures Truthy(subject) ==> r == subject.value
    ensures !Truthy(subject) ==> r == DEFAULT_EMAIL_SUBJECT
  {
    Or(subject, DEFAULT_EMAIL_SUBJECT)
  }

  /** Subject as shown in the email body and the webhook: the submitted one, or a dash. */
  function ShownSubject(subject: Option<string>): (r: string)
    ensures r != ""
    ensures Truthy(subject) ==> r == subject.value
    ensures !Truthy(subject) ==> r == PLACEHOLDER_SUBJECT
  {
    Or(subject, PLACEHOLDER_SUBJECT)
  }

  /** The message with every line feed turned into `<br />`. */
  function MessageHtml(message: string): (r: string)
    ensures '\n' !in r
    ensures |r| == |message| + (|LINE_BREAK| - 1) * Count(message, '\n')
    ensures '\n' !in message ==> r == message
  {
    ReplaceChar(message, '\n', LINE_BREAK)
  }

  /** Each line feed in the message becomes one `<br />`, and the text between
      line feeds is rendered on its own. */
  lemma MessageHtmlLineFeed(before: string, after: string)
    ensures MessageHtml(before + "\n" + after) == MessageHtml(before) + LINE_BREAK + MessageHtml(after)
  {
    ReplaceCharAppend(before + "\n", after, '\n', LINE_BREAK);
    ReplaceCharAppend(before, "\n", '\n', LINE_BREAK);
    ReplaceCharOne('\n', '\n', LINE_BREAK);
  }

  /** The fixed pieces of the email template, between the inserted values. */
  const HTML_OPEN := "\n        <div style=\"font-family: system-ui, sans-serif; line-height: 1.6;\">\n"
    + "          <h2>New Portfolio Contact</h2>\n"
    + "          <p><strong>Name:</strong> "
  const HTML_AFTER_NAME := "</p>\n          <p><strong>Email:</strong> "
  const HTML_AFTER_EMAIL := "</p>\n          <p><strong>Subject:</strong> "
  const HTML_AFTER_SUBJECT := "</p>\n          <p><strong>Message:</strong></p>\n          <p>"
  const HTML_CLOSE := "</p>\n        </div>\n      "

  /** The HTML body of the email: name and email inserted as they are, the subject
      shown with its placeholder, and the message with its line feeds rendered. */
  function RenderHtml(name: string, email: string, subject: Option<string>, message: string): (r: string)
    ensures r == HTML_OPEN + name + HTML_AFTER_NAME + email + HTML_AFTER_EMAIL
                 + ShownSubject(subject) + HTML_AFTER_SUBJECT + MessageHtml(message) + HTML_CLOSE
  {
    HTML_OPEN + name + HTML_AFTER_NAME + email + HTML_AFTER_EMAIL
    + ShownSubject(subject) + HTML_AFTER_SUBJECT + MessageHtml(message) + HTML_CLOSE
  }

  /** The webhook's copy of the message: the whole message when it has at most
      1000 characters, else its first 1000 characters and an ellipsis. */
  function Excerpt(message: string): (r: string)
    ensures |r| <= EXCERPT_LIMIT + 1
    ensures |message| <= EXCERPT_LIMIT ==> r == message
    ensures |message| > EXCERPT_LIMIT ==>
      |r| == EXCERPT_LIMIT + 1 && r[..EXCERPT_LIMIT] == message[..EXCERPT_LIMIT] && r[EXCERPT_LIMIT] == ELLIPSIS
  {
    if |message| > EXCERPT_LIMIT then message[..EXCERPT_LIMIT] + [ELLIPSIS] else message
  }

  /** Cutting a message down twice gives what cutting it once does. */
  lemma ExcerptIdempotent(message: string)
    ensures Excerpt(Excerpt(message)) == Excerpt(message)
  {
    if |message| > EXCERPT_LIMIT {
      var r := Excerpt(message);
      assert r[..EXCERPT_LIMIT] + [ELLIPSIS] == r;
    }
  }

  /** The excerpt always begins with as much of the message as it can hold. */
  lemma ExcerptStartsWithMessage(message: string)
    ensures var n := if |message| <= EXCERPT_LIMIT then |message| else EXCERPT_LIMIT;
            message[..n] <= Excerpt(message)
  {
  }

  function EmailFor(name: string, email: string, subject: Option<string>, message: string): (e: Email)
    ensures e.from == SENDER && e.to == [OPERATOR] && e.replyTo == email
    ensures e.subject == EmailSubject(subject)
    ensures e.html == RenderHtml(name, email, subject, message)
  {
    Email(SENDER, [OPERATOR], email, EmailSubject(subject), RenderHtml(name, email, subject, message))
  }

  function EmbedFor(name: string, email: string, subject: Option<string>, message: string, timestamp: string): (e: Embed)
    ensures |e.fields| == 4
    ensures e.fields[0].value == name && e.fields[1].value == email
    ensures e.fields[2].value == ShownSubject(subject) && e.fields[3].value == Excerpt(message)
    ensures |e.fields[3].value| <= EXCERPT_LIMIT + 1
    ensures e.title == EMBED_TITLE && e.color == EMBED_COLOR && e.timestamp == timestamp
    ensures e.fields[0].name == "Name" && e.fields[1].name == "Email"
    ensures e.fields[2].name == "Subject" && e.fields[3].name == "Message"
    ensures e.fields[0].inline == Some(true) && e.fields[1].inline == Some(true)
    ensures e.fields[2].inline.None? && e.fields[3].inline.None?
  {
    Embed(EMBED_TITLE, EMBED_COLOR,
      [ EmbedField("Name", name, Some(true)),
        EmbedField("Email", email, Some(true)),
        EmbedField("Subject", ShownSubject(subject), None),
        EmbedField("Message", Excerpt(message), None) ],
      timestamp)
  }

  /** The endpoint's answers. */
  datatype Response = RateLimited | HoneypotOk | Missing | Sent | Failed {
    /** The HTTP status: only the two successes are 200. */
    function Status(): (s: int)
      ensures s == 200 <==> this == HoneypotOk || this == Sent
      ensures s == 429 <==> this == RateLimited
      ensures s == 400 <==> this == Missing
      ensures s == 500 <==> this == Failed
    {
      match this
      case RateLimited => 429
      case HoneypotOk => 200
      case Missing => 400
      case Sent => 200
      case Failed => 500
    }
    /** The `error` text of the JSON answer; `None` for `{ success: true }`. */
    function ErrorText(): (t: Option<string>)
      ensures t.None? <==> this == HoneypotOk || this == Sent
      ensures t.Some? ==> t.value != ""
    {
      match this
      case RateLimited => Some("Too many requests")
      case Missing => Some("Missing required fields")
      case Failed => Some("Failed to send message")
      case _ => None
    }
  }

  lemma ResponseStatuses(r: Response)
    ensures r.ErrorText().None? <==> r.Status() == 200
    ensures r.Status() in {200, 400, 429, 500}
  {
  }

  /** The deployment: the webhook URL from the environment and the clock's ISO string. */
  datatype Deployment = Deployment(webhookUrl: Option<string>, timestamp: string)

  /** Which of the two notifiers throws when invoked. */
  datatype Delivery = Delivery(emailThrows: bool, webhookThrows: bool)

  /** The answer and the notifier invocations of a request past the rate limit. */
  datatype Dispatched = Dispatched(response: Response, effects: seq<Notification>)

  /** The notifications a genuine body produces, in order. */
  function Notifications(b: ContactBody, env: Deployment): (r: seq<Notification>)
    requires Complete(b)
    ensures |r| == if Truthy(env.webhookUrl) then 2 else 1
    ensures r[0] == EmailSend(EmailFor(b.name.value, b.email.value, b.subject, b.message.value))
    ensures |r| == 2 ==>
      r[1] == WebhookPost(env.webhookUrl.value, EmbedFor(b.name.value, b.email.value, b.subject, b.message.value, env.timestamp))
  {
    [EmailSend(EmailFor(b.name.value, b.email.value, b.subject, b.message.value))]
    + if Truthy(env.webhookUrl)
      then [WebhookPost(env.webhookUrl.value, EmbedFor(b.name.value, b.email.value, b.subject, b.message.value, env.timestamp))]
      else []
  }

  /** Everything after the rate limit: body parsing (`None` when it throws),
      honeypot, required fields, email, then the webhook if one is configured.
      Nothing is notified unless the body is genuine; the email comes first and a
      throwing email stops the webhook; any throw is a 500. */
  function Dispatch(body: Option<ContactBody>, env: Deployment, delivery: Delivery): (d: Dispatched)
    ensures d.response != RateLimited
    ensures body.None? ==> d == Dispatched(Failed, [])
    ensures body.Some? && Truthy(body.value.company) ==> d == Dispatched(HoneypotOk, [])
    ensures body.Some? && !Truthy(body.value.company) && !Complete(body.value) ==> d == Dispatched(Missing, [])
    ensures d.effects != [] <==> body.Some? && Genuine(body.value)
    ensures body.Some? && Genuine(body.value) ==>
      var all := Notifications(body.value, env);
      d.effects == (if delivery.emailThrows then all[..1] else all)
    ensures d.response == Sent <==>
      body.Some? && Genuine(body.value) && !delivery.emailThrows && !(Truthy(env.webhookUrl) && delivery.webhookThrows)
    ensures d.response == Failed <==>
      body.None? || (body.Some? && Genuine(body.value) && (delivery.emailThrows || (Truthy(env.webhookUrl) && delivery.webhookThrows)))
  {
    if body.None? then Dispatched(Failed, [])
    else
      var b := body.value;
      if Truthy(b.company) then Dispatched(HoneypotOk, [])
      else if !Complete(b) then Dispatched(Missing, [])
      else
        var all := Notifications(b, env);
        if delivery.emailThrows then Dispatched(Failed, all[..1])
        else if Truthy(env.webhookUrl) && delivery.webhookThrows then Dispatched(Failed, all)
        else Dispatched(Sent, all)
  }

  /** A whole request: answer, notifier invocations and the rate-limit map after it. */
  datatype Handled = Handled(response: Response, effects: seq<Notification>, windows: map<string, seq<int>>)

  /** The fixed decision sequence. A refused request changes nothing; every other
      request has consumed quota before the body is looked at, honeypot and missing
      fields included. */
  function Handle(m: map<string, seq<int>>, h: Headers, body: Option<ContactBody>, now: int,
                  env: Deployment, delivery: Delivery): (r: Handled)
    ensures var ip := CallerId(h);
      && (r.response == RateLimited <==> |Recent(Stored(m, ip), now)| >= MAX_REQ)
      && (r.response == RateLimited ==> r.windows == m && r.effects == [])
      && (r.response != RateLimited ==> r.windows == m[ip := Recent(Stored(m, ip), now) + [now]])
      && (r.response != RateLimited ==> Dispatched(r.response, r.effects) == Dispatch(body, env, delivery))
  {
    var a := Admit(m, CallerId(h), now);
    if !a.allowed then Handled(RateLimited, [], m)
    else
      var d := Dispatch(body, env, delivery);
      Handled(d.response, d.effects, a.windows)
  }

  /** A bot that fills the honeypot is told it succeeded, no notifier runs, and the
      attempt still counts against its caller. */
  lemma HoneypotConsumesQuota(m: map<string, seq<int>>, h: Headers, b: ContactBody, now: int,
                              env: Deployment, delivery: Delivery)
    requires Truthy(b.company)
    requires |Recent(Stored(m, CallerId(h)), now)| < MAX_REQ
    ensures var r := Handle(m, h, Some(b), now, env, delivery);
      r.response == HoneypotOk && r.response.Status() == 200 && r.effects == []
      && Stored(r.windows, CallerId(h)) == Recent(Stored(m, CallerId(h)), now) + [now]
  {
  }

  /** With both notifiers working, a genuine request notifies each of them exactly once. */
  lemma GenuineNotifiesOnce(m: map<string, seq<int>>, h: Headers, b: ContactBody, now: int, env: Deployment)
    requires Genuine(b) && Truthy(env.webhookUrl)
    requires |Recent(Stored(m, CallerId(h)), now)| < MAX_REQ
    ensures var r := Handle(m, h, Some(b), now, env, Delivery(false, false));
      r.response == Sent && |r.effects| == 2 && r.effects[0].EmailSend? && r.effects[1].WebhookPost?
      && r.effects[0].email.replyTo == b.email.value
      && r.effects[0].email.html == RenderHtml(b.name.value, b.email.value, b.subject, b.message.value)
      && r.effects[1].embed.fields[3].value == Excerpt(b.message.value)
  {
  }

  /** The endpoint's process-wide state: the rate-limit map, and a ghost record of
      every notifier invocation. */
  class Gateway {
    var rateLimit: map<string, seq<int>>
    ghost var notified: seq<Notification>

    ghost predicate Valid()
      reads this
    {
      Bounded(rateLimit)
    }

    constructor ()
      ensures Valid() && rateLimit == map[] && notified == []
    {
      rateLimit := map[];
      notified := [];
    }

    /** Prune, check and record the caller's window (`rateLimit.get`, `filter`,
        `push`, `set`). */
    method CheckAndRecord(ip: string, now: int) returns (allowed: bool)
      requires Valid()
      modifies this`rateLimit
      ensures Valid()
      ensures var a := Admit(old(rateLimit), ip, now); allowed == a.allowed && rateLimit == a.windows
    {
      var timestamps := if ip in rateLimit then rateLimit[ip] else [];
      var recent := Recent(timestamps, now);
      if |recent| >= MAX_REQ {
        return false;
      }
      recent := recent + [now];
      rateLimit := rateLimit[ip := recent];
      return true;
    }

    /** Everything after the rate limit: honeypot, required fields, then the notifiers. */
    method Respond(body: Option<ContactBody>, env: Deployment, delivery: Delivery) returns (resp: Response)
      requires Valid()
      modifies this`notified
      ensures Valid()
      ensures var d := Dispatch(body, env, delivery); resp == d.response && notified == old(notified) + d.effects
    {
      ghost var d := Dispatch(body, env, delivery);
      if body.None? {
        return Failed;
      }
      var b := body.value;
      if Truthy(b.company) {
        return HoneypotOk;
      }
      if !Truthy(b.name) || !Truthy(b.email) || !Truthy(b.message) {
        return Missing;
      }

      ghost var all := Notifications(b, env);
      notified := notified + [EmailSend(EmailFor(b.name.value, b.email.value, b.subject, b.message.value))];
      assert notified == old(notified) + all[..1];
      if delivery.emailThrows {
        assert d == Dispatched(Failed, all[..1]);
        return Failed;
      }
      if Truthy(env.webhookUrl) {
        notified := notified + [WebhookPost(env.webhookUrl.value,
          EmbedFor(b.name.value, b.email.value, b.subject, b.message.value, env.timestamp))];
        if delivery.webhookThrows {
          assert d == Dispatched(Failed, all);
          return Failed;
        }
      }
      assert notified == old(notified) + all;
      assert d == Dispatched(Sent, all);
      return Sent;
    }

    /** `POST`: the clock value, the headers, the parsed body and the notifiers'
        behaviour come in as parameters. */
    method Post(h: Headers, body: Option<ContactBody>, now: int, env: Deployment, delivery: Delivery)
      returns (resp: Response)
      requires Valid()
      modifies this
      ensures Valid()
      ensures var r := Handle(old(rateLimit), h, body, now, env, delivery);
        resp == r.response && rateLimit == r.windows && notified == old(notified) + r.effects
    {
      var ip := CallerId(h);
      var allowed := CheckAndRecord(ip, now);
      if !allowed {
        return RateLimited;
      }
      resp := Respond(body, env, delivery);
    }
  }
}
