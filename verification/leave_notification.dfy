/** The `send-leave-notification` edge function: it resolves the leave-request recipients
    from the `email_recipients` setting, renders the notification and sends one mail.
    Environment variables, the REST fetch, the request body and `sendMail` are inputs. */
module LeaveNotification {
  import opened Common

  /** A JSON value as `response.json()` yields it. */
  datatype Json =
    | JNull
    | JBool(b: bool)
    | JNumber(n: int)
    | JString(s: string)
    | JArray(items: seq<Json>)
    | JObject(fields: map<string, Json>)

  // ---------------------------------------------------------------- recipients

  /** `validateSingleEmail`: a string candidate, trimmed, when something is left. */
  function ValidateSingleEmail(candidate: Json): (r: Option<string>)
    ensures r.Some? <==> candidate.JString? && !Blank(candidate.s)
    ensures r.Some? ==> r.value == Trim(candidate.s) && r.value != []
  {
    if candidate.JString? then
      BlankIffTrimEmpty(candidate.s);
      var trimmed := Trim(candidate.s);
      if |trimmed| > 0 then Some(trimmed) else None
    else None
  }

  /** `.map(validateSingleEmail).filter(e => e !== null)`. */
  function ValidEmails(items: seq<Json>): (r: seq<string>)
    ensures |r| <= |items|
  {
    if items == [] then []
    else
      match ValidateSingleEmail(items[0])
      case Some(e) => [e] + ValidEmails(items[1..])
      case None => ValidEmails(items[1..])
  }

  /** Every survivor is trimmed and non-empty. */
  lemma {:induction false} ValidEmailsDeliverable(items: seq<Json>)
    ensures forall e :: e in ValidEmails(items) ==> TrimmedText(e)
  {
    if items != [] {
      ValidEmailsDeliverable(items[1..]);
    }
  }

  /** The survivors of a concatenation are the survivors of each part, in order:
      nothing is merged, reordered or dropped for being a repeat. */
  lemma {:induction false} ValidEmailsAppend(xs: seq<Json>, ys: seq<Json>)
    ensures ValidEmails(xs + ys) == ValidEmails(xs) + ValidEmails(ys)
  {
    if xs == [] {
      assert xs + ys == ys;
    } else {
      assert (xs + ys)[0] == xs[0];
      assert (xs + ys)[1..] == xs[1..] + ys;
      ValidEmailsAppend(xs[1..], ys);
      match ValidateSingleEmail(xs[0])
      case Some(e) =>
        assert ValidEmails(xs + ys) == [e] + ValidEmails(xs[1..] + ys);
      case None =>
    }
  }

  /** Nothing survives exactly when no entry is a non-blank string. */
  lemma {:induction false} ValidEmailsEmpty(items: seq<Json>)
    ensures ValidEmails(items) == [] <==>
            forall i :: 0 <= i < |items| ==> ValidateSingleEmail(items[i]).None?
  {
    if items != [] {
      ValidEmailsEmpty(items[1..]);
      assert forall i :: 1 <= i < |items| ==> items[i] == items[1..][i - 1];
    }
  }

  /** Repeated addresses are all kept: there is no de-duplication and no cap. */
  lemma {:induction false} RepeatsAreKept(e: string, n: nat)
    requires !Blank(e) && Trim(e) == e
    ensures ValidEmails(seq(n, _ => JString(e))) == seq(n, _ => e)
  {
    if n > 0 {
      var items := seq(n, _ => JString(e));
      assert ValidateSingleEmail(items[0]) == Some(e);
      assert items[1..] == seq(n - 1, _ => JString(e));
      RepeatsAreKept(e, n - 1);
      assert seq(n, _ => e) == [e] + seq(n - 1, _ => e);
    }
  }

  /** `processRecipientData`: the `leave_request` list of an object, or a bare string
      (the older format); `None` rather than an empty list when nothing survives. */
  function ProcessRecipientData(data: Json): (r: Option<seq<string>>)
    ensures r.Some? ==> |r.value| > 0 && forall e :: e in r.value ==> TrimmedText(e)
    ensures data.JString? ==> r == (if Blank(data.s) then None else Some([Trim(data.s)]))
    ensures !data.JObject? && !data.JString? ==> r.None?
    ensures data.JObject? && !("leave_request" in data.fields && data.fields["leave_request"].JArray?) ==> r.None?
  {
    match data
    case JObject(fields) =>
      if "leave_request" in fields && fields["leave_request"].JArray? && |fields["leave_request"].items| > 0 then
        var valid := ValidEmails(fields["leave_request"].items);
        ValidEmailsDeliverable(fields["leave_request"].items);
        if |valid| > 0 then Some(valid) else None
      else None
    case JArray(_) => None  // an array is an object too, but has no `leave_request`
    case JString(s) =>
      (match ValidateSingleEmail(data)
       case Some(e) => Some([e])
       case None => None)
    case _ => None
  }

  /** For a settings object, the recipients are the valid `leave_request` entries. */
  lemma RecipientsOfObject(fields: map<string, Json>, items: seq<Json>)
    requires "leave_request" in fields && fields["leave_request"] == JArray(items)
    ensures ProcessRecipientData(JObject(fields)) ==
            (if ValidEmails(items) == [] then None else Some(ValidEmails(items)))
  {
    if items == [] {
      assert ValidEmails(items) == [];
    }
  }

  lemma SampleEntries(ok: string)
    requires TrimmedText(ok)
    ensures ValidateSingleEmail(JString("")).None? && ValidateSingleEmail(JString("  ")).None?
    ensures ValidateSingleEmail(JString(ok)) == Some(ok)
  {
    assert Trim("  ") == "" by { TrimEmptyIffAllSpace("  "); }
    TrimTrimmed(ok);
  }

  /** A list holding an empty entry, a whitespace-only entry and one trimmed address sends
      to that address alone. */
  lemma BlankEntriesDropped(ok: string)
    requires TrimmedText(ok)
    ensures ProcessRecipientData(JObject(map["leave_request" := JArray([JString(""), JString("  "), JString(ok)])]))
            == Some([ok])
  {
    var items := [JString(""), JString("  "), JString(ok)];
    SurvivorsOfSample(ok, items);
    RecipientsOfObject(map["leave_request" := JArray(items)], items);
  }

  lemma SurvivorsOfSample(ok: string, items: seq<Json>)
    requires TrimmedText(ok) && items == [JString(""), JString("  "), JString(ok)]
    ensures ValidEmails(items) == [ok]
  {
    SampleEntries(ok);
    assert items[1..][1..] == [JString(ok)];
    assert ValidEmails(items) == ValidEmails(items[1..][1..]);
    assert [JString(ok)][1..] == [];
  }

  /** The two Supabase variables the recipient lookup needs. */
  datatype SupabaseEnv = SupabaseEnv(url: Option<string>, serviceRoleKey: Option<string>)

  /** What the REST fetch of `app_settings` gave: it threw, or a response with its
      `ok` flag and its body (`None` when the body is not JSON, so `json()` throws). */
  datatype FetchOutcome = FetchThrew | HttpResponse(ok: bool, body: Option<Json>)

  const ValueColumn := "setting_value"

  /** `getNotificationRecipientEmail`: the recipient list, or `None` on any failure. */
  function RecipientEmails(env: SupabaseEnv, fetch: FetchOutcome): (r: Option<seq<string>>)
    ensures !Truthy(env.url) || !Truthy(env.serviceRoleKey) ==> r.None?
    ensures fetch.FetchThrew? || (fetch.HttpResponse? && (!fetch.ok || fetch.body.None?)) ==> r.None?
    ensures r.Some? ==> |r.value| > 0
    ensures r.Some? ==> exists v :: ProcessRecipientData(v) == r
    // with both variables set and a readable OK response, the single-object form first ...
    ensures Truthy(env.url) && Truthy(env.serviceRoleKey) && fetch.HttpResponse? && fetch.ok
            && fetch.body.Some? && fetch.body.value.JObject? && ValueColumn in fetch.body.value.fields ==>
              r == ProcessRecipientData(fetch.body.value.fields[ValueColumn])
    // ... then the first row of the array form ...
    ensures Truthy(env.url) && Truthy(env.serviceRoleKey) && fetch.HttpResponse? && fetch.ok
            && fetch.body.Some? && fetch.body.value.JArray? && |fetch.body.value.items| > 0
            && fetch.body.value.items[0].JObject? && ValueColumn in fetch.body.value.items[0].fields ==>
              r == ProcessRecipientData(fetch.body.value.items[0].fields[ValueColumn])
    // ... and no column in either form gives none
    ensures fetch.HttpResponse? && fetch.body.Some?
            && !(fetch.body.value.JObject? && ValueColumn in fetch.body.value.fields)
            && !(fetch.body.value.JArray? && |fetch.body.value.items| > 0
                 && fetch.body.value.items[0].JObject? && ValueColumn in fetch.body.value.items[0].fields) ==>
              r.None?
  {
    if !Truthy(env.url) || !Truthy(env.serviceRoleKey) then None
    else match fetch
      case FetchThrew => None
      case HttpResponse(ok, body) =>
        if !ok || body.None? then None
        else match body.value
          // the single-object form (the request asks for `vnd.pgrst.object+json`)
          case JObject(fields) =>
            if ValueColumn in fields then ProcessRecipientData(fields[ValueColumn])
            else None
          // the array form: the first row's column
          case JArray(rows) =>
            if |rows| > 0 && rows[0].JObject? && ValueColumn in rows[0].fields then
              ProcessRecipientData(rows[0].fields[ValueColumn])
            else None
          case _ => None
  }

  // ---------------------------------------------------------------- the mail

  /** The fields of the request body; an absent field is `undefined`. Dates are the
      ISO strings the client sent. */
  datatype Payload = Payload(
    applicantName: Option<string>, applicantEmail: Option<string>, department: Option<string>,
    leaveType: Option<string>, startDate: Option<string>, endDate: Option<string>,
    reason: Option<string>, additionalDetails: Option<string>)

  /** A value interpolated into a template literal: `undefined` prints as such. */
  function Shown(o: Option<string>): string {
    if o.Some? then o.value else "undefined"
  }

  const NoReasonGiven := "Tidak ada alasan yang diberikan."

  /** The content of the HTML body, field by field; `details` is `None` when the
      additional-details block is left out of the markup. */
  datatype MailBody = MailBody(
    name: string, email: string, department: string, leaveType: string,
    startDate: string, endDate: string, reason: string, details: Option<string>)

  /** The body template with its fallbacks. */
  function RenderBody(p: Payload): (b: MailBody)
    ensures b.name == OrElse(p.applicantName, "N/A")
    ensures b.email == OrElse(p.applicantEmail, "N/A")
    ensures b.department == OrElse(p.department, "N/A")
    ensures b.reason == OrElse(p.reason, NoReasonGiven)
    ensures b.details.Some? <==> Truthy(p.additionalDetails)
    ensures b.details.Some? ==> b.details.value == p.additionalDetails.value
  {
    MailBody(OrElse(p.applicantName, "N/A"), OrElse(p.applicantEmail, "N/A"), OrElse(p.department, "N/A"),
             Shown(p.leaveType), Shown(p.startDate), Shown(p.endDate),
             OrElse(p.reason, NoReasonGiven),
             if Truthy(p.additionalDetails) then Some(p.additionalDetails.value) else None)
  }

  /** The SMTP variables of the function's environment. */
  datatype SmtpEnv = SmtpEnv(user: Option<string>, pass: Option<string>, host: Option<string>, port: Option<string>)

  /** `GMAIL_SMTP_HOST || 'smtp.gmail.com'`. */
  function SmtpHost(env: SmtpEnv): (h: string)
    ensures h != ""
    ensures Truthy(env.host) ==> h == env.host.value
  {
    OrElse(env.host, "smtp.gmail.com")
  }

  /** `parseInt(GMAIL_SMTP_PORT || '587', 10)`; `None` is NaN. */
  function SmtpPort(env: SmtpEnv): (p: Option<int>)
    ensures Truthy(env.port) ==> p == ParseInt(env.port.value)
  {
    ParseInt(OrElse(env.port, "587"))
  }

  /** Without a port setting the transport uses 587. */
  lemma DefaultPort(env: SmtpEnv)
    requires !Truthy(env.port)
    ensures SmtpPort(env) == Some(587)
  {
    ParseIntOfDecimalText(587);
    assert DecimalText(587) == "587";
  }

  datatype Transport = Transport(host: string, port: Option<int>, secure: bool, user: string, pass: string)

  /** `Nodemailer.createTransport(...)`: implicit TLS exactly on port 465. */
  function TransportFor(env: SmtpEnv): (t: Transport)
    requires Truthy(env.user) && Truthy(env.pass)
    ensures t.secure <==> t.port == Some(465)
    ensures t.host == SmtpHost(env) && t.port == SmtpPort(env)
  {
    Transport(SmtpHost(env), SmtpPort(env), SmtpPort(env) == Some(465), env.user.value, env.pass.value)
  }

  datatype Mail = Mail(from: string, to: seq<string>, subject: string, body: MailBody)

  /** The mail options: from the applicant's name at the SMTP account, to every recipient. */
  function MailFor(p: Payload, smtpUser: string, recipients: seq<string>): (m: Mail)
    ensures m.to == recipients && m.body == RenderBody(p)
  {
    Mail("\"" + Shown(p.applicantName) + "\" <" + smtpUser + ">",
         recipients,
         "Pengajuan Izin Baru: " + Shown(p.applicantName) + " - " + Shown(p.leaveType),
         RenderBody(p))
  }

  // ---------------------------------------------------------------- the handler

  /** The request body: parsed, or a parse error with its message. */
  datatype Body = ParsedBody(payload: Payload) | BadBody(message: string)

  datatype Request = Request(httpMethod: string, body: Body)

  /** What `sendMail` did: delivered with a message id, or threw with a message. */
  datatype SendOutcome = Sent(messageId: string) | SendThrew(message: string)

  datatype ResponseBody =
    | PlainOk                                         // "ok"
    | ErrorJson(error: string, details: Option<string>)
    | MessageJson(message: string, messageId: string)

  datatype Response = Response(status: int, body: ResponseBody)

  /** The response and the one mail sent, if any. */
  datatype Handled = Handled(response: Response, sent: Option<(Transport, Mail)>)

  const SmtpMissing := "SMTP configuration missing on server."
  const NoRecipients := "No valid recipient emails configured."
  const SendFailed := "Failed to send leave notification."
  const SendSucceeded := "Leave request notification sent successfully."

  /** The `serve` handler: OPTIONS, then the SMTP configuration, then the recipients,
      then the body, then one send. */
  function Serve(req: Request, smtp: SmtpEnv, supa: SupabaseEnv, fetch: FetchOutcome, send: SendOutcome): (h: Handled)
    ensures req.httpMethod == "OPTIONS" ==> h == Handled(Response(200, PlainOk), None)
    ensures req.httpMethod != "OPTIONS" && (!Truthy(smtp.user) || !Truthy(smtp.pass)) ==>
              h == Handled(Response(500, ErrorJson(SmtpMissing, None)), None)
    ensures req.httpMethod != "OPTIONS" && Truthy(smtp.user) && Truthy(smtp.pass)
            && RecipientEmails(supa, fetch).None? ==>
              h == Handled(Response(500, ErrorJson(NoRecipients, None)), None)
    // a mail goes out only with a configured account and a non-empty recipient list, to all of it
    ensures h.sent.Some? ==>
              Truthy(smtp.user) && Truthy(smtp.pass) && RecipientEmails(supa, fetch).Some?
              && h.sent.value.1.to == RecipientEmails(supa, fetch).value && |h.sent.value.1.to| > 0
              && req.body.ParsedBody? && h.sent.value.1.body == RenderBody(req.body.payload)
              && h.sent.value.0 == TransportFor(smtp)
    // with every guard passed and a readable body, the one mail goes to the whole list
    ensures req.httpMethod != "OPTIONS" && Truthy(smtp.user) && Truthy(smtp.pass)
            && RecipientEmails(supa, fetch).Some? && req.body.ParsedBody? ==>
              h.sent == Some((TransportFor(smtp), MailFor(req.body.payload, smtp.user.value, RecipientEmails(supa, fetch).value)))
    // an unreadable body is caught like a failed send, and nothing is sent
    ensures req.httpMethod != "OPTIONS" && Truthy(smtp.user) && Truthy(smtp.pass)
            && RecipientEmails(supa, fetch).Some? && req.body.BadBody? ==>
              h == Handled(Response(500, ErrorJson(SendFailed, Some(req.body.message))), None)
    // success is reported exactly when the one send delivered
    ensures h.response.status == 200 <==> req.httpMethod == "OPTIONS" || (h.sent.Some? && send.Sent?)
    ensures h.sent.Some? && send.Sent? ==> h.response.body == MessageJson(SendSucceeded, send.messageId)
    ensures h.sent.Some? && send.SendThrew? ==> h.response == Response(500, ErrorJson(SendFailed, Some(send.message)))
    ensures h.response.status in {200, 500}
  {
    if req.httpMethod == "OPTIONS" then Handled(Response(200, PlainOk), None)
    else if !Truthy(smtp.user) || !Truthy(smtp.pass) then Handled(Response(500, ErrorJson(SmtpMissing, None)), None)
    else
      var recipients := RecipientEmails(supa, fetch);
      if recipients.None? || |recipients.value| == 0 then Handled(Response(500, ErrorJson(NoRecipients, None)), None)
      else match req.body
        case BadBody(message) => Handled(Response(500, ErrorJson(SendFailed, Some(message))), None)
        case ParsedBody(p) =>
          var transport := TransportFor(smtp);
          var mail := MailFor(p, smtp.user.value, recipients.value);
          match send
          case Sent(id) => Handled(Response(200, MessageJson(SendSucceeded, id)), Some((transport, mail)))
          case SendThrew(message) => Handled(Response(500, ErrorJson(SendFailed, Some(message))), Some((transport, mail)))
  }

  /** A missing SMTP account is reported before the recipients are fetched: the fetch
      outcome cannot change the answer. */
  lemma SmtpCheckedBeforeRecipients(req: Request, smtp: SmtpEnv, supa: SupabaseEnv,
                                    f1: FetchOutcome, f2: FetchOutcome, s1: SendOutcome, s2: SendOutcome)
    requires !Truthy(smtp.user) || !Truthy(smtp.pass)
    ensures Serve(req, smtp, supa, f1, s1) == Serve(req, smtp, supa, f2, s2)
  {
  }

  /** Missing recipients are reported before the body is read: a malformed body does not
      change the answer, and nothing is sent. */
  lemma RecipientsCheckedBeforeBody(m: string, b1: Body, b2: Body, smtp: SmtpEnv, supa: SupabaseEnv,
                                    fetch: FetchOutcome, s1: SendOutcome, s2: SendOutcome)
    requires RecipientEmails(supa, fetch).None?
    ensures Serve(Request(m, b1), smtp, supa, fetch, s1) == Serve(Request(m, b2), smtp, supa, fetch, s2)
    ensures Serve(Request(m, b1), smtp, supa, fetch, s1).sent.None?
  {
  }
}
