/**
 * The request handling of supabase/functions/send-welcome-email/index.ts:
 * a ladder of early-return checks, the call to the mail provider, and the
 * status code each outcome maps to.
 */
module WelcomeEmail {
  import opened Wrappers
  import opened Strings

  /** The parsed JSON body: unparsable, or the three string fields it may hold. */
  datatype Body = Malformed | Fields(email: Option<string>, password: Option<string>, role: Option<string>)

  /** The parts of the incoming request the handler reads. */
  datatype EmailRequest = EmailRequest(verb: string, contentType: Option<string>, body: Body)

  /** `RESEND_API_KEY` and `RESEND_FROM_EMAIL`, when set. */
  datatype Env = Env(apiKey: Option<string>, fromEmail: Option<string>)

  /** How the provider call ended. */
  datatype ProviderReply = Delivered | ProviderRejected | ProviderThrew

  /** The message handed to the provider; the HTML body is not modelled. */
  datatype MailPayload = MailPayload(from: string, to: string, subject: string, roleLabel: string)

  /** The response status, its error text (none on success) and the provider call made, if any. */
  datatype Outcome = Outcome(status: int, error: Option<string>, sent: Option<MailPayload>)

  const JsonType: string := "application/json"
  const DefaultFrom: string := "onboarding@resend.dev"
  const Subject: string := "Welcome to Court Management System"

  /** A field passes the `!field` guard when present and non-empty. */
  predicate Present(field: Option<string>) {
    field.Some? && field.value != []
  }

  /** A missing header reads as the empty string. */
  predicate AcceptsContentType(contentType: Option<string>) {
    Contains(contentType.GetOr(""), JsonType)
  }

  predicate HasRequiredFields(body: Body) {
    body.Fields? && Present(body.email) && Present(body.password) && Present(body.role)
  }

  /** Every check before the provider call passes. */
  predicate Admissible(req: EmailRequest, env: Env) {
    req.verb == "POST" && AcceptsContentType(req.contentType) && req.body.Fields?
    && HasRequiredFields(req.body) && Present(env.apiKey)
  }

  /** The sender: the configured address, or the provider's test sender when unset or empty. */
  function FromAddress(env: Env): (from: string)
    ensures Present(env.fromEmail) ==> from == env.fromEmail.value
    ensures !Present(env.fromEmail) ==> from == DefaultFrom
    ensures from != []
  {
    if Present(env.fromEmail) then env.fromEmail.value else DefaultFrom
  }

  /** `role.replace('_', ' ')`: only the first underscore becomes a space. */
  function RoleLabel(role: string): (shown: string)
    ensures |shown| == |role|
    ensures forall i | 0 <= i < |role| :: shown[i] == if role[i] == '_' && '_' !in role[..i] then ' ' else role[i]
  {
    ReplaceFirstChar(role, '_', ' ')
  }

  /** Everything after the first underscore, later underscores included, is kept. */
  lemma {:induction false} RoleLabelOfSplit(head: string, tail: string)
    requires '_' !in head
    ensures RoleLabel(head + "_" + tail) == head + " " + tail
  {
    var role := head + "_" + tail;
    var text := RoleLabel(role);
    forall i | 0 <= i < |role| ensures text[i] == (head + " " + tail)[i] {
      if i < |head| {
        assert role[i] == head[i];
      } else if i > |head| {
        assert role[..i][|head|] == '_';
      } else {
        assert role[..i] == head;
      }
    }
  }

  lemma SuperAdminLabel()
    ensures RoleLabel("super_admin") == "super admin"
  {
    assert "super_admin" == "super" + "_" + "admin";
    assert "super admin" == "super" + " " + "admin";
    RoleLabelOfSplit("super", "admin");
  }

  /** A second underscore is kept. */
  lemma OnlyFirstUnderscoreReplaced()
    ensures RoleLabel("a_b_c") == "a b_c"
  {
    assert "a_b_c" == "a" + "_" + "b_c";
    assert "a b_c" == "a" + " " + "b_c";
    RoleLabelOfSplit("a", "b_c");
  }

  /** The request handler, with the provider's answer as an input. */
  function Handle(req: EmailRequest, env: Env, provider: ProviderReply): (out: Outcome)
    ensures out.sent.Some? <==> Admissible(req, env)
    ensures out.status == 200 <==> Admissible(req, env) && provider == Delivered
    ensures out.error.None? <==> out.status == 200
    ensures out.status == 405 <==> req.verb != "POST"
    ensures out.status == 400 <==>
      (req.verb == "POST" && (!AcceptsContentType(req.contentType) || (req.body.Fields? && !HasRequiredFields(req.body))))
    ensures out.status == 502 <==> Admissible(req, env) && provider == ProviderRejected
    ensures out.status in {200, 400, 405, 500, 502}
    ensures out.sent.Some? ==> out.sent.value == MailPayload(FromAddress(env), req.body.email.value, Subject, RoleLabel(req.body.role.value))
  {
    if req.verb != "POST" then
      Outcome(405, Some("Method not allowed"), None)
    else if !AcceptsContentType(req.contentType) then
      Outcome(400, Some("Expected application/json"), None)
    else if req.body.Malformed? then
      Outcome(500, Some("Internal server error"), None)
    else if !HasRequiredFields(req.body) then
      Outcome(400, Some("Missing required fields: email, password, role"), None)
    else if !Present(env.apiKey) then
      Outcome(500, Some("Server not configured: RESEND_API_KEY missing"), None)
    else
      var payload := MailPayload(FromAddress(env), req.body.email.value, Subject, RoleLabel(req.body.role.value));
      match provider
      case Delivered => Outcome(200, None, Some(payload))
      case ProviderRejected => Outcome(502, Some("Resend API error"), Some(payload))
      case ProviderThrew => Outcome(500, Some("Internal server error"), Some(payload))
  }

  /** A request without a content-type header is refused as not JSON. */
  lemma MissingContentTypeRefused(body: Body, env: Env, provider: ProviderReply)
    ensures Handle(EmailRequest("POST", None, body), env, provider).status == 400
  {
    assert !IsPrefix(JsonType, "");
  }

  /**
   * The checks run in order and the first failure decides: a wrong method
   * wins over everything, a wrong content type over the body and the
   * configuration, and missing fields over a missing API key.
   */
  lemma FirstFailureDecides(req: EmailRequest, env: Env, provider: ProviderReply)
    ensures req.verb != "POST" ==> Handle(req, env, provider).status == 405
    ensures req.verb == "POST" && !AcceptsContentType(req.contentType) ==> Handle(req, env, provider).status == 400
    ensures req.verb == "POST" && AcceptsContentType(req.contentType) && req.body.Malformed? ==>
      Handle(req, env, provider).status == 500 && Handle(req, env, provider).sent.None?
    ensures req.verb == "POST" && AcceptsContentType(req.contentType) && req.body.Fields? && !HasRequiredFields(req.body) ==>
      Handle(req, env, provider).status == 400
    ensures req.verb == "POST" && AcceptsContentType(req.contentType) && HasRequiredFields(req.body) && !Present(env.apiKey) ==>
      Handle(req, env, provider).status == 500 && Handle(req, env, provider).sent.None?
  {
  }
}
