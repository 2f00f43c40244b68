/**
  The handler of `POST /clerk-webhook` in src/clerkWebhook.ts: a chain of
  guarded early returns (secret, svix headers, signature, event type, user id)
  followed by at most one `updateUserMetadata` call.
 */
module LegacyWebhook {
  import opened WebhookTypes

  /**
    One request through the handler. `secret` is CLERK_WEBHOOK_SECRET as read
    from the environment, `headers` the request headers (read as
    `string | undefined`), `verify` and `update` the two foreign capabilities.
   */
  function HandleClerkWebhook(secret: Option<string>, headers: map<string, string>, payload: Payload,
                              verify: Verifier, update: Downstream): (o: Outcome)
    // every exit path answers 200, 400 or 500
    ensures o.response.status in {200, 400, 500}
    ensures |o.verifications| <= 1 && |o.updates| <= 1
    // the verifier is handed the configured secret, the raw body and exactly the three svix headers
    ensures forall r :: r in o.verifications ==>
      Truthy(secret) && r.secret == secret.value && r.payload == payload &&
      r.headers.Keys == SvixHeaderNames && r.headers == SvixPart(headers)
    // trust boundary: no update and no 200 without a successful verification
    ensures o.updates != [] || o.response.status == 200 ==>
      |o.verifications| == 1 && verify(o.verifications[0]).Verified?
    // the only downstream call sets role "student" on a present, non-empty user id
    ensures forall c :: c in o.updates ==>
      c.api == UpdateUserMetadata && c.role == StudentRole && Truthy(c.userId)
    // a 500 is either a configuration error or a downstream failure, never a signature problem
    ensures o.response.status == 500 ==>
      !Truthy(secret) || (|o.updates| == 1 && update(o.updates[0]) == Failed)
  {
    if !Truthy(secret) then
      Outcome(Response(500, PlainText("Server misconfiguration")), [], [])
    else
      var svixId := Lookup(headers, SvixId);
      var svixTimestamp := Lookup(headers, SvixTimestamp);
      var svixSignature := Lookup(headers, SvixSignature);
      if !Truthy(svixId) || !Truthy(svixTimestamp) || !Truthy(svixSignature) then
        Outcome(Response(400, PlainText("Missing Svix headers")), [], [])
      else
        var req := VerifyRequest(secret.value, payload,
          map[SvixId := svixId.value, SvixTimestamp := svixTimestamp.value, SvixSignature := svixSignature.value]);
        match verify(req)
        case Rejected =>
          Outcome(Response(400, PlainText("Invalid signature")), [req], [])
        case Verified(evt) =>
          if evt.eventType == UserCreated then
            // `evt.data?.id`
            var userId := if evt.data.Some? then evt.data.value.id else None;
            if !Truthy(userId) then
              Outcome(Response(400, PlainText("User ID missing in event")), [req], [])
            else
              var call := UpdateCall(UpdateUserMetadata, userId, StudentRole);
              match update(call)
              case Failed =>
                Outcome(Response(500, PlainText("Failed to update user metadata")), [req], [call])
              case Ok =>
                Outcome(Response(200, JsonSuccess(true)), [req], [call])
          else
            Outcome(Response(200, JsonSuccess(true)), [req], [])
  }

  /** A missing or empty secret is a configuration error: 500, nothing verified, nothing updated. */
  lemma MissingSecret(secret: Option<string>, headers: map<string, string>, payload: Payload,
                      verify: Verifier, update: Downstream)
    requires !Truthy(secret)
    ensures HandleClerkWebhook(secret, headers, payload, verify, update)
         == Outcome(Response(500, PlainText("Server misconfiguration")), [], [])
  {
  }

  /** Any svix header absent or empty: 400, and neither the verifier nor the update API is called. */
  lemma MissingSvixHeaders(secret: Option<string>, headers: map<string, string>, payload: Payload,
                           verify: Verifier, update: Downstream)
    requires Truthy(secret) && !HasSvixHeaders(headers)
    ensures HandleClerkWebhook(secret, headers, payload, verify, update)
         == Outcome(Response(400, PlainText("Missing Svix headers")), [], [])
  {
  }

  /** A rejected signature gives 400 "Invalid signature" after exactly one verification and no update. */
  lemma RejectedSignature(secret: Option<string>, headers: map<string, string>, payload: Payload,
                          verify: Verifier, update: Downstream)
    requires Truthy(secret) && HasSvixHeaders(headers)
    requires verify(VerifyRequest(secret.value, payload, SvixPart(headers))).Rejected?
    ensures HandleClerkWebhook(secret, headers, payload, verify, update)
         == Outcome(Response(400, PlainText("Invalid signature")),
                    [VerifyRequest(secret.value, payload, SvixPart(headers))], [])
  {
  }

  /** The full behaviour once the signature is accepted: dispatch on the type tag, then on the user id. */
  lemma VerifiedDispatch(secret: Option<string>, headers: map<string, string>, payload: Payload,
                         verify: Verifier, update: Downstream, evt: Event)
    requires Truthy(secret) && HasSvixHeaders(headers)
    requires verify(VerifyRequest(secret.value, payload, SvixPart(headers))) == Verified(evt)
    ensures var o := HandleClerkWebhook(secret, headers, payload, verify, update);
      var req := VerifyRequest(secret.value, payload, SvixPart(headers));
      var call := UpdateCall(UpdateUserMetadata, if evt.data.Some? then evt.data.value.id else None, StudentRole);
      // any other type is acknowledged without a downstream call
      && (evt.eventType != UserCreated ==> o == Outcome(Response(200, JsonSuccess(true)), [req], []))
      // user.created without a usable id is a client error, without a downstream call
      && (evt.eventType == UserCreated && !Truthy(call.userId) ==>
            o == Outcome(Response(400, PlainText("User ID missing in event")), [req], []))
      // user.created with an id: exactly one update, whose result decides 200 or 500
      && (evt.eventType == UserCreated && Truthy(call.userId) ==>
            o.verifications == [req] && o.updates == [call] &&
            o.response == (if update(call) == Ok then Response(200, JsonSuccess(true))
                           else Response(500, PlainText("Failed to update user metadata"))))
  {
  }

  /** Headers other than the three svix headers cannot influence anything the handler does. */
  lemma IgnoresOtherHeaders(secret: Option<string>, h1: map<string, string>, h2: map<string, string>,
                            payload: Payload, verify: Verifier, update: Downstream)
    requires SvixPart(h1) == SvixPart(h2)
    ensures HandleClerkWebhook(secret, h1, payload, verify, update)
         == HandleClerkWebhook(secret, h2, payload, verify, update)
  {
  }
}
