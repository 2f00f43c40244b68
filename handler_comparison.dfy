/**
  The two handlers side by side, on the same request. The legacy handler reads
  `headers` as strings; the mounted one receives the same record (`Lift`) and
  normalises it. Both hypotheses about the verifier describe how svix reads
  headers, which is not part of this model.
 */
module HandlerComparison {
  import opened WebhookTypes
  import LegacyWebhook
  import MountedWebhook

  /** Both handlers hand the verifier requests it cannot tell apart, so it returns the same verdict to both. */
  lemma SameVerdict(secret: Option<string>, h: map<string, string>, payload: Payload,
                    verify: Verifier, update: Downstream)
    requires ReadsOnlySvixHeaders(verify)
    requires Truthy(secret) && HasSvixHeaders(h)
    ensures var l := LegacyWebhook.HandleClerkWebhook(secret, h, payload, verify, update);
      var m := MountedWebhook.HandleWebhook(secret, MountedWebhook.Lift(h), payload, verify, update);
      |l.verifications| == 1 && |m.verifications| == 1 &&
      verify(l.verifications[0]) == verify(m.verifications[0]) == verify(VerifyRequest(secret.value, payload, h))
  {
  }

  /** Where they agree: a rejected signature is a 400 and an unregistered type a 200, neither with an update. */
  lemma AgreeOnRejectedAndIgnored(secret: Option<string>, h: map<string, string>, payload: Payload,
                                  verify: Verifier, update: Downstream)
    requires ReadsOnlySvixHeaders(verify)
    requires Truthy(secret) && HasSvixHeaders(h)
    requires var v := verify(VerifyRequest(secret.value, payload, h)); v.Rejected? || v.event.eventType != UserCreated
    ensures var l := LegacyWebhook.HandleClerkWebhook(secret, h, payload, verify, update);
      var m := MountedWebhook.HandleWebhook(secret, MountedWebhook.Lift(h), payload, verify, update);
      l.updates == [] && m.updates == [] && l.response.status == m.response.status &&
      (l.response.status == 200 <==> verify(VerifyRequest(secret.value, payload, h)).Verified?)
  {
  }

  /** Missing svix headers: the legacy handler refuses them itself; the mounted one only through svix. */
  lemma BothRefuseMissingHeaders(secret: Option<string>, h: map<string, string>, payload: Payload,
                                 verify: Verifier, update: Downstream)
    requires RejectsMissingSvixHeaders(verify)
    requires Truthy(secret) && !HasSvixHeaders(h)
    ensures var l := LegacyWebhook.HandleClerkWebhook(secret, h, payload, verify, update);
      var m := MountedWebhook.HandleWebhook(secret, MountedWebhook.Lift(h), payload, verify, update);
      l.response.status == 400 && m.response.status == 400 && l.updates == [] && m.updates == [] &&
      l.verifications == [] && |m.verifications| == 1
  {
  }

  /**
    Where they diverge: a failed update after a valid user.created event. Both
    call the update API once with the same id, but the legacy handler answers
    500 and the mounted one 400.
   */
  lemma DownstreamFailureDiverges(secret: Option<string>, h: map<string, string>, payload: Payload,
                                  verify: Verifier, update: Downstream, id: string)
    requires ReadsOnlySvixHeaders(verify)
    requires Truthy(secret) && HasSvixHeaders(h) && id != ""
    requires verify(VerifyRequest(secret.value, payload, h)).Verified?
    requires verify(VerifyRequest(secret.value, payload, h)).event.eventType == UserCreated
    requires verify(VerifyRequest(secret.value, payload, h)).event.data == Some(UserData(Some(id)))
    requires forall api :: update(UpdateCall(api, Some(id), StudentRole)) == Failed
    ensures var l := LegacyWebhook.HandleClerkWebhook(secret, h, payload, verify, update);
      var m := MountedWebhook.HandleWebhook(secret, MountedWebhook.Lift(h), payload, verify, update);
      l.response == Response(500, PlainText("Failed to update user metadata")) &&
      m.response == Response(400, JsonError("Invalid webhook")) &&
      l.updates == [UpdateCall(UpdateUserMetadata, Some(id), StudentRole)] &&
      m.updates == [UpdateCall(UpdateUser, Some(id), StudentRole)]
  {
  }

  /**
    Where they diverge: a user.created event whose data has no id. The legacy
    handler answers 400 without calling downstream; the mounted one calls
    `updateUser` with an undefined id.
   */
  lemma MissingUserIdDiverges(secret: Option<string>, h: map<string, string>, payload: Payload,
                              verify: Verifier, update: Downstream)
    requires ReadsOnlySvixHeaders(verify)
    requires Truthy(secret) && HasSvixHeaders(h)
    requires verify(VerifyRequest(secret.value, payload, h)) == Verified(Event(UserCreated, Some(UserData(None))))
    ensures var l := LegacyWebhook.HandleClerkWebhook(secret, h, payload, verify, update);
      var m := MountedWebhook.HandleWebhook(secret, MountedWebhook.Lift(h), payload, verify, update);
      l.response == Response(400, PlainText("User ID missing in event")) && l.updates == [] &&
      m.updates == [UpdateCall(UpdateUser, None, StudentRole)]
  {
  }
}
