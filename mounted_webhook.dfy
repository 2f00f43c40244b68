/**
  src/webhooks/clerkWebhook.ts, the router that src/app.ts mounts: the header
  normaliser `normalizeHeaders` and the handler of `POST /webhooks/clerk`,
  whose single try/catch turns every thrown error into one 400 response.
 */
module MountedWebhook {
  import opened WebhookTypes

  /** A Node request header value: `string | string[] | undefined`. */
  datatype HeaderValue = Undefined | Single(value: string) | Multiple(values: seq<string>)

  /** `Array.prototype.join(",")` on an array of strings. */
  function Join(parts: seq<string>): (r: string)
    ensures parts == [] ==> r == ""
    ensures parts != [] ==> |r| == Length(parts) + |parts| - 1
    ensures parts != [] ==> r[..|parts[0]|] == parts[0]
  {
    if parts == [] then ""
    else if |parts| == 1 then parts[0]
    else parts[0] + "," + Join(parts[1..])
  }

  /** Total number of characters in `parts`. */
  function Length(parts: seq<string>): (n: nat)
  {
    if parts == [] then 0 else |parts[0]| + Length(parts[1..])
  }

  /** Splitting on every ',' (`String.prototype.split(",")`): the inverse of `Join` on non-empty arrays of comma-free parts. */
  function Split(s: string): (r: seq<string>)
    ensures |r| >= 1
  {
    if s == [] then [""]
    else
      var rest := Split(s[1..]);
      if s[0] == ',' then [""] + rest
      else [[s[0]] + rest[0]] + rest[1..]
  }

  /** A comma-free prefix is glued onto the first piece of whatever follows it. */
  lemma {:induction false} SplitCommaFreePrefix(a: string, t: string)
    requires ',' !in a
    ensures Split(a + t) == [a + Split(t)[0]] + Split(t)[1..]
    decreases |a|
  {
    if a == [] {
      var r := Split(t);
      assert a + t == t && a + r[0] == r[0];
      assert r == [r[0]] + r[1..];
    } else {
      assert (a + t)[1..] == a[1..] + t;
      SplitCommaFreePrefix(a[1..], t);
      assert [a[0]] + (a[1..] + Split(t)[0]) == a + Split(t)[0];
    }
  }

  /** Joined header values can be told apart again when none contains a comma. */
  lemma {:induction false} SplitJoin(parts: seq<string>)
    requires parts != []
    requires forall i :: 0 <= i < |parts| ==> ',' !in parts[i]
    ensures Split(Join(parts)) == parts
  {
    if |parts| == 1 {
      SplitCommaFreePrefix(parts[0], "");
      assert parts[0] + "" == parts[0];
    } else {
      var t := "," + Join(parts[1..]);
      assert Join(parts) == parts[0] + t;
      SplitCommaFreePrefix(parts[0], t);
      assert t[0] == ',' && t[1..] == Join(parts[1..]);
      assert Split(t) == [""] + Split(t[1..]);
      SplitJoin(parts[1..]);
      assert Split(t) == [""] + parts[1..];
      assert parts[0] + Split(t)[0] == parts[0];
      assert Split(t)[1..] == parts[1..];
      assert [parts[0]] + parts[1..] == parts;
    }
  }

  /** The string a defined header value is normalised to. */
  function Flatten(v: HeaderValue): (s: string)
    requires !v.Undefined?
  {
    match v
    case Single(s) => s
    case Multiple(vs) => Join(vs)
  }

  /** What `normalizeHeaders` returns: every defined header, flattened to one string. */
  function Normalized(headers: map<string, HeaderValue>): (out: map<string, string>)
  {
    map k | k in headers && !headers[k].Undefined? :: Flatten(headers[k])
  }

  /** A string-valued record seen as a header record (`Record<string, string>` is a subtype). */
  function Lift(h: map<string, string>): (r: map<string, HeaderValue>)
  {
    map k | k in h :: Single(h[k])
  }

  /**
    `normalizeHeaders`: the loop over `Object.entries(headers)` filling `out`.
    Entries are visited in some order; since keys are distinct the result does
    not depend on it.
   */
  method NormalizeHeaders(headers: map<string, HeaderValue>) returns (out: map<string, string>)
    // the keys kept are exactly the defined ones, every header name included (not only svix-*)
    ensures out.Keys == set k | k in headers && !headers[k].Undefined?
    // arrays are joined with ",", strings copied unchanged
    ensures forall k :: k in headers && headers[k].Multiple? ==> out[k] == Join(headers[k].values)
    ensures forall k :: k in headers && headers[k].Single? ==> out[k] == headers[k].value
    ensures out == Normalized(headers)
  {
    out := map[];
    var todo := headers.Keys;
    while todo != {}
      invariant todo <= headers.Keys
      invariant out.Keys == set k | k in headers && k !in todo && !headers[k].Undefined?
      invariant forall k :: k in out ==> out[k] == Flatten(headers[k])
      decreases |todo|
    {
      var key :| key in todo;
      var value := headers[key];
      match value {
        case Multiple(vs) =>
          out := out[key := Join(vs)];
        case Single(s) =>
          out := out[key := s];
        case Undefined =>
      }
      todo := todo - {key};
    }
  }

  /** Array values: joined in order; one element gives that element, none gives "". */
  lemma NormalizedArray(headers: map<string, HeaderValue>, k: string)
    requires k in headers && headers[k].Multiple?
    ensures k in Normalized(headers)
    ensures Normalized(headers)[k] == Join(headers[k].values)
    ensures |headers[k].values| == 1 ==> Normalized(headers)[k] == headers[k].values[0]
    ensures headers[k].values == [] ==> Normalized(headers)[k] == ""
    ensures (forall i :: 0 <= i < |headers[k].values| ==> ',' !in headers[k].values[i]) && headers[k].values != []
            ==> Split(Normalized(headers)[k]) == headers[k].values
  {
    var vs := headers[k].values;
    if (forall i :: 0 <= i < |vs| ==> ',' !in vs[i]) && vs != [] {
      SplitJoin(vs);
    }
  }

  /** A string record is a fixed point of normalisation. */
  lemma NormalizeLift(h: map<string, string>)
    ensures Normalized(Lift(h)) == h
  {
  }

  /** Normalising the normaliser's own output changes nothing. */
  lemma NormalizeIdempotent(headers: map<string, HeaderValue>)
    ensures Normalized(Lift(Normalized(headers))) == Normalized(headers)
  {
  }

  /**
    One request through the mounted handler. `secret` is CLERK_WEBHOOK_SECRET as
    read when the module loads; `rawHeaders` is `req.headers`.
   */
  function HandleWebhook(secret: Option<string>, rawHeaders: map<string, HeaderValue>, payload: Payload,
                         verify: Verifier, update: Downstream): (o: Outcome)
    ensures o.response.status in {200, 400, 500}
    ensures |o.verifications| <= 1 && |o.updates| <= 1
    // 500 means a missing secret, and nothing else does
    ensures o.response.status == 500 <==> !Truthy(secret)
    ensures !Truthy(secret) ==> o.verifications == [] && o.updates == []
    // the verifier is handed the secret, the body and all normalised headers
    ensures forall r :: r in o.verifications ==>
      Truthy(secret) && r == VerifyRequest(secret.value, payload, Normalized(rawHeaders))
    // trust boundary: no update and no 200 without a successful verification
    ensures o.updates != [] || o.response.status == 200 ==>
      |o.verifications| == 1 && verify(o.verifications[0]).Verified?
    // a 200 for user.created means the single update was made and succeeded
    ensures o.response.status == 200 && verify(o.verifications[0]).event.eventType == UserCreated ==>
      |o.updates| == 1 && update(o.updates[0]) == Ok
    ensures forall c :: c in o.updates ==> c.api == UpdateUser && c.role == StudentRole
  {
    if !Truthy(secret) then
      Outcome(Response(500, JsonError("Missing Clerk webhook secret")), [], [])
    else
      // the UTF-8 decoding of the body is not modelled: the body is passed as received
      var req := VerifyRequest(secret.value, payload, Normalized(rawHeaders));
      match verify(req)
      case Rejected =>
        Outcome(Response(400, JsonError("Invalid webhook")), [req], [])
      case Verified(evt) =>
        if evt.eventType == UserCreated then
          match evt.data
          case None =>
            // reading `.id` of undefined throws a TypeError, caught below
            Outcome(Response(400, JsonError("Invalid webhook")), [req], [])
          case Some(d) =>
            var call := UpdateCall(UpdateUser, d.id, StudentRole);
            match update(call)
            case Failed =>
              Outcome(Response(400, JsonError("Invalid webhook")), [req], [call])
            case Ok =>
              Outcome(Response(200, JsonSuccess(true)), [req], [call])
        else
          Outcome(Response(200, JsonSuccess(true)), [req], [])
  }

  /** A missing secret gives 500 before any header work or verification. */
  lemma MissingSecret(secret: Option<string>, rawHeaders: map<string, HeaderValue>, payload: Payload,
                      verify: Verifier, update: Downstream)
    requires !Truthy(secret)
    ensures HandleWebhook(secret, rawHeaders, payload, verify, update)
         == Outcome(Response(500, JsonError("Missing Clerk webhook secret")), [], [])
  {
  }

  /**
    Every failure once the secret is present is the same 400 "Invalid webhook":
    a rejected signature, an event without `data`, and a failed update alike.
   */
  lemma FailuresCollapseTo400(secret: Option<string>, rawHeaders: map<string, HeaderValue>, payload: Payload,
                              verify: Verifier, update: Downstream)
    requires Truthy(secret)
    ensures var o := HandleWebhook(secret, rawHeaders, payload, verify, update);
      var v := verify(VerifyRequest(secret.value, payload, Normalized(rawHeaders)));
      var failed := v.Rejected? ||
        (v.event.eventType == UserCreated &&
         (v.event.data.None? || update(UpdateCall(UpdateUser, v.event.data.value.id, StudentRole)) == Failed));
      (failed ==> o.response == Response(400, JsonError("Invalid webhook"))) &&
      (!failed ==> o.response == Response(200, JsonSuccess(true)))
  {
  }

  /** Missing svix headers end up as a rejected verification, provided svix rejects them. */
  lemma MissingSvixHeaders(secret: Option<string>, rawHeaders: map<string, HeaderValue>, payload: Payload,
                           verify: Verifier, update: Downstream)
    requires RejectsMissingSvixHeaders(verify)
    requires Truthy(secret) && !HasSvixHeaders(Normalized(rawHeaders))
    ensures HandleWebhook(secret, rawHeaders, payload, verify, update)
         == Outcome(Response(400, JsonError("Invalid webhook")),
                    [VerifyRequest(secret.value, payload, Normalized(rawHeaders))], [])
  {
  }

  /** Dispatch: user.created with data makes exactly one update with its id; any other type makes none. */
  lemma VerifiedDispatch(secret: Option<string>, rawHeaders: map<string, HeaderValue>, payload: Payload,
                         verify: Verifier, update: Downstream, evt: Event)
    requires Truthy(secret)
    requires verify(VerifyRequest(secret.value, payload, Normalized(rawHeaders))) == Verified(evt)
    ensures var o := HandleWebhook(secret, rawHeaders, payload, verify, update);
      && (evt.eventType != UserCreated ==> o.updates == [] && o.response == Response(200, JsonSuccess(true)))
      && (evt.eventType == UserCreated && evt.data.Some? ==>
            o.updates == [UpdateCall(UpdateUser, evt.data.value.id, StudentRole)])
      && (evt.eventType == UserCreated && evt.data.None? ==> o.updates == [])
  {
  }
}
