/**
  Values shared by both Clerk webhook handlers: the request pieces they read,
  the two foreign capabilities they call (the svix signature verifier and the
  Clerk user-update API), and the observable result of one request.

  The foreign capabilities are modelled as total functions of their arguments.
  A handler returns the response together with every call it made to them, so
  "which calls happen, with which arguments" is part of its result.
 */
module WebhookTypes {

  datatype Option<+T> = None | Some(value: T)

  /** The raw request body, as received. */
  type Payload = seq<bv8>

  /** JavaScript truthiness of a value typed `string | undefined`: defined and not "". */
  predicate Truthy(s: Option<string>)
  {
    s.Some? && s.value != ""
  }

  /** `m[k]` on a JavaScript record: undefined when the key is absent. */
  function Lookup(m: map<string, string>, k: string): Option<string>
  {
    if k in m then Some(m[k]) else None
  }

  const SvixId: string := "svix-id"
  const SvixTimestamp: string := "svix-timestamp"
  const SvixSignature: string := "svix-signature"
  const SvixHeaderNames: set<string> := {SvixId, SvixTimestamp, SvixSignature}

  /** The one event type that triggers the downstream update. */
  const UserCreated: string := "user.created"
  /** The role written into the user's public metadata. */
  const StudentRole: string := "student"

  /** The `data` object of a decoded event; only its `id` is read. */
  datatype UserData = UserData(id: Option<string>)
  /** A decoded, verified event: its `type` tag and its (possibly absent) `data`. */
  datatype Event = Event(eventType: string, data: Option<UserData>)

  /** What is handed to svix: the secret given to `new Webhook(secret)`, the body and the headers. */
  datatype VerifyRequest = VerifyRequest(secret: string, payload: Payload, headers: map<string, string>)
  /** `verify` either returns the decoded event or throws. */
  datatype VerifyResult = Verified(event: Event) | Rejected
  type Verifier = VerifyRequest -> VerifyResult

  /** The two Clerk SDK calls the handlers use. */
  datatype UpdateApi = UpdateUserMetadata | UpdateUser
  /** One downstream call: API, user id argument (undefined possible), and the `role` put in publicMetadata. */
  datatype UpdateCall = UpdateCall(api: UpdateApi, userId: Option<string>, role: string)
  /** The awaited call either resolves or rejects. */
  datatype DownstreamResult = Ok | Failed
  type Downstream = UpdateCall -> DownstreamResult

  /** `res.send(text)`, `res.json({ success })` or `res.json({ error })`. */
  datatype Body = PlainText(text: string) | JsonSuccess(success: bool) | JsonError(error: string)
  datatype Response = Response(status: nat, body: Body)

  /** The response of one request and the foreign calls made while producing it, in order. */
  datatype Outcome = Outcome(response: Response, verifications: seq<VerifyRequest>, updates: seq<UpdateCall>)

  /** The part of a header map that the svix scheme is about. */
  function SvixPart(h: map<string, string>): map<string, string>
  {
    map k | k in h && k in SvixHeaderNames :: h[k]
  }

  /**
    Two header maps have the same svix part exactly when a lookup of each of
    the three svix names gives the same answer in both.
   */
  lemma SvixPartAgreement(h1: map<string, string>, h2: map<string, string>)
    ensures SvixPart(h1) == SvixPart(h2) <==>
      && Lookup(h1, SvixId) == Lookup(h2, SvixId)
      && Lookup(h1, SvixTimestamp) == Lookup(h2, SvixTimestamp)
      && Lookup(h1, SvixSignature) == Lookup(h2, SvixSignature)
  {
    var p1, p2 := SvixPart(h1), SvixPart(h2);
    var same := forall n | n in SvixHeaderNames :: Lookup(h1, n) == Lookup(h2, n);
    if p1 == p2 {
      forall n | n in SvixHeaderNames
        ensures Lookup(h1, n) == Lookup(h2, n)
      {
        assert n in h1 <==> n in p1;
        assert n in h2 <==> n in p2;
        if n in h1 { assert p1[n] == h1[n] && p2[n] == h2[n]; }
      }
    }
    if same {
      assert p1.Keys == p2.Keys;
      forall n | n in p1 ensures p1[n] == p2[n] {
        assert Lookup(h1, n) == Lookup(h2, n);
      }
    }
  }

  /** All three svix headers are present and non-empty. */
  predicate HasSvixHeaders(h: map<string, string>)
  {
    Truthy(Lookup(h, SvixId)) && Truthy(Lookup(h, SvixTimestamp)) && Truthy(Lookup(h, SvixSignature))
  }

  /**
    Hypothesis about the verifier: when the three svix headers are present and
    non-empty, its verdict depends on the headers only through them.
   */
  ghost predicate ReadsOnlySvixHeaders(verify: Verifier)
  {
    forall r1: VerifyRequest, r2: VerifyRequest ::
      HasSvixHeaders(r1.headers) && r1.secret == r2.secret && r1.payload == r2.payload &&
      SvixPart(r1.headers) == SvixPart(r2.headers)
      ==> verify(r1) == verify(r2)
  }

  /**
    Hypothesis about the verifier: it throws whenever one of the three svix
    headers is absent or empty.
   */
  ghost predicate RejectsMissingSvixHeaders(verify: Verifier)
  {
    forall r: VerifyRequest :: !HasSvixHeaders(r.headers) ==> verify(r).Rejected?
  }
}
