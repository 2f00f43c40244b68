# Clerk webhook server: model of the request decision pipeline

The server receives signed webhooks from Clerk (an identity provider). It
checks the svix signature. For a `user.created` event it sets the new user's
public metadata to `role: "student"` through the Clerk API. The repository has
two versions of this handler:

- `src/clerkWebhook.ts` (route `/clerk-webhook`, here `LegacyWebhook`): a chain
  of guarded early returns. The checks run in this order: the secret, the three
  `svix-*` headers, the signature, the event type, and the user id. Each exit
  answers 500, 400 or 200.
- `src/webhooks/clerkWebhook.ts` (route `/webhooks/clerk`, here `MountedWebhook`):
  this is the router `src/app.ts` mounts. After the secret check it normalises all
  headers (`normalizeHeaders`). It relies on svix to throw when headers are missing. One
  `catch` turns every error, including a failed Clerk update, into 400.

The two foreign calls are inputs to the model:

- `Verifier` stands for `new Webhook(secret)` followed by `verify`. It is a
  function from the request (secret, body, headers) to `Verified(event)` or
  `Rejected`.
- `Downstream` stands for the Clerk update call. It is a function from the call
  (API, user id, role) to `Ok` or `Failed`.

Each handler is a total function. It returns an `Outcome`: the response
(status and body), the requests handed to the verifier, and the update calls
made, in order. This lets the model state trust-boundary properties exactly,
such as "no update without a successful verification", "the verifier only sees
the three svix headers" (legacy handler) and "nothing happens on rejection".

`normalizeHeaders` is a loop that fills a record. It is modelled as the method
`NormalizeHeaders`, with a loop over the header keys, and proved equal to the
function `Normalized`. The array join has `Split` as its partner: the two are
proved to round-trip on a non-empty array of comma-free values.

`HandlerComparison` runs both handlers on the same request. It proves where
they agree (rejection, ignored event types, missing headers). It also proves
where they diverge: a failed update is 500 in one and 400 in the other, and an
event without a user id is refused by one while the other calls `updateUser`
with an undefined id.

## Model

| member | source | states |
|---|---|---|
| `WebhookTypes.SvixPartAgreement` | src/clerkWebhook.ts:24-26 | Two header maps have the same svix part exactly when the lookups of `svix-id`, `svix-timestamp` and `svix-signature` agree in both. |
| `LegacyWebhook.HandleClerkWebhook` | src/clerkWebhook.ts:12-73 | Every exit is 200, 400 or 500. There is at most one verification and at most one update. The verifier gets the secret, the raw body and exactly the three svix headers. An update or a 200 happens only after a successful verification. The only update sets role "student" on a non-empty id. A 500 means a missing secret or a failed update. |
| `LegacyWebhook.MissingSecret` | src/clerkWebhook.ts:18-22 | An absent or empty secret gives 500 "Server misconfiguration", with no verification and no update. |
| `LegacyWebhook.MissingSvixHeaders` | src/clerkWebhook.ts:24-31 | If any svix header is absent or empty, the result is 400 "Missing Svix headers", with no verification and no update. |
| `LegacyWebhook.RejectedSignature` | src/clerkWebhook.ts:35-47 | A rejected verification gives 400 "Invalid signature". Exactly one verification is made, on the three svix headers, and no update. |
| `LegacyWebhook.VerifiedDispatch` | src/clerkWebhook.ts:49-72 | Any type other than user.created gives 200 `{success: true}` with no update. user.created without a usable `data.id` gives 400 "User ID missing in event" with no update. Otherwise exactly one `updateUserMetadata(id, role "student")` is made; 200 if it succeeds, 500 "Failed to update user metadata" if it fails. |
| `LegacyWebhook.IgnoresOtherHeaders` | src/clerkWebhook.ts:24-41 | Two header maps that agree on the three svix headers give the same outcome. |
| `MountedWebhook.Join` | src/webhooks/clerkWebhook.ts:24-25 | The empty array joins to "". A non-empty array joins to its values' total length plus one comma between each pair, and starts with its first value. |
| `MountedWebhook.SplitJoin` | src/webhooks/clerkWebhook.ts:24-25 | For a non-empty array of comma-free values, splitting the joined string at commas gives back the array, in order. (The empty array is excluded: it joins to "", as `[""]` does.) |
| `MountedWebhook.NormalizeHeaders` | src/webhooks/clerkWebhook.ts:19-31 | The output keys are exactly the input keys whose value is not undefined, of any name. Arrays are joined with ",". Strings are copied unchanged. The output equals `Normalized`. |
| `MountedWebhook.NormalizedArray` | src/webhooks/clerkWebhook.ts:24-25 | An array-valued header is kept and becomes its joined values. A one-element array gives that element and an empty array gives "". A non-empty array of comma-free values can be split back out. |
| `MountedWebhook.NormalizeLift` | src/webhooks/clerkWebhook.ts:26-27 | A record of strings is normalised to itself. |
| `MountedWebhook.NormalizeIdempotent` | src/webhooks/clerkWebhook.ts:19-31 | Normalising the normaliser's output changes nothing. |
| `MountedWebhook.HandleWebhook` | src/webhooks/clerkWebhook.ts:33-67 | Every exit is 200, 400 or 500. A 500 happens exactly when the secret is missing, and then nothing is called. The verifier gets all normalised headers. An update or a 200 happens only after a successful verification. A 200 for user.created means exactly one update was made and it succeeded. Every update is `updateUser` with role "student". |
| `MountedWebhook.MissingSecret` | src/webhooks/clerkWebhook.ts:38-40 | A missing secret gives 500 `{error: "Missing Clerk webhook secret"}` before any header work or verification. |
| `MountedWebhook.FailuresCollapseTo400` | src/webhooks/clerkWebhook.ts:37-65 | With a secret, the response is 400 `{error: "Invalid webhook"}` exactly when verification is rejected, or when a user.created event has no data or its update fails. Otherwise it is 200 `{success: true}`. |
| `MountedWebhook.MissingSvixHeaders` | src/webhooks/clerkWebhook.ts:43-65 | Suppose svix rejects requests that lack a svix header. Then missing headers give 400 "Invalid webhook" after one verification and with no update. |
| `MountedWebhook.VerifiedDispatch` | src/webhooks/clerkWebhook.ts:50-61 | user.created with data makes exactly one `updateUser(data.id, role "student")`. Any other type gives 200 with no update. |
| `HandlerComparison.SameVerdict` | src/webhooks/clerkWebhook.ts:43-46 | Suppose the verifier only reads the svix headers when all three are present. Then, for a request with the secret set and all three svix headers present, each handler calls the verifier once and both get the same verdict. |
| `HandlerComparison.AgreeOnRejectedAndIgnored` | src/webhooks/clerkWebhook.ts:46-61 | Suppose the verifier only reads the svix headers when all three are present. With the secret set and all three svix headers present, after a rejection, or for an event type other than user.created, both handlers give the same status and make no update. That status is 200 exactly when verification succeeded. |
| `HandlerComparison.BothRefuseMissingHeaders` | src/clerkWebhook.ts:28-31 | Suppose svix rejects requests that lack a svix header. Then, when svix headers are missing, both handlers answer 400 with no update. The legacy handler never calls the verifier; the mounted one calls it once. |
| `HandlerComparison.DownstreamFailureDiverges` | src/clerkWebhook.ts:64-67 | Suppose the verifier only reads the svix headers when all three are present. With the secret set and all three svix headers present, a failed update for a valid user.created event with a non-empty id is answered 500 by the legacy handler and 400 by the mounted one. Both made one update with the same id. |
| `HandlerComparison.MissingUserIdDiverges` | src/webhooks/clerkWebhook.ts:50-56 | Suppose the verifier only reads the svix headers when all three are present. With the secret set and all three svix headers present, for user.created whose data has no id, the legacy handler answers 400 with no update. The mounted handler calls `updateUser` with an undefined id. |

## Left out

- Svix signature verification (HMAC, timestamp tolerance, signature lists, which header names svix looks up): it is a foreign library. It is the `Verifier` input. Properties that need it take a stated hypothesis about the verifier. `ReadsOnlySvixHeaders` assumes only that, when all three svix headers are present, the verdict depends on the headers through them alone. `RejectsMissingSvixHeaders` assumes that a request lacking a svix header is rejected; it does not allow for any alternative header names the library may accept instead.
- Clerk SDK client construction and the network calls: only the call's arguments and its success or failure are modelled (`Downstream`). Whether repeating the update is harmless is the Clerk API's property, not this code's.
- Express routing, `express.raw` body parsing, and the `res.status().send/json` plumbing: the response is a plain (status, body) value.
- The UTF-8 decoding of the body in the mounted handler (`req.body.toString("utf8")`): the verifier is handed the body as received.
- Environment loading, `src/index.ts` (port parsing, `app.listen`) and the route mounting in `src/app.ts`: process bootstrapping with no decision logic. CLERK_WEBHOOK_SECRET is the `secret` parameter. CLERK_SECRET_KEY, which configures the Clerk client, does not appear in the model: it is folded into the `Downstream` input.
- All `console.log` / `console.error` diagnostics, including the warning logged when the module loads.
- Array-valued headers in the legacy handler: its code casts header values to `string | undefined`, so they are modelled as strings.
- Decoded payloads that are not objects: an event is always a type tag plus an optional `data` with an optional `id`. A verified body that decodes to `null` makes both handlers throw when they read `evt.type` inside their `try`. The legacy handler (src/clerkWebhook.ts:43) then answers 400 "Invalid signature". The mounted handler (src/webhooks/clerkWebhook.ts:48) answers 400 "Invalid webhook". That case is not modelled.
- Property names that JavaScript objects treat specially (such as `__proto__`) in the record that `normalizeHeaders` fills: the record is modelled as a plain map.
- The optional mirroring of new users into a secondary record store: no file in this repository contains it.
