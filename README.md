# Entitlement webhook and category suggestion: a Dafny model

The finance assistant has two serverless functions with logic of their own.

- **stripe-webhook** receives the payment provider's signed events. It checks
  its four configuration values and has the provider's SDK verify the
  signature. It then ignores every event type except
  `checkout.session.completed`, finds the purchaser's user id by email and sets
  `is_pro = true` and `stripe_customer_id` on that user's row of the `profiles`
  table. This flips the user from Free to Pro.
- **categorize-transaction** asks a language model to label a transaction
  description. It trims the reply, removes its first `.` and returns the result
  if it is one of 15 fixed Portuguese labels. Otherwise it returns `"Outros"`.

Every call into code that is not part of this model becomes an input:

- the SDK's signature check is a function value `Verifier` from (raw body, header, secret) to an event or a failure;
- the user lookup is a function value `Directory` from email to an error or a list of user ids;
- the store's update error is an `Option<string>`;
- the model's reply is a `Reply` (a failure with its message, or text);
- the parsed request body is a `Body`.

"The handler never consults X on this path" is stated as independence: two
different oracles give the same outcome.

Files:

- `webhook.dfy`, module `Webhook`, has these parts:
  - `Decide`: the guard chain, as a pure function;
  - `Warrants`: the conjunction of checks that an upgrade needs;
  - `ProfileStore`: a class whose `profiles: map<UserId, Profile>` field is updated in place by `Update`;
  - `Outcome`: the whole handler as a function of the table before the call;
  - `HandleWebhook`: the handler method, proved equal to `Outcome`;
  - lemmas for each rejection path, the success path, redelivery and monotonicity.
- `categorize.dfy`, module `Categorize`, has these parts:
  - JavaScript's `trim` (exact ECMAScript whitespace set) and `replace` with a one-character pattern (first occurrence only);
  - the normalise-and-fallback step `CategoryOf`;
  - the request handler `Handle`;
  - lemmas about all of these.

What the code does at the points where a reader might expect otherwise:

- The webhook checks four environment values before it verifies anything: the API key, the signing secret, the store URL and the store key (`Decide`, `MissingConfigRejects`).
- A store write failure is rethrown into the shared `catch` and answered **400** with the store's message (`UpdateErrorRejects`).
- The labels are the 15 Portuguese strings of categorize-transaction lines 23-27, and the fallback is `"Outros"`.
- A failed model call is answered **500** with the error's message (`FailuresAnswer500`).

Behaviour of the code as written that the model makes explicit:

- `users[0]` is taken without checking that its email matches, or that only one user matched.
- If that id has no `profiles` row, `update(...).eq('id', id)` matches nothing, reports no error, and the webhook answers 200 (`ApplyUpdate`, `WarrantedUpgradeApplies`).
- A null `session.customer` writes a null `stripe_customer_id` over any earlier value.
- Trimming happens before the `.` is removed. So a reply `"Lazer ."` keeps its inner space and falls back to `"Outros"`. A reply `"Lazer.."` keeps one `.` and falls back too (`SpaceOrSecondDotFallsBack`).

## Model

| member | source | states |
|---|---|---|
| `Webhook.Present` | supabase/functions/stripe-webhook/index.ts:19 | JavaScript truthiness of an optional string: a value is present when it is defined and not the empty string. The same test decides the purchaser email at line 43. |
| `Webhook.Configured` | supabase/functions/stripe-webhook/index.ts:19 | The negation of the line-19 guard: all four environment values are present. |
| `Webhook.Decide` | supabase/functions/stripe-webhook/index.ts:19-56 | The 500 "configuration incomplete" response happens exactly when one of the four env values is missing or empty. The chain asks for an upgrade of (id, customer) if and only if `Warrants` holds: configured, verified, completed checkout, email present, non-empty user list whose first id is `id`. Every early response is 200, 400 or 500. A 200 early response is only the acknowledgement of a verified event of another type. |
| `Webhook.Upgraded` | supabase/functions/stripe-webhook/index.ts:59-62 | The updated row is Pro, carries the session's customer, and keeps its other columns. |
| `Webhook.ApplyUpdate` | supabase/functions/stripe-webhook/index.ts:59-62 | Updating by id keeps the table's keys. The row `id`, if present, becomes Pro with the customer. Every other row is unchanged. An id with no row leaves the table as it was. |
| `Webhook.Outcome` | supabase/functions/stripe-webhook/index.ts:19-73 | The status is 200, 400 or 500, and 500 exactly when misconfigured. Keys and emails never change, and a Pro row stays Pro. If the table changes at all, the response is 200 `{received:true}` and `Warrants` held. Only the row named by the decision can change. |
| `Webhook.ProfileStore.constructor` | supabase/functions/stripe-webhook/index.ts:59-60 | The store starts with the given table. |
| `Webhook.ProfileStore.Update` | supabase/functions/stripe-webhook/index.ts:59-67 | The store's error is returned as given. Without an error the table becomes `ApplyUpdate` of the old table; with one it is unchanged. |
| `Webhook.HandleWebhook` | supabase/functions/stripe-webhook/index.ts:9-75 | Running the handler against the store gives exactly the response and new table of `Outcome` on the old table. |
| `Webhook.MissingConfigRejects` | supabase/functions/stripe-webhook/index.ts:19-22 | Missing configuration gives 500 and no write, whatever the verifier, the directory and the store would do. |
| `Webhook.InvalidSignatureRejects` | supabase/functions/stripe-webhook/index.ts:31-35 | A signature that the verifier (`Authenticate`, with the header present) rejects gives 400 with the SDK's message and no write, and the directory and the store are not consulted. |
| `Webhook.MissingHeaderRejects` | supabase/functions/stripe-webhook/index.ts:10-35 | An absent signature header is rejected by `Authenticate` before the verifier is asked: 400 and no write, whatever the verifier would accept. |
| `Webhook.OtherEventsIgnored` | supabase/functions/stripe-webhook/index.ts:38-70 | A verified event of any type other than a completed checkout gives 200 `{received:true}` and no write. |
| `Webhook.MissingEmailRejects` | supabase/functions/stripe-webhook/index.ts:40-45 | A completed checkout with a null, absent or empty purchaser email gives 400 and no write. |
| `Webhook.UnknownUserRejects` | supabase/functions/stripe-webhook/index.ts:51-55 | A lookup error or an empty user list gives 400 naming the email, and no write. |
| `Webhook.WarrantedUpgradeApplies` | supabase/functions/stripe-webhook/index.ts:56-70 | A warranted upgrade that the store accepts gives 200. The first listed user's row, if any, becomes Pro with the session's customer and keeps its email. Every other row is unchanged. |
| `Webhook.UpdateErrorRejects` | supabase/functions/stripe-webhook/index.ts:64-73 | A store error on a warranted upgrade gives 400 with the store's message, and the table stays as it was. |
| `Webhook.RedeliveryIdempotent` | supabase/functions/stripe-webhook/index.ts:31-62 | Redelivering an event whose first write succeeded, as a second request that may carry a different signature header: if it verifies to the same event or is rejected, the table stays as the first delivery left it, whatever the store reports. If it verifies to the same event and the write is clean, the response and table are those of the first delivery. |
| `Webhook.Replay` | supabase/functions/stripe-webhook/index.ts:78 | Any sequence of deliveries keeps the table's keys. |
| `Webhook.ProIsMonotone` | supabase/functions/stripe-webhook/index.ts:59-62 | Over any sequence of deliveries, a Pro row stays Pro: no path sets `is_pro` to false. |
| `Webhook.ExamplePurchase` | supabase/functions/stripe-webhook/index.ts:38-70 | A verified purchase by `a@b.com` with customer `cus_123` makes that user's row Pro with that customer. The other row is untouched and the response is 200. |
| `Categorize.IsJsWhitespace` | supabase/functions/categorize-transaction/index.ts:54 | The characters `trim` strips: ECMAScript WhiteSpace (tab, vertical tab, form feed, space, no-break space, zero-width no-break space, every Zs character) and LineTerminator (LF, CR, U+2028, U+2029). |
| `Categorize.TrimStart` | supabase/functions/categorize-transaction/index.ts:54 | The result is a suffix of the input. Everything dropped is whitespace, and the result does not start with whitespace. |
| `Categorize.TrimEnd` | supabase/functions/categorize-transaction/index.ts:54 | The result is a prefix of the input. Everything dropped is whitespace, and the result does not end with whitespace. |
| `Categorize.Trim` | supabase/functions/categorize-transaction/index.ts:54 | The result is no longer than the input and has no whitespace at either end. It is empty exactly when the input is all whitespace. Which part of the input it is (the inner part between the whitespace padding) is `TrimDropsPadding`. |
| `Categorize.IndexOf` | supabase/functions/categorize-transaction/index.ts:54 | The result is the position of the first occurrence, or -1 exactly when the character does not occur. |
| `Categorize.RemoveFirst` | supabase/functions/categorize-transaction/index.ts:54 | Only the first occurrence of the character is cut out; without one the string is unchanged. The length drops by one exactly when the character occurs, and the multiset loses exactly one copy of it. |
| `Categorize.Normalize` | supabase/functions/categorize-transaction/index.ts:54 | After trimming, at most one `.` is removed, and it is the first. With no `.` the trimmed reply is returned as it is. |
| `Categorize.CategoryOf` | supabase/functions/categorize-transaction/index.ts:54-59 | The result is always one of the 15 labels. It is the normalised reply when that is a label, and `"Outros"` otherwise. |
| `Categorize.NormalizeFixes` | supabase/functions/categorize-transaction/index.ts:54 | A string with no `.` and no whitespace at its ends is unchanged by normalisation. |
| `Categorize.CategoriesAreClean` | supabase/functions/categorize-transaction/index.ts:23-27 | No label is empty, contains `.`, or has whitespace at an end. |
| `Categorize.LabelIsClean` | supabase/functions/categorize-transaction/index.ts:23-27 | Every member of the label list is clean and non-empty. |
| `Categorize.FallbackIsCategory` | supabase/functions/categorize-transaction/index.ts:56-59 | The fallback `"Outros"` is a label and is returned for itself. |
| `Categorize.CategoriesAreNormal` | supabase/functions/categorize-transaction/index.ts:23-27 | Normalising any label gives it back, so each label is returned for itself. |
| `Categorize.UncleanIsNoLabel` | supabase/functions/categorize-transaction/index.ts:23-27 | A string with a `.` or with whitespace at an end is not a label. |
| `Categorize.TrimStartDropsPadding` | supabase/functions/categorize-transaction/index.ts:54 | Leading whitespace in front of a non-whitespace character is exactly what is dropped at the start. |
| `Categorize.TrimEndDropsPadding` | supabase/functions/categorize-transaction/index.ts:54 | Trailing whitespace after a non-whitespace character is exactly what is dropped at the end. |
| `Categorize.TrimDropsPadding` | supabase/functions/categorize-transaction/index.ts:54 | `trim` of whitespace + t + whitespace is t, when t's ends are not whitespace. |
| `Categorize.NormalizeDropsPadding` | supabase/functions/categorize-transaction/index.ts:54 | A clean string padded with whitespace, with or without one trailing `.`, normalises to itself. |
| `Categorize.PaddedLabelRecognised` | supabase/functions/categorize-transaction/index.ts:54-59 | Any label padded with whitespace, with or without one trailing `.`, is returned as that label. |
| `Categorize.RemoveFirstAfter` | supabase/functions/categorize-transaction/index.ts:54 | Removing the first `.` from u + "." + v, where u has no `.`, gives u + v. |
| `Categorize.NormalizeKeepsSpaceBeforeDot` | supabase/functions/categorize-transaction/index.ts:54 | A clean string followed by `" ."` normalises to that string plus a space: trimming comes first, so the space survives. |
| `Categorize.NormalizeKeepsSecondDot` | supabase/functions/categorize-transaction/index.ts:54 | A clean string followed by `".."` keeps one `.`. |
| `Categorize.SpaceOrSecondDotFallsBack` | supabase/functions/categorize-transaction/index.ts:54-59 | A label written `"<label> ."` or `"<label>.."` falls back to `"Outros"`. |
| `Categorize.CategoryOfIdempotent` | supabase/functions/categorize-transaction/index.ts:54-59 | Post-processing a returned category again returns it unchanged. |
| `Categorize.Truthy` | supabase/functions/categorize-transaction/index.ts:38 | JavaScript truthiness of the parsed `description`: `undefined`, `null`, `false`, `0` and `""` are falsy, everything else (objects and arrays included) is truthy. `!description` is its negation. |
| `Categorize.Handle` | supabase/functions/categorize-transaction/index.ts:29-72 | OPTIONS is answered 200 `"ok"` with CORS headers. All other responses carry CORS and JSON headers. The status is 200, 400 or 500, and 200 exactly when the payload is not an error. A category payload is always a label. A missing or falsy description gets 400 `"Description is required"`. |
| `Categorize.PreflightNeverAsksModel` | supabase/functions/categorize-transaction/index.ts:31-33 | An OPTIONS request gets 200 `"ok"` whatever the body and the model reply. |
| `Categorize.MissingDescriptionNeverAsksModel` | supabase/functions/categorize-transaction/index.ts:38-43 | A missing or falsy description gets 400 `{error:"Description is required"}` whatever the model would reply. |
| `Categorize.FailuresAnswer500` | supabase/functions/categorize-transaction/index.ts:65-70 | A failure reading the body, or a failed model call, is answered 500 with `{error: message}` and does not escape. |
| `Categorize.ReplyAlwaysYieldsLabel` | supabase/functions/categorize-transaction/index.ts:54-64 | For a real description, any model text gives 200 and a category from the label list: the normalised text when it is a label, `"Outros"` otherwise. The response is exactly the 200 JSON response carrying `CategoryOf` of the text. |

## Left out

- Stripe signature cryptography (HMAC-SHA256 inside the SDK): the `Verifier` oracle stands for it.
- The SDK's refusal of a missing header is modelled with a fixed message; its exact wording belongs to the SDK.
- Supabase client construction (`createClient`, stripe-webhook line 48) is left out. The result of `auth.admin.listUsers` is the input `Directory`, and the store's reported write error is the input `updateError`. Whether `listUsers({ email })` really filters by email is library behaviour, and the model does not assume it.
- UnknownUserRejects: an exception thrown by `createClient` or by `listUsers` itself (lines 48 and 51, inside the `try`) has no case of its own. The source answers it 400 with that exception's message and writes nothing. The model's only lookup failure, `LookupFailed`, stands for a returned `userError`, so on that path the model gives the same 400 and no write but the line-54 message instead of the exception's.
- RedeliveryIdempotent: the `Verifier` is a function of (body, header, secret) only, so it leaves out the SDK's timestamp-tolerance check. A request replayed unchanged after the tolerance window is rejected (400) in the source; the lemma's second clause assumes the retry verifies to the same event, as a freshly signed Stripe retry does.
- Gemini `generateContent`, the prompt wording, `temperature` and the model name are out: the reply is the input `Reply`. A reply whose `text` is undefined makes `.trim()` throw; it is the `Failed` case.
- `serve`, `req.text()`, `req.json()` and JSON serialisation are out. In categorize-transaction the body read sits inside the `try`, so `Body` carries its outcome: a read or parse failure, or a JSON `null` body that makes the destructuring throw, is a `Body.Unreadable`. In stripe-webhook, `Request` carries only the text that was read.
- Outcome: a failed body read in stripe-webhook is not modelled. `await req.text()` (line 11) runs before and outside the `try`, so such a failure rejects the handler and `serve` answers with its own server error even when the configuration is complete. The model's "500 exactly when misconfigured" assumes the body was read.
- Exact header maps are left out. Only "CORS" versus "CORS + JSON content type" is kept.
- The Stripe client construction and API version (stripe-webhook lines 24-27) are out because they have no behaviour to model. So is the module-load `GEMINI_API_KEY` check (categorize-transaction lines 8-11), which runs before any request is served.
- Logging (`console.error`) is left out.
- Concurrency between invocations and the store's atomicity are platform guarantees. Each delivery is one sequential step on the table.
- Strings are sequences of Unicode scalar values. JavaScript strings are UTF-16, so lone surrogates are not represented. No Unicode normalisation is applied, as in the source. The whitespace set is ECMAScript's WhiteSpace and LineTerminator with the Unicode Zs characters as of Unicode 15.
- `Profile` keeps only `email`, `is_pro` and `stripe_customer_id`. `email` stands for all the other columns, which the update leaves alone.
