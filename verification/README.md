# Mockup signer: signing core

A Dafny model of the signing core of the mockup signer backend
(`mockup-signer/backend/server.js`), an Express server that lets a user sign
a PDF with identity attributes disclosed from an NL wallet. With the HTTP,
upload and PDF layers removed, four parts remain, and this project models
each of them:

- **Session store** (`sessions`): `start` puts a `pending` session with no
  credentials under a new token. A mock disclosure step, a timer in the
  server, marks the session `completed` and attaches five fixed attributes.
  The status and credentials lookups answer "not found", "pending" or the
  stored value. Module `Sessions` gives these as functions of the map.
  `Server.Backend` holds the map and changes it in place.
- **Signed-document registry** (`signedDocuments`): each successful signing
  inserts one record under a new document id. No record is ever updated or
  removed (`Server.Backend.SignDocument`).
- **Signing record construction** (`Documents.Seal`): the record holds
  `signedBy`, which is derived from the credentials. Its signature is the
  base64 text of the RSA signature over the SHA-256 digest of the canonical
  payload. That payload is `JSON.stringify` of
  `{documentHash, sessionToken, timestamp, signer}`. Module `Json` builds it
  concretely, escaping strings as section 7 of RFC 8259 prescribes and as
  JavaScript's `JSON.stringify` does.
- **Verification** (`Documents.Verify`): look the record up, rebuild the
  payload from the stored fields, and check the signature. The reply is
  `verified: true` with the record's fields echoed, `verified: false` on a
  mismatch, `verified: false` with a message when the check throws, or
  `verified: false` for an unknown id.

The main safety claim is that verification rebuilds exactly the bytes that
were signed. With sound primitives, a record the backend stores verifies for
as long as it is unmodified. `Json.ParsePayloadRoundTrip` proves that the
payload can be parsed back into its four claims. It follows that the
serialization is injective (`Json.PayloadInjective`): changing any signed
field changes the digested text. `Server.Backend.Valid` requires every stored
record to carry the signature over its own rebuilt payload. Signing keeps
this true, and `Documents.AuthenticVerifies` turns it into a `verified: true`
reply.

Cryptography is abstract. `Crypto.Suite` bundles SHA-256, signing with the
private key, checking with the public key, and base64 as function values.
`Crypto.Sound` states the only two properties that are relied on:

- a signature made over a digest passes the check;
- `decode64(encode64(b)) == b`.

The backend's constructor requires a sound suite; this stands for correct
key generation at start-up.

Inputs from outside the core are parameters:

- the random uuid is any key not yet in the map (`Server.FreshKey`);
- the two clock readings `timestamp` and `signedAt` are opaque strings;
- the PDF layer's outcome is either a failure or the hex document hash
  (`Documents.PdfOutcome`);
- the parsed `credentials` body field is `Documents.CredentialsField`.

The timer callback is the explicit method `Server.Backend.CompleteDisclosure`.

Behaviour of the code that the model keeps as it is:

- Signing is not gated on the session store. The sign route takes
  `sessionToken` and `credentials` from the request body (lines 128-129) and
  never reads `sessions`. `Documents.Admit` and
  `Server.Backend.SignDocument` do the same.
- Completion has no guard against a second run beyond the session existing
  (line 59): it overwrites status and credentials every time. Because it
  always writes the same constant attributes, credentials that have been read
  once never change (`Sessions.DisclosureIsStable`,
  `Sessions.CompleteIdempotent`).
- Two different timestamps are kept. The signed `timestamp` (line 207) and
  the stored `signedAt` (line 237) are separate clock readings. Verification
  echoes `signedAt`.
- The payload key is `signer`, but the record field is `signedBy`. The
  names differ at both line 223 and line 287 (`Documents.RecordClaims`).
- The record is inserted (line 234) before the document id is drawn into the
  PDF, the PDF is saved and the response headers are written (lines
  240-258). If one of those steps throws, for example on a file name that
  is not allowed in a `Content-Disposition` header, the route replies with
  an error but the record stays in the registry.
  `Server.Backend.SignDocument` models this with its `delivery` input.

## Model

| member | source | states |
|---|---|---|
| `Sessions.DisclosedAttributes` | mockup-signer/backend/server.js:61-67 | The disclosed map has exactly the five attributes given_name, family_name, birth_date, document_number and nationality. |
| `Sessions.Open` | mockup-signer/backend/server.js:45-54 | Starting adds exactly one key, the new token. Its session is pending, has null credentials and carries its own token. Every other session is unchanged. |
| `Server.Backend.StartSession` | mockup-signer/backend/server.js:45-54 | The token is not previously present. The store becomes `Open` of the old store, the registry is unchanged, and the store invariant is kept. |
| `Sessions.Complete` | mockup-signer/backend/server.js:57-69 | For an existing token, the session becomes completed with the fixed five attributes, whatever its previous state. For an unknown token, nothing changes. The key set and all other sessions stay the same. |
| `Server.Backend.CompleteDisclosure` | mockup-signer/backend/server.js:57-69 | The timer callback changes the store as `Complete` does, in place. The registry is unchanged and the invariant is kept. |
| `Sessions.StatusOf` | mockup-signer/backend/server.js:85-97 | Not found exactly when the token is unknown. Otherwise it returns the stored status and the token. As a function of the store, it cannot modify it. |
| `Sessions.CredentialsOf` | mockup-signer/backend/server.js:102-121 | There are three outcomes, each given as an if-and-only-if. An unknown token gives not found. A session that is not completed or has null credentials gives pending. Otherwise the reply is exactly the stored credentials. |
| `Sessions.OpenPreservesWellFormed` | mockup-signer/backend/server.js:50-54 | Starting keeps every session under its own token, with credentials present exactly when completed. |
| `Sessions.CompletePreservesWellFormed` | mockup-signer/backend/server.js:59-67 | Completion keeps the store well formed. |
| `Sessions.OpenedIsPending` | mockup-signer/backend/server.js:50-54 | A new session reads as pending in both lookups. Lookups of every other token are unaffected. |
| `Sessions.CompletedDisclosesAttributes` | mockup-signer/backend/server.js:59-67 | After completion, the status is completed and the credentials lookup returns exactly the fixed attributes. |
| `Sessions.CompleteIdempotent` | mockup-signer/backend/server.js:57-69 | Running the unguarded overwrite a second time changes nothing. |
| `Sessions.DisclosureIsStable` | mockup-signer/backend/server.js:57-69 | Once the credentials lookup is ready, later starts and completions of any token leave its reply unchanged. |
| `Documents.SignedBy` | mockup-signer/backend/server.js:208 | The name is the given name, one space, then the family name, with each missing name empty. It is defined for every attribute map. |
| `Documents.SignedByOfDisclosure` | mockup-signer/backend/server.js:208 | The disclosed attributes sign as "Jan Jansen". |
| `Documents.SignedByWithoutNames` | mockup-signer/backend/server.js:208 | Credentials without either name give " ", not a failure. |
| `Json.EscapeChar` | mockup-signer/backend/server.js:219-224 | The JSON escape of one character is never a bare quotation mark. It is either the character itself or a backslash escape. |
| `Json.Escape` | mockup-signer/backend/server.js:219-224 | The escaped body of a string is never shorter than the string. That it has no control character is `Json.EscapeHasNoControlChar`; that it decodes back is `Json.ReadEscaped`. |
| `Json.EscapeHasNoControlChar` | mockup-signer/backend/server.js:219-224 | No character of an escaped body is below U+0020: every control character is written as an escape. |
| `Json.Quote` | mockup-signer/backend/server.js:219-224 | A string literal is the escaped body between two quotation marks. That it reads back exactly is `Json.ReadQuotedValue`. |
| `Json.ReadQuotedValue` | mockup-signer/backend/server.js:219-224 | A quoted value followed by any text reads back as exactly that value, with exactly that text left over. |
| `Json.ReadEscaped` | mockup-signer/backend/server.js:219-224 | An escaped string body read back up to its closing quote gives the original text and exactly the text after the quote. |
| `Json.Payload` | mockup-signer/backend/server.js:219-224 | The payload is one JSON object text, opening and closing with a brace. Its parse round trip and injectivity are `Json.ParsePayloadRoundTrip` and `Json.PayloadInjective`. |
| `Json.ParsePayloadRoundTrip` | mockup-signer/backend/server.js:219-224 | Parsing the `JSON.stringify` payload returns the documentHash, sessionToken (absent when undefined), timestamp and signer it was built from. |
| `Json.PayloadInjective` | mockup-signer/backend/server.js:219-224 | Two payloads are equal if and only if their claims are equal. |
| `Documents.RecordClaims` | mockup-signer/backend/server.js:283-288 | Verification rebuilds the claims from the stored documentHash, sessionToken and timestamp, with `signer` taken from the stored `signedBy`. |
| `Documents.SignatureOver` | mockup-signer/backend/server.js:226-229 | The base64 signature over the SHA-256 of a payload: with sound primitives, decoding it and checking it against the digest of the same payload succeeds. |
| `Documents.Seal` | mockup-signer/backend/server.js:202-230 | The signature is the base64 of the signature over the SHA-256 of the payload of (documentHash, sessionToken, timestamp, signer := signedBy). The record is therefore authentic under its own rebuilt payload. It holds the request's token and credentials, the derived signedBy, the file name and signedAt. |
| `Documents.RebuiltPayloadIsSigned` | mockup-signer/backend/server.js:283-288 | For a sealed record, the payload rebuilt at verification is identical to the one signed at lines 219-224. |
| `Documents.Admit` | mockup-signer/backend/server.js:128-177 | The route's checks, in order: unparsable credentials JSON, then a missing upload, then a PDF failure, then null credentials. It succeeds exactly when the credentials are an object, a file is present and the PDF work succeeds. The session store is not consulted. |
| `Server.FreshKey` | mockup-signer/backend/server.js:233 | The new identifier is not already a key. |
| `Server.Backend.constructor` | mockup-signer/backend/server.js:15-17 | Both maps start empty, under a key pair assumed sound. |
| `Server.Backend.SignDocument` | mockup-signer/backend/server.js:128-258 | When a check before the insert fails, the error comes from `Admit` and the registry is unchanged. Otherwise exactly one record is inserted under an id not previously present. That record is the `Seal` of the request, no other entry changes, and the new id verifies. The id is returned, unless the steps after the insert throw: then the reply is that error and the record stays stored. The session store is unchanged. |
| `Server.Backend.StoredRecordsVerify` | mockup-signer/backend/server.js:272-307 | With the backend's invariant, every record in the registry gives `verified: true` and echoes its fields. |
| `Documents.CheckRecord` | mockup-signer/backend/server.js:290-294 | The digest of the rebuilt payload checked against the decoded stored signature. With sound primitives, an authentic record passes. |
| `Documents.Verify` | mockup-signer/backend/server.js:270-321 | The reply is not found exactly for an unknown id. Otherwise the outcome of the check decides it: `verified: true` echoing the id, signedBy, credentials, signedAt, documentHash and file name; a mismatch; or a failure carrying the thrown message. As a function of the registry, it cannot modify it. |
| `Documents.AuthenticVerifies` | mockup-signer/backend/server.js:283-307 | Under the two round-trip properties, an unmodified stored record gives `verified: true` and echoes its signedBy, credentials, signedAt and documentHash. |
| `Documents.TamperChangesPayload` | mockup-signer/backend/server.js:283-294 | Changing the stored hash, token, timestamp or signer name changes the text whose digest is checked. |
| `Documents.InsertKeepsVerdicts` | mockup-signer/backend/server.js:233-238 | Inserting a record under a new id leaves the verification reply of every earlier record unchanged. |
| `Server.DiscloseSignVerify` | mockup-signer/backend/server.js:42-307 | The whole flow: start, disclose, read credentials, sign with them, verify. It gives `verified: true`, names "Jan Jansen", echoes the disclosed attributes, and returns the given documentHash and signedAt. |

## Left out

- HTTP transport: routing, CORS, body parsing, status codes, response headers and `app.listen`. Replies are datatypes.
- Upload handling by multer (the 10 MB limit and the PDF mime filter, lines 19-31). A file is either present with its original name or absent.
- All PDF work with pdf-lib (lines 138-200 and 240-251). Before the insert it is one input: a failure, or the hex SHA-256 of the document after the signature block is drawn and before the document id is drawn. A pdf-lib failure before the insert is taken to happen at load, before the first use of the credentials at line 177. A failure after the insert (drawing the id, the second save, the response headers) is the `delivery` input. The signed output PDF is not modelled.
- RSA key generation, SHA-256, signing, checking, base64 and PEM export (lines 34-35, 213-229, 290-294). These are the abstract `Crypto.Suite`, and only the two properties in `Crypto.Sound` are assumed. Unforgeability and collision resistance are not assumed. So a tampered record or a flipped signature character is not proved to fail verification; `Documents.TamperChangesPayload` proves only that the digested text changes.
- The public-key route (lines 326-332). It only publishes the PEM text.
- `uuidv4` randomness. A new id is any key not yet in the map.
- `setTimeout` timing. Completion is an explicit method call.
- `Date`, `toISOString` and `toLocaleString`. Timestamps are opaque strings.
- `console.log`, and the unused `usecase` body field (line 44).
- JSON values other than objects and `null` in the `credentials` field, such as numbers, strings or arrays, and attribute values that are not strings. The model has a map from strings to strings.
- Repeated multipart fields, which would turn `sessionToken` into an array. A token is a string or absent.
- UTF-16 detail. Dafny characters are Unicode scalar values, so lone surrogates, which `JSON.stringify` writes as `\u` escapes, cannot occur.
- Concurrency. Node runs one handler at a time between `await` points. The sign route reads neither map before its single insert, so interleavings do not change the results modelled here.
