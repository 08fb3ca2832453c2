/**
 * Signing records and their verification. A signing request is checked
 * in the order the sign route checks it, a record is sealed with a
 * signature over the canonical payload of its claims, and verification
 * rebuilds that payload from the stored fields and checks the signature.
 */
module Documents {
  import opened Wrappers
  import opened Crypto
  import opened Json
  import opened Sessions

  /** A stored signing record; never updated once inserted. */
  datatype SignedDocument = SignedDocument(
    sessionToken: Option<string>,
    credentials: Attributes,
    documentHash: string,
    timestamp: string,
    signedBy: string,
    signature: string,
    originalFileName: string,
    signedAt: string)

  /** The registry of signed documents, keyed by document id. */
  type Registry = map<string, SignedDocument>

  /** An attribute as a template literal shows `credentials.name || ""`:
      the value, or the empty string when the attribute is absent. */
  function Field(credentials: Attributes, name: string): string
  {
    if name in credentials then credentials[name] else ""
  }

  /** The display name of the signer: given name, a space, family name,
      each missing one empty. It is defined for every attribute map. */
  function SignedBy(credentials: Attributes): (name: string)
    ensures var given := Field(credentials, "given_name");
      && |name| == |given| + 1 + |Field(credentials, "family_name")|
      && name[..|given|] == given
      && name[|given|] == ' '
      && name[|given| + 1..] == Field(credentials, "family_name")
  {
    Field(credentials, "given_name") + " " + Field(credentials, "family_name")
  }

  /** The claims verification rebuilds from a stored record: the payload
      key `signer` takes the stored `signedBy`. */
  function RecordClaims(d: SignedDocument): (c: Claims)
    ensures c.documentHash == d.documentHash && c.sessionToken == d.sessionToken
    ensures c.timestamp == d.timestamp && c.signer == d.signedBy
  {
    Claims(d.documentHash, d.sessionToken, d.timestamp, d.signedBy)
  }

  /** The base64 text of the private-key signature over the SHA-256 digest
      of the canonical payload of `claims`. With sound primitives, decoding
      it and checking it against the digest of the same payload succeeds. */
  function SignatureOver(k: Suite, claims: Claims): (s: string)
    ensures Sound(k) ==> k.check(k.sha256(Payload(claims)), k.decode64(s)) == Checked(true)
  {
    k.encode64(k.sign(k.sha256(Payload(claims))))
  }

  /** The record's signature is the one made over its own rebuilt payload. */
  ghost predicate Authentic(k: Suite, d: SignedDocument)
  {
    d.signature == SignatureOver(k, RecordClaims(d))
  }

  /** Every record of the registry is authentic. */
  ghost predicate AllAuthentic(k: Suite, documents: Registry)
  {
    forall id :: id in documents ==> Authentic(k, documents[id])
  }

  /** The record the sign route inserts: the request's token and
      credentials, the display name derived from them, the document hash,
      the signing timestamp, the signature over the payload of
      (documentHash, sessionToken, timestamp, signer := signedBy), the file
      name, and `signedAt`, a second clock reading taken at insertion. */
  function Seal(
    k: Suite, sessionToken: Option<string>, credentials: Attributes, documentHash: string,
    timestamp: string, originalFileName: string, signedAt: string): (d: SignedDocument)
    ensures Authentic(k, d)
    ensures d.signature == SignatureOver(k, Claims(documentHash, sessionToken, timestamp, SignedBy(credentials)))
    ensures d.sessionToken == sessionToken && d.credentials == credentials
    ensures d.documentHash == documentHash && d.timestamp == timestamp
    ensures d.signedBy == SignedBy(credentials)
    ensures d.originalFileName == originalFileName && d.signedAt == signedAt
  {
    var signedBy := SignedBy(credentials);
    var signature := SignatureOver(k, Claims(documentHash, sessionToken, timestamp, signedBy));
    SignedDocument(sessionToken, credentials, documentHash, timestamp, signedBy,
                   signature, originalFileName, signedAt)
  }

  // ---------------------------------------------------------------------
  // The sign request

  /** The `credentials` body field after `JSON.parse`. */
  datatype CredentialsField =
    | Malformed                      // not JSON at all, or the field is missing
    | NullValue                      // the JSON text `null`
    | Parsed(attributes: Attributes) // a JSON object of string attributes

  datatype Upload = Upload(originalName: string)

  datatype SignRequest = SignRequest(
    sessionToken: Option<string>,
    credentials: CredentialsField,
    file: Option<Upload>)

  /** What the PDF layer yields: a failure, or the hex SHA-256 of the
      document with the visible signature block drawn (before the
      document id is drawn). */
  datatype PdfOutcome = PdfFailed(message: string) | Stamped(documentHash: string)

  datatype SignError =
    | CredentialsNotJson
    | NoDocument
    | PdfError(message: string)
    | CredentialsNull
    | ResponseFailed(message: string)   // after the record is stored

  /** What happens after the record is stored: drawing the document id,
      saving the PDF and writing the response headers either succeed or
      throw (for instance a file name not allowed in a header). */
  datatype Delivery = Delivered | DeliveryFailed(message: string)

  /** What a successful sign request signs over. */
  datatype Admitted = Admitted(credentials: Attributes, originalFileName: string, documentHash: string)

  /** The checks the sign route makes before it inserts anything, in its
      order: credentials parsed first, then the upload, then the PDF work,
      then the first use of the credentials. The session store is not
      consulted. */
  function Admit(request: SignRequest, pdf: PdfOutcome): (r: Result<Admitted, SignError>)
    ensures r.Success? <==> request.credentials.Parsed? && request.file.Some? && pdf.Stamped?
    ensures r.Success? ==>
      r.value == Admitted(request.credentials.attributes, request.file.value.originalName, pdf.documentHash)
    ensures request.credentials.Malformed? ==> r == Failure(CredentialsNotJson)
    ensures !request.credentials.Malformed? && request.file.None? ==> r == Failure(NoDocument)
    ensures !request.credentials.Malformed? && request.file.Some? && pdf.PdfFailed? ==>
      r == Failure(PdfError(pdf.message))
    ensures request.credentials.NullValue? && request.file.Some? && pdf.Stamped? ==>
      r == Failure(CredentialsNull)
  {
    if request.credentials.Malformed? then Failure(CredentialsNotJson)
    else if request.file.None? then Failure(NoDocument)
    else if pdf.PdfFailed? then Failure(PdfError(pdf.message))
    else if request.credentials.NullValue? then Failure(CredentialsNull)
    else Success(Admitted(request.credentials.attributes, request.file.value.originalName, pdf.documentHash))
  }

  // ---------------------------------------------------------------------
  // Verification

  /** The verification reply; `verified` is true only for `Verified`. */
  datatype VerifyReply =
    | Verified(documentId: string, signerName: string, credentials: Attributes,
               signedAt: string, documentHash: string, originalFileName: string)
    | DocumentNotFound
    | SignatureMismatch
    | VerificationFailed(message: string)
  {
    predicate IsVerified() { Verified? }
  }

  /** The public-key check of a stored record: the digest of the payload
      rebuilt from the record against its decoded signature. With sound
      primitives an authentic record passes it. */
  function CheckRecord(k: Suite, d: SignedDocument): (r: CheckOutcome)
    ensures Sound(k) && Authentic(k, d) ==> r == Checked(true)
  {
    k.check(k.sha256(Payload(RecordClaims(d))), k.decode64(d.signature))
  }

  /** The verification route: not found for an unknown id; otherwise the
      record is echoed when the check passes, a mismatch when it fails and
      a failure carrying the message when it throws. It only reads. */
  function Verify(k: Suite, documents: Registry, id: string): (r: VerifyReply)
    ensures r == DocumentNotFound <==> id !in documents
    ensures r.Verified? <==> id in documents && CheckRecord(k, documents[id]) == Checked(true)
    ensures r == SignatureMismatch <==> id in documents && CheckRecord(k, documents[id]) == Checked(false)
    ensures r.VerificationFailed? <==> id in documents && CheckRecord(k, documents[id]).Threw?
    ensures r.VerificationFailed? ==> r.message == CheckRecord(k, documents[id]).message
    ensures r.Verified? ==>
      var d := documents[id];
      r == Verified(id, d.signedBy, d.credentials, d.signedAt, d.documentHash, d.originalFileName)
  {
    if id !in documents then DocumentNotFound
    else
      var d := documents[id];
      match CheckRecord(k, d)
      case Checked(true) => Verified(id, d.signedBy, d.credentials, d.signedAt, d.documentHash, d.originalFileName)
      case Checked(false) => SignatureMismatch
      case Threw(message) => VerificationFailed(message)
  }

  // ---------------------------------------------------------------------
  // Properties

  /** With sound primitives, an unmodified record verifies and the reply
      echoes its signer, credentials, `signedAt` and document hash. */
  lemma AuthenticVerifies(k: Suite, documents: Registry, id: string)
    requires Sound(k)
    requires id in documents && Authentic(k, documents[id])
    ensures var d := documents[id];
      Verify(k, documents, id) == Verified(id, d.signedBy, d.credentials, d.signedAt, d.documentHash, d.originalFileName)
  {
  }

  /** The payload verification rebuilds from a sealed record is byte for
      byte the payload that was signed. */
  lemma RebuiltPayloadIsSigned(
    k: Suite, sessionToken: Option<string>, credentials: Attributes, documentHash: string,
    timestamp: string, originalFileName: string, signedAt: string)
    ensures var d := Seal(k, sessionToken, credentials, documentHash, timestamp, originalFileName, signedAt);
      Payload(RecordClaims(d)) == Payload(Claims(documentHash, sessionToken, timestamp, SignedBy(credentials)))
  {
  }

  /** Changing any signed field of a record (hash, token, timestamp or
      signer name) changes the payload verification rebuilds, so the
      digest is taken over different text. */
  lemma TamperChangesPayload(d: SignedDocument, e: SignedDocument)
    requires d.documentHash != e.documentHash || d.sessionToken != e.sessionToken
          || d.timestamp != e.timestamp || d.signedBy != e.signedBy
    ensures Payload(RecordClaims(d)) != Payload(RecordClaims(e))
  {
    PayloadInjective(RecordClaims(d), RecordClaims(e));
  }

  /** Inserting a record under a new id leaves the verification of every
      record already stored exactly as it was. */
  lemma InsertKeepsVerdicts(k: Suite, documents: Registry, id: string, d: SignedDocument, other: string)
    requires id !in documents
    ensures other != id ==> Verify(k, documents[id := d], other) == Verify(k, documents, other)
    ensures Verify(k, documents[id := d], id) == Verify(k, map[id := d], id)
  {
  }

  /** The mock disclosure's attributes sign as "Jan Jansen". */
  lemma SignedByOfDisclosure()
    ensures SignedBy(DisclosedAttributes()) == "Jan Jansen"
  {
  }

  /** Without either name the signer is a single space, not an error. */
  lemma SignedByWithoutNames(credentials: Attributes)
    requires "given_name" !in credentials && "family_name" !in credentials
    ensures SignedBy(credentials) == " "
  {
  }
}
