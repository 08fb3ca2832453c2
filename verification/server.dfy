/**
 * The signer backend's state: the session store and the signed-document
 * registry, two maps owned by one object and changed in place by the
 * start, disclosure and sign operations. Status, credentials and
 * verification lookups only read these maps: they are the functions
 * `Sessions.StatusOf`, `Sessions.CredentialsOf` and `Documents.Verify`
 * applied to them.
 */
module Server {
  import opened Wrappers
  import opened Crypto
  import opened Sessions
  import opened Documents

  /** A length no key of `keys` reaches. */
  ghost function LongerThanAll(keys: set<string>): (n: nat)
    ensures forall k :: k in keys ==> |k| < n
    decreases keys
  {
    if keys == {} then 0
    else
      var k :| k in keys;
      var rest := LongerThanAll(keys - {k});
      if |k| < rest then rest else |k| + 1
  }

  /** A finite set of identifiers always leaves one unused. */
  lemma UnusedKeyExists(keys: set<string>)
    ensures exists k: string :: k !in keys
  {
    var k: string := seq(LongerThanAll(keys), _ => 'x');
    assert k !in keys;
  }

  /** A new random identifier: one not already used as a key. */
  method FreshKey(keys: set<string>) returns (k: string)
    ensures k !in keys
  {
    UnusedKeyExists(keys);
    k :| k !in keys;
  }

  class Backend {
    /** The key pair and primitives generated at process start. */
    const keys: Suite
    var sessions: Store
    var documents: Registry

    /** Sessions are well formed and every stored record carries the
        signature over its own payload. */
    ghost predicate Valid()
      reads this
    {
      && Sound(keys)
      && WellFormed(sessions)
      && AllAuthentic(keys, documents)
    }

    constructor (keys: Suite)
      requires Sound(keys)
      ensures Valid()
      ensures this.keys == keys && sessions == map[] && documents == map[]
    {
      this.keys := keys;
      sessions := map[];
      documents := map[];
    }

    /** Starts a disclosure session under a new token. */
    method StartSession() returns (token: string)
      requires Valid()
      modifies this
      ensures Valid()
      ensures token !in old(sessions)
      ensures sessions == Open(old(sessions), token)
      ensures documents == old(documents)
    {
      token := FreshKey(sessions.Keys);
      OpenPreservesWellFormed(sessions, token);
      sessions := Open(sessions, token);
    }

    /** The mock disclosure step for `token`, run by a timer in the
        backend: it marks an existing session completed with the
        disclosed attributes, and does nothing for an unknown token. */
    method CompleteDisclosure(token: string)
      requires Valid()
      modifies this
      ensures Valid()
      ensures sessions == Complete(old(sessions), token)
      ensures documents == old(documents)
    {
      CompletePreservesWellFormed(sessions, token);
      if token in sessions {
        var session := sessions[token];
        session := session.(status := Completed, credentials := Some(DisclosedAttributes()));
        sessions := sessions[token := session];
      }
    }

    /** Signs a document. When the checks before the insert fail, the
        registry is left as it was. When they pass, exactly one record is
        inserted under a new document id (`stored`), and that record
        verifies; the id is returned unless drawing it into the PDF or
        sending the response then fails, in which case the record stays
        stored and the reply is an error. The session store is neither
        consulted nor changed. */
    method SignDocument(
      request: SignRequest, pdf: PdfOutcome, timestamp: string, signedAt: string, delivery: Delivery)
      returns (r: Result<string, SignError>, ghost stored: Option<string>)
      requires Valid()
      modifies this
      ensures Valid()
      ensures sessions == old(sessions)
      ensures stored.Some? <==> Admit(request, pdf).Success?
      ensures stored.None? ==> r == Failure(Admit(request, pdf).error) && documents == old(documents)
      ensures stored.Some? ==>
        var a := Admit(request, pdf).value;
        && stored.value !in old(documents)
        && documents == old(documents)[stored.value :=
             Seal(keys, request.sessionToken, a.credentials, a.documentHash, timestamp, a.originalFileName, signedAt)]
        && Verify(keys, documents, stored.value).IsVerified()
      ensures stored.Some? ==>
        r == match delivery
             case Delivered => Success(stored.value)
             case DeliveryFailed(message) => Failure(ResponseFailed(message))
    {
      match Admit(request, pdf) {
        case Failure(e) =>
          r, stored := Failure(e), None;
        case Success(a) =>
          var record := Seal(keys, request.sessionToken, a.credentials, a.documentHash,
                             timestamp, a.originalFileName, signedAt);
          var id := FreshKey(documents.Keys);
          documents := documents[id := record];
          AuthenticVerifies(keys, documents, id);
          stored := Some(id);
          match delivery {
            case Delivered => r := Success(id);
            case DeliveryFailed(message) => r := Failure(ResponseFailed(message));
          }
      }
    }

    /** Every record the registry holds verifies, and the reply echoes it. */
    lemma StoredRecordsVerify(id: string)
      requires Valid() && id in documents
      ensures var d := documents[id];
        Verify(keys, documents, id) == Verified(id, d.signedBy, d.credentials, d.signedAt, d.documentHash, d.originalFileName)
    {
      AuthenticVerifies(keys, documents, id);
    }
  }

  /** The flow of the backend's front end: start a session, let the
      disclosure step complete it, read the credentials, sign a document
      with them and verify the document id that comes back. The reply
      names "Jan Jansen" and echoes the disclosed attributes. */
  method DiscloseSignVerify(keys: Suite, fileName: string, documentHash: string, timestamp: string, signedAt: string)
    returns (reply: VerifyReply)
    requires Sound(keys)
    ensures reply.IsVerified()
    ensures reply.signerName == "Jan Jansen" && reply.credentials == DisclosedAttributes()
    ensures reply.documentHash == documentHash && reply.signedAt == signedAt
  {
    var backend := new Backend(keys);
    var token := backend.StartSession();
    OpenedIsPending(map[], token, token);
    assert CredentialsOf(backend.sessions, token) == CredentialsPending;
    backend.CompleteDisclosure(token);
    CompletedDisclosesAttributes(Open(map[], token), token);
    var credentials := CredentialsOf(backend.sessions, token);
    assert credentials == CredentialsReady(DisclosedAttributes(), token);
    var request := SignRequest(Some(token), Parsed(credentials.credentials), Some(Upload(fileName)));
    var signed, _ := backend.SignDocument(request, Stamped(documentHash), timestamp, signedAt, Delivered);
    assert signed.Success?;
    reply := Verify(keys, backend.documents, signed.value);
    SignedByOfDisclosure();
  }
}
