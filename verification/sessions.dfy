/**
 * The disclosure-session store of the signer backend: sessions keyed by
 * token, each `pending` with no credentials until the mock disclosure step
 * marks it `completed` with a fixed set of attributes. The store is a
 * finite map; the operations that change it are given here as functions
 * of the old map, and the `Backend` class applies them in place.
 */
module Sessions {
  import opened Wrappers

  /** Disclosed identity attributes, attribute name to value. */
  type Attributes = map<string, string>

  datatype Status = Pending | Completed

  datatype Session = Session(token: string, status: Status, credentials: Option<Attributes>)

  type Store = map<string, Session>

  /** The attributes the mock disclosure step always delivers. */
  function DisclosedAttributes(): (a: Attributes)
    ensures a.Keys == {"given_name", "family_name", "birth_date", "document_number", "nationality"}
  {
    map[
      "given_name" := "Jan",
      "family_name" := "Jansen",
      "birth_date" := "1990-05-15",
      "document_number" := "NLD123456789",
      "nationality" := "Nederlandse"]
  }

  /** A freshly started session. */
  function NewSession(token: string): Session
  {
    Session(token, Pending, None)
  }

  /** Every session sits under its own token, is pending without
      credentials or completed with the disclosed attributes. */
  ghost predicate WellFormed(sessions: Store)
  {
    forall t :: t in sessions ==>
      && sessions[t].token == t
      && (sessions[t].status == Pending <==> sessions[t].credentials == None)
      && (sessions[t].status == Completed ==> sessions[t].credentials == Some(DisclosedAttributes()))
  }

  /** The store after `start` has inserted a session under a new token. */
  function Open(sessions: Store, token: string): (r: Store)
    requires token !in sessions
    ensures r.Keys == sessions.Keys + {token}
    ensures r[token].status == Pending && r[token].credentials == None && r[token].token == token
    ensures forall t :: t in sessions ==> r[t] == sessions[t]
  {
    sessions[token := NewSession(token)]
  }

  /** The store after the disclosure step has run for `token`: an existing
      session becomes completed with the disclosed attributes whatever its
      state was; an unknown token leaves the store as it was. */
  function Complete(sessions: Store, token: string): (r: Store)
    ensures r.Keys == sessions.Keys
    ensures token !in sessions ==> r == sessions
    ensures token in sessions ==>
      && r[token].status == Completed
      && r[token].credentials == Some(DisclosedAttributes())
      && r[token].token == sessions[token].token
    ensures forall t :: t in sessions && t != token ==> r[t] == sessions[t]
  {
    if token in sessions then
      sessions[token := sessions[token].(status := Completed, credentials := Some(DisclosedAttributes()))]
    else sessions
  }

  /** Reply of the status lookup. */
  datatype StatusReply = SessionNotFound | SessionStatus(status: Status, token: string)

  /** Reply of the credentials lookup. */
  datatype CredentialsReply =
    | CredentialsNotFound
    | CredentialsPending
    | CredentialsReady(credentials: Attributes, token: string)

  /** The status lookup: not found, or the stored status. */
  function StatusOf(sessions: Store, token: string): (r: StatusReply)
    ensures r == SessionNotFound <==> token !in sessions
    ensures r.SessionStatus? ==> r.status == sessions[token].status && r.token == token
  {
    if token !in sessions then SessionNotFound
    else SessionStatus(sessions[token].status, token)
  }

  /** The credentials lookup: not found for an unknown token, pending while
      the session is not completed or has no credentials, otherwise exactly
      the stored credentials. */
  function CredentialsOf(sessions: Store, token: string): (r: CredentialsReply)
    ensures r == CredentialsNotFound <==> token !in sessions
    ensures r == CredentialsPending <==>
      token in sessions && (sessions[token].status != Completed || sessions[token].credentials == None)
    ensures r.CredentialsReady? <==>
      token in sessions && sessions[token].status == Completed && sessions[token].credentials.Some?
    ensures r.CredentialsReady? ==>
      Some(r.credentials) == sessions[token].credentials && r.token == token
  {
    if token !in sessions then CredentialsNotFound
    else
      var session := sessions[token];
      if session.status != Completed || session.credentials.None? then CredentialsPending
      else CredentialsReady(session.credentials.value, token)
  }

  // ---------------------------------------------------------------------
  // Properties of the lifecycle

  /** Starting and completing keep the store well formed. */
  lemma OpenPreservesWellFormed(sessions: Store, token: string)
    requires WellFormed(sessions) && token !in sessions
    ensures WellFormed(Open(sessions, token))
  {
  }

  lemma CompletePreservesWellFormed(sessions: Store, token: string)
    requires WellFormed(sessions)
    ensures WellFormed(Complete(sessions, token))
  {
  }

  /** A new session reads as pending with no credentials, and every other
      token reads as before. */
  lemma OpenedIsPending(sessions: Store, token: string, other: string)
    requires token !in sessions
    ensures StatusOf(Open(sessions, token), token) == SessionStatus(Pending, token)
    ensures CredentialsOf(Open(sessions, token), token) == CredentialsPending
    ensures other != token ==>
      && StatusOf(Open(sessions, token), other) == StatusOf(sessions, other)
      && CredentialsOf(Open(sessions, token), other) == CredentialsOf(sessions, other)
  {
  }

  /** After the disclosure step, a started session reads as completed and
      its credentials are exactly the disclosed attributes. */
  lemma CompletedDisclosesAttributes(sessions: Store, token: string)
    requires token in sessions
    ensures StatusOf(Complete(sessions, token), token) == SessionStatus(Completed, token)
    ensures CredentialsOf(Complete(sessions, token), token) == CredentialsReady(DisclosedAttributes(), token)
  {
  }

  /** The disclosure step overwrites without a guard, but what it writes is
      constant: running it again changes nothing. */
  lemma CompleteIdempotent(sessions: Store, token: string)
    ensures Complete(Complete(sessions, token), token) == Complete(sessions, token)
  {
  }

  /** In a well-formed store, credentials once readable never change and a
      completed session never reads as pending again, whatever session is
      started or completed afterwards. */
  lemma DisclosureIsStable(sessions: Store, token: string, other: string)
    requires WellFormed(sessions)
    requires CredentialsOf(sessions, token).CredentialsReady?
    ensures CredentialsOf(Complete(sessions, other), token) == CredentialsOf(sessions, token)
    ensures other !in sessions ==> CredentialsOf(Open(sessions, other), token) == CredentialsOf(sessions, token)
  {
  }
}
