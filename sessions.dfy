/** Admin sessions of the Express server: the `sessions` table of the
    database and the `verifyAuth` middleware that guards the admin routes. */
module Sessions {

  import opened Values
  import opened Http

  /** `{username, expires}`, the expiry an instant in milliseconds. */
  datatype Session = Session(username: string, expires: int)

  type SessionTable = map<string, Session>

  /** 24 hours in milliseconds. */
  const SessionLifetime: nat := 24 * 60 * 60 * 1000

  /** The session a successful login issues at instant `now`. */
  function Issued(username: string, now: int): Session
  {
    Session(username, now + SessionLifetime)
  }

  /** verifyAuth with the lookup restricted to the stored sessions (an
      own-property lookup): the request carries an `X-Session-Id` header
      naming a stored session whose expiry is not earlier than `now`; on
      success the admitted session id. The routes of `AdminServer` use this
      one; `VerifyAuthAsWritten` is the lookup the code performs. */
  function VerifyAuth(sessions: SessionTable, header: Option<string>, now: int): (r: Result<string>)
    ensures r.Ok? <==> header.Some? && header.value != "" && header.value in sessions
                       && now <= sessions[header.value].expires
    ensures r.Ok? ==> r.value == header.value
    ensures r.Err? && (header.None? || header.value == "") ==> r.failure == SessionRequired
    ensures r.Err? && header.Some? && header.value != "" ==> r.failure == SessionExpired
  {
    if header.None? || header.value == "" then Err(SessionRequired)
    else if header.value !in sessions || sessions[header.value].expires < now then Err(SessionExpired)
    else Ok(header.value)
  }

  /** The names every plain object inherits from `Object.prototype`. Looking
      one of them up on the sessions object finds a method or, for
      `__proto__`, the prototype itself: a truthy value without `expires`. */
  const InheritedNames: set<string> :=
    {"constructor", "__proto__", "__defineGetter__", "__defineSetter__",
     "__lookupGetter__", "__lookupSetter__", "hasOwnProperty", "isPrototypeOf",
     "propertyIsEnumerable", "toLocaleString", "toString", "valueOf"}

  /** verifyAuth as written: `db.sessions?.[sessionId]` also finds the
      inherited names, whose `expires` is undefined; `new Date(undefined)` is
      an invalid date, and comparing it with `<` is false, so the request is
      admitted. */
  function VerifyAuthAsWritten(sessions: SessionTable, header: Option<string>, now: int): (r: Result<string>)
    ensures r.Ok? <==> header.Some? && header.value != ""
                       && (if header.value in sessions then now <= sessions[header.value].expires
                           else header.value in InheritedNames)
    ensures r.Ok? ==> r.value == header.value
    ensures r.Err? ==> r.failure == if header.None? || header.value == "" then SessionRequired else SessionExpired
  {
    if header.None? || header.value == "" then Err(SessionRequired)
    else if header.value in sessions then
      (if sessions[header.value].expires < now then Err(SessionExpired) else Ok(header.value))
    else if header.value in InheritedNames then Ok(header.value)
    else Err(SessionExpired)
  }

  /** The lookup as written and the own-property lookup disagree exactly on
      inherited names that are not stored, and there the former admits. */
  lemma AsWrittenDiffersOnInheritedNames(sessions: SessionTable, header: Option<string>, now: int)
    ensures VerifyAuthAsWritten(sessions, header, now) != VerifyAuth(sessions, header, now)
            <==> header.Some? && header.value in InheritedNames && header.value !in sessions
    ensures VerifyAuthAsWritten(sessions, header, now) != VerifyAuth(sessions, header, now)
            ==> VerifyAuthAsWritten(sessions, header, now).Ok?
  {
  }

  /** `X-Session-Id: constructor` passes the code's verifyAuth with no
      session stored, at every instant; the own-property lookup refuses it. */
  lemma ConstructorHeaderAdmitted(now: int)
    ensures VerifyAuthAsWritten(map[], Some("constructor"), now) == Ok("constructor")
    ensures VerifyAuth(map[], Some("constructor"), now) == Err(SessionExpired)
  {
  }

  /** A session issued at `issued` is admitted at every instant up to and
      including `issued + 24h`, and at none after. */
  lemma LoginAdmitsForADay(sessions: SessionTable, id: string, username: string, issued: int, t: int)
    requires id != ""
    ensures VerifyAuth(sessions[id := Issued(username, issued)], Some(id), t).Ok?
            <==> t <= issued + SessionLifetime
  {
  }

  /** A session admitted at `t` is admitted at every earlier instant. */
  lemma AdmissionIsMonotone(sessions: SessionTable, header: Option<string>, t: int, t': int)
    requires t' <= t && VerifyAuth(sessions, header, t).Ok?
    ensures VerifyAuth(sessions, header, t') == VerifyAuth(sessions, header, t)
  {
  }

  /** After logout removes a session, its id is refused; other ids are
      judged exactly as before. */
  lemma LogoutRevokesOnlyItsSession(sessions: SessionTable, id: string, header: Option<string>, t: int)
    ensures VerifyAuth(sessions - {id}, Some(id), t) ==
            (if id == "" then Err(SessionRequired) else Err(SessionExpired))
    ensures header != Some(id) ==> VerifyAuth(sessions - {id}, header, t) == VerifyAuth(sessions, header, t)
  {
  }

  /** Issuing a session leaves every other id judged exactly as before. */
  lemma LoginKeepsOtherSessions(sessions: SessionTable, id: string, s: Session, header: Option<string>, t: int)
    requires header != Some(id)
    ensures VerifyAuth(sessions[id := s], header, t) == VerifyAuth(sessions, header, t)
  {
  }
}
