/** Sign-in, session checks, API keys and logout as interleaved steps over three tables. The identity
    provider is an oracle consulted in the middle of a check, while anything else may happen. */
module Sessions {
  import opened Wrappers

  const SESSION_TTL := 12 * 3600
  const OIDC_SUBJECT_KEY_PREFIX := "oidc-subject-v2:"

  /** `patience` is how long after reading the clock a logout may still commit: its context deadline. */
  datatype Config = Config(requiredGroup: string, patience: int)

  type Tid = nat

  /** A sealed access token; sealing adds a nonce and loses nothing. */
  datatype Sealed = Sealed(token: string, nonce: int)

  datatype SessionRow = SessionRow(subject: string, sid: string, username: string, accessToken: Sealed, expiresAt: int)

  datatype KeyRow = KeyRow(userId: string, keyHash: string)

  /** What a verified ID token and its access token say. */
  datatype Claims = Claims(subject: string, sid: string, username: string, email: string, token: string,
                           tokenExpiry: Option<int>)

  /** What a session cookie says. */
  datatype Cookie = Cookie(sessionId: string, userId: string, username: string, createdAt: int)

  datatype LogoutToken = LogoutToken(
    verified: bool, // signature, audience and issuer
    subject: string, sid: string, jti: string, iat: int, exp: Option<int>, hasNonce: bool, hasEvent: bool)

  /** The provider's reply to UserInfo; groups already fall back to those of the access token. */
  datatype UserInfo = Unreachable | Info(subject: string, groups: seq<string>, readable: bool)

  datatype Purpose =
    | ForCookie
    | ForKey(keyId: string, keyHash: string, owner: string)

  datatype Proof = Proof(sessionId: string, userId: string, username: string)

  datatype Pc =
    // sign-in
    | Exchanged(claims: Claims, createdAt: int) // about to ask UserInfo
    | Saving(claims: Claims, createdAt: int) // about to check the token
    | Purging(claims: Claims, createdAt: int) // about to delete expired rows
    | Inserting(claims: Claims, createdAt: int)
    | Adopting(subject: string, names: seq<string>) // about to move what is stored under the next name
    // authorizeSession
    | Checking(proof: Proof, purpose: Purpose) // about to read the session row
    | Consulting(proof: Proof, purpose: Purpose, row: SessionRow) // about to ask UserInfo
    | Revoking(proof: Proof) // refused: about to delete the row
    | Rechecking(proof: Proof, purpose: Purpose, row: SessionRow) // accepted: about to read the row again
    // AuthorizeAPIKey
    | KeyRead(keyId: string, keyHash: string, owner: string) // about to look for the owner's login
    | Closing(proof: Proof, purpose: Purpose, row: SessionRow) // about to run the closing transaction
    // BackchannelLogout
    | Judged(token: LogoutToken, reading: int) // fresh: about to run the transaction
    // outcomes
    | SignedIn(proof: Proof, purpose: Purpose, row: SessionRow, at: int)
    | Refused
    | Finished

  datatype Birth = Birth(row: SessionRow, createdAt: int, tokenExpiry: int)

  datatype Acceptance = Acceptance(token: LogoutToken, reading: int)

  datatype State = State(
    now: int,
    sessions: map<string, SessionRow>,
    keys: map<string, KeyRow>,
    jtis: map<string, int>,
    threads: map<Tid, Pc>,
    // history
    births: map<string, Birth>, // every session row ever inserted
    issuedKeys: map<string, KeyRow>, // every key ever inserted, as inserted
    accepted: seq<Acceptance>) // the logout tokens acted upon, in commit order

  datatype Oracle = Oracle(id: string, nonce: int, answer: UserInfo)

  datatype Event =
    | Tick(elapsed: nat)
    | Callback(t: Tid, claims: Claims)
    | CookieRequest(t: Tid, cookie: Cookie)
    | KeyRequest(t: Tid, keyId: string) // ValidateKey found this row by its hash
    | LocalLogout(sessionId: string)
    | LogoutRequest(t: Tid, token: LogoutToken)
    | CreateKey(id: string, userId: string, keyHash: string)
    | DeleteKey(id: string, userId: string, isAdmin: bool)
    | Go(t: Tid, oracle: Oracle)

  // ---------- the decisions ----------

  predicate Typed(keyId: string) {
    OIDC_SUBJECT_KEY_PREFIX <= keyId
  }

  function Min(a: int, b: int): int {
    if a < b then a else b
  }

  datatype Verdict = Accept | Revoke | Fail

  /** authorizeWithProvider: an expired token or a changed subject or group revokes, silence only fails. */
  function Judge(c: Config, answer: UserInfo, userId: string, tokenExpiry: int, now: int): Verdict {
    if tokenExpiry <= now then Revoke
    else match answer
      case Unreachable => Fail
      case Info(subject, groups, readable) =>
        if subject == "" || subject != userId then Revoke
        else if !readable then Revoke
        else if c.requiredGroup != "" && c.requiredGroup !in groups then Revoke
        else Accept
  }

  /** The timestamp test on a session cookie. */
  predicate Timely(createdAt: int, now: int) {
    createdAt > 0 && createdAt <= now && now - createdAt < SESSION_TTL
  }

  /** The freshness and shape tests on a logout token. */
  predicate Fresh(k: LogoutToken, now: int) {
    && k.verified && !k.hasNonce && k.jti != "" && k.iat > 0 && k.iat <= now + 60 && k.iat >= now - 300
    && k.exp.Some? && k.exp.value > now && (k.subject != "" || k.sid != "") && k.hasEvent
  }

  predicate LoggedOutBy(row: SessionRow, k: LogoutToken) {
    (k.subject == "" || row.subject == k.subject) && (k.sid == "" || row.sid == k.sid)
  }

  /** The owner's login that expires last. */
  ghost predicate LatestLogin(sessions: map<string, SessionRow>, owner: string, now: int, id: string) {
    && id in sessions && sessions[id].subject == owner && sessions[id].expiresAt > now
    && forall j :: j in sessions && sessions[j].subject == owner ==> sessions[j].expiresAt <= sessions[id].expiresAt
  }

  function Purged(jtis: map<string, int>, now: int): map<string, int> {
    map j | j in jtis && jtis[j] > now :: jtis[j]
  }

  // ---------- steps ----------

  ghost function Init(now: int): State {
    State(now, map[], map[], map[], map[], map[], map[], [])
  }

  function To(s: State, t: Tid, pc: Pc): State {
    s.(threads := s.threads[t := pc])
  }

  predicate IsSignIn(pc: Pc) {
    pc.Exchanged? || pc.Saving? || pc.Purging? || pc.Inserting? || pc.Adopting?
  }

  predicate IsCheck(pc: Pc) {
    pc.Checking? || pc.Consulting? || pc.Revoking? || pc.Rechecking?
  }

  predicate IsKeyCheck(pc: Pc) {
    pc.KeyRead? || pc.Closing?
  }

  function RowFor(k: Claims, createdAt: int, nonce: int): SessionRow
    requires k.tokenExpiry.Some?
  {
    SessionRow(k.subject, k.sid, k.username, Sealed(k.token, nonce), Min(k.tokenExpiry.value, createdAt + SESSION_TTL))
  }

  /** Where a sign-in goes next. */
  function NextSignIn(c: Config, now: int, pc: Pc, o: Oracle): Pc
    requires IsSignIn(pc)
  {
    match pc
    case Exchanged(k, createdAt) =>
      var expiry := if k.tokenExpiry.Some? then k.tokenExpiry.value else now + 1; // no expiry passes this first test
      if Judge(c, o.answer, k.subject, expiry, now).Accept? then Saving(k, createdAt) else Refused
    case Saving(k, createdAt) =>
      if k.subject == "" || k.token == "" || k.tokenExpiry.None? || k.tokenExpiry.value <= now then Refused
      else Purging(k, createdAt)
    case Purging(k, createdAt) => Inserting(k, createdAt)
    case Inserting(k, _) => if k.tokenExpiry.None? then Refused else Adopting(k.subject, [k.username, k.email])
    case Adopting(subject, names) => if names == [] then Finished else Adopting(subject, names[1..])
  }

  /** The UPDATE of adoptLegacyOwner on keys: untyped ones stored under the former name change owner. */
  function Adopted(keys: map<string, KeyRow>, former: string, subject: string): map<string, KeyRow> {
    if former == "" || former == subject then keys
    else map id | id in keys ::
           if keys[id].userId == former && !Typed(id) then keys[id].(userId := subject) else keys[id]
  }

  function Unexpired(sessions: map<string, SessionRow>, now: int): map<string, SessionRow> {
    map id | id in sessions && sessions[id].expiresAt > now :: sessions[id]
  }

  function SignInStep(c: Config, s: State, t: Tid, o: Oracle): State
    requires t in s.threads && IsSignIn(s.threads[t])
  {
    var u := To(s, t, NextSignIn(c, s.now, s.threads[t], o));
    match s.threads[t]
    case Exchanged(_, _) => u
    case Saving(_, _) => u
    case Purging(_, _) => u.(sessions := Unexpired(s.sessions, s.now))
    case Inserting(k, createdAt) =>
      if k.tokenExpiry.None? then u
      else
        var row := RowFor(k, createdAt, o.nonce);
        u.(sessions := s.sessions[o.id := row], births := s.births[o.id := Birth(row, createdAt, k.tokenExpiry.value)])
    case Adopting(subject, names) =>
      if names == [] then u else u.(keys := Adopted(s.keys, names[0], subject))
  }

  /** Where a session check goes next. */
  function NextCheck(c: Config, sessions: map<string, SessionRow>, now: int, pc: Pc, o: Oracle): Pc
    requires IsCheck(pc)
  {
    match pc
    case Checking(p, purpose) =>
      if p.sessionId == "" || p.sessionId !in sessions then Refused
      else
        var row := sessions[p.sessionId];
        if row.subject != p.userId || row.username != p.username || row.expiresAt <= now then Refused
        else Consulting(p, purpose, row)
    case Consulting(p, purpose, row) =>
      (match Judge(c, o.answer, p.userId, row.expiresAt, now)
       case Accept => Rechecking(p, purpose, row)
       case Revoke => Revoking(p)
       case Fail => Refused)
    case Revoking(_) => Refused
    case Rechecking(p, purpose, row) =>
      if p.sessionId !in sessions || sessions[p.sessionId].expiresAt <= now then Refused
      else if purpose.ForCookie? then SignedIn(p, purpose, row, now)
      else Closing(p, purpose, row)
  }

  function CheckStep(c: Config, s: State, t: Tid, o: Oracle): State
    requires t in s.threads && IsCheck(s.threads[t])
  {
    var u := To(s, t, NextCheck(c, s.sessions, s.now, s.threads[t], o));
    if s.threads[t].Revoking? then u.(sessions := s.sessions - {s.threads[t].proof.sessionId}) else u
  }

  /** Where an API key check goes next. */
  ghost function NextKey(sessions: map<string, SessionRow>, keys: map<string, KeyRow>, now: int, pc: Pc, o: Oracle): Pc
    requires IsKeyCheck(pc)
  {
    match pc
    case KeyRead(keyId, keyHash, owner) =>
      if owner == "" || !Typed(keyId) || keyHash == "" || !LatestLogin(sessions, owner, now, o.id) then Refused
      else Checking(Proof(o.id, owner, sessions[o.id].username), ForKey(keyId, keyHash, owner))
    case Closing(p, purpose, row) =>
      if purpose.ForKey? && p.sessionId in sessions && sessions[p.sessionId].subject == purpose.owner
         && sessions[p.sessionId].username == p.username && sessions[p.sessionId].expiresAt > now
         && purpose.keyId in keys && keys[purpose.keyId] == KeyRow(purpose.owner, purpose.keyHash)
      then SignedIn(p, purpose, row, now) else Refused
  }

  ghost function KeyStep(s: State, t: Tid, o: Oracle): State
    requires t in s.threads && IsKeyCheck(s.threads[t])
  {
    To(s, t, NextKey(s.sessions, s.keys, s.now, s.threads[t], o))
  }

  /** The logout transaction: a known jti makes the insert fail and everything roll back. */
  ghost function LogoutStep(s: State, t: Tid): State
    requires t in s.threads && s.threads[t].Judged?
  {
    var Judged(k, reading) := s.threads[t];
    var left := Purged(s.jtis, reading);
    if k.jti in left then To(s, t, Refused)
    else s.(jtis := left[k.jti := reading + 600],
            sessions := map id | id in s.sessions && !LoggedOutBy(s.sessions[id], k) :: s.sessions[id],
            accepted := s.accepted + [Acceptance(k, reading)],
            threads := s.threads[t := Finished])
  }

  ghost predicate Enabled(c: Config, s: State, e: Event) {
    match e
    case Tick(_) => true
    case Callback(t, _) => t !in s.threads
    case CookieRequest(t, _) => t !in s.threads
    case KeyRequest(t, keyId) => t !in s.threads && keyId in s.keys
    case LocalLogout(_) => true
    case LogoutRequest(t, _) => t !in s.threads
    case CreateKey(id, _, _) => id !in s.issuedKeys // a fresh UUID
    case DeleteKey(_, _, _) => true
    case Go(t, o) =>
      && t in s.threads && !s.threads[t].SignedIn? && !s.threads[t].Refused? && !s.threads[t].Finished?
      && (s.threads[t].Inserting? ==> o.id !in s.births && o.id != "") // 32 fresh random bytes
      && (s.threads[t].Judged? ==> s.now <= s.threads[t].reading + c.patience) // or the context is cancelled
      && (s.threads[t].KeyRead? && (exists id :: LatestLogin(s.sessions, s.threads[t].owner, s.now, id)) ==>
            LatestLogin(s.sessions, s.threads[t].owner, s.now, o.id))
  }

  ghost function Apply(c: Config, s: State, e: Event): State
    requires Enabled(c, s, e)
  {
    match e
    case Tick(n) => s.(now := s.now + n)
    case Callback(t, k) => To(s, t, Exchanged(k, s.now))
    case CookieRequest(t, k) =>
      To(s, t, if Timely(k.createdAt, s.now) then Checking(Proof(k.sessionId, k.userId, k.username), ForCookie)
        else Refused)
    case KeyRequest(t, keyId) => To(s, t, KeyRead(keyId, s.keys[keyId].keyHash, s.keys[keyId].userId))
    case LocalLogout(id) => s.(sessions := s.sessions - {id})
    case LogoutRequest(t, k) => To(s, t, if Fresh(k, s.now) then Judged(k, s.now) else Refused)
    case CreateKey(id, userId, keyHash) =>
      s.(keys := s.keys[id := KeyRow(userId, keyHash)], issuedKeys := s.issuedKeys[id := KeyRow(userId, keyHash)])
    case DeleteKey(id, userId, isAdmin) =>
      if id in s.keys && (isAdmin || s.keys[id].userId == userId) then s.(keys := s.keys - {id}) else s
    case Go(t, o) =>
      if IsSignIn(s.threads[t]) then SignInStep(c, s, t, o)
      else if IsCheck(s.threads[t]) then CheckStep(c, s, t, o)
      else if IsKeyCheck(s.threads[t]) then KeyStep(s, t, o)
      else LogoutStep(s, t)
  }

  ghost predicate Possible(c: Config, start: int, es: seq<Event>)
    decreases |es|, 0
  {
    es == [] || (Possible(c, start, es[..|es| - 1]) && Enabled(c, After(c, start, es[..|es| - 1]), es[|es| - 1]))
  }

  ghost function After(c: Config, start: int, es: seq<Event>): State
    requires Possible(c, start, es)
    decreases |es|, 1
  {
    if es == [] then Init(start)
    else Apply(c, After(c, start, es[..|es| - 1]), es[|es| - 1])
  }
}
