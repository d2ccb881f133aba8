/** What the sign-in protocol guarantees over every run: who may pass, and for how long. */
module SessionsProofs {
  import opened Sessions

  // ---------- the invariant ----------

  ghost predicate SessionsOk(sessions: map<string, SessionRow>, births: map<string, Birth>) {
    && (forall id :: id in sessions ==> id in births && births[id].row == sessions[id])
    && (forall id :: id in births ==>
      births[id].row.expiresAt == Min(births[id].tokenExpiry, births[id].createdAt + SESSION_TTL))
  }

  ghost predicate KeysOk(keys: map<string, KeyRow>, issued: map<string, KeyRow>) {
    forall id :: id in keys ==>
      id in issued && keys[id].keyHash == issued[id].keyHash && (Typed(id) ==> keys[id] == issued[id])
  }

  /** The thread's proof is the row it read, a row that was really inserted under that id. */
  predicate ProofOk(births: map<string, Birth>, issued: map<string, KeyRow>, p: Proof, purpose: Purpose,
                    row: SessionRow) {
    && p.sessionId in births && births[p.sessionId].row == row
    && row.subject == p.userId && row.username == p.username
    && PurposeOk(issued, p, purpose)
  }

  predicate PurposeOk(issued: map<string, KeyRow>, p: Proof, purpose: Purpose) {
    purpose.ForKey? ==>
      && purpose.owner == p.userId && Typed(purpose.keyId)
      && purpose.keyId in issued && issued[purpose.keyId] == KeyRow(purpose.owner, purpose.keyHash)
  }

  /** The claims name a subject and hold a token that outlived the beginning of the sign-in. */
  predicate Storable(k: Claims, createdAt: int) {
    k.subject != "" && k.token != "" && k.tokenExpiry.Some? && createdAt < k.tokenExpiry.value
  }

  ghost predicate PcOk(s: State, pc: Pc) {
    match pc
    case Exchanged(_, createdAt) => createdAt <= s.now
    case Saving(_, createdAt) => createdAt <= s.now
    case Purging(k, createdAt) => createdAt <= s.now && Storable(k, createdAt)
    case Inserting(k, createdAt) => createdAt <= s.now && Storable(k, createdAt)
    case Adopting(_, _) => true
    case Checking(p, purpose) => PurposeOk(s.issuedKeys, p, purpose)
    case Consulting(p, purpose, row) => ProofOk(s.births, s.issuedKeys, p, purpose, row)
    case Revoking(_) => true
    case Rechecking(p, purpose, row) => ProofOk(s.births, s.issuedKeys, p, purpose, row)
    case KeyRead(keyId, keyHash, owner) =>
      keyId in s.issuedKeys && (Typed(keyId) ==> s.issuedKeys[keyId] == KeyRow(owner, keyHash))
    case Closing(p, purpose, row) => ProofOk(s.births, s.issuedKeys, p, purpose, row)
    case Judged(k, reading) => Fresh(k, reading) && reading <= s.now
    case SignedIn(p, purpose, row, at) => ProofOk(s.births, s.issuedKeys, p, purpose, row) && at <= s.now
    case Refused => true
    case Finished => true
  }

  ghost predicate Inv(s: State) {
    && SessionsOk(s.sessions, s.births)
    && KeysOk(s.keys, s.issuedKeys)
    && forall t :: t in s.threads ==> PcOk(s, s.threads[t])
  }

  /** History only grows. */
  predicate Grows(s: State, s': State) {
    && s.now <= s'.now
    && (forall id :: id in s.births ==> id in s'.births && s'.births[id] == s.births[id])
    && (forall id :: id in s.issuedKeys ==> id in s'.issuedKeys && s'.issuedKeys[id] == s.issuedKeys[id])
  }

  lemma PcOkGrows(s: State, s': State, pc: Pc)
    requires PcOk(s, pc) && Grows(s, s')
    ensures PcOk(s', pc)
  {
  }

  /** One thread moves; tables and history stay in order. */
  lemma ThreadFrame(s: State, s': State, t: Tid)
    requires Inv(s) && Grows(s, s')
    requires s'.threads.Keys <= s.threads.Keys + {t}
    requires forall u :: u in s'.threads && u != t ==> s'.threads[u] == s.threads[u]
    requires t in s'.threads ==> PcOk(s', s'.threads[t])
    requires SessionsOk(s'.sessions, s'.births) && KeysOk(s'.keys, s'.issuedKeys)
    ensures Inv(s')
  {
    forall u | u in s'.threads ensures PcOk(s', s'.threads[u]) {
      if u != t {
        assert u in s.threads;
        PcOkGrows(s, s', s.threads[u]);
      }
    }
  }

  lemma MoveKeeps(s: State, t: Tid, pc: Pc)
    requires Inv(s) && PcOk(s, pc)
    ensures Inv(To(s, t, pc)) && Grows(s, To(s, t, pc))
  {
    ThreadFrame(s, To(s, t, pc), t);
  }

  lemma TablesKeep(s: State, s': State)
    requires Inv(s) && Grows(s, s') && s'.threads == s.threads
    requires SessionsOk(s'.sessions, s'.births) && KeysOk(s'.keys, s'.issuedKeys)
    ensures Inv(s')
  {
    forall t | t in s'.threads ensures PcOk(s', s'.threads[t]) {
      PcOkGrows(s, s', s.threads[t]);
    }
  }

  lemma NewRowKeeps(sessions: map<string, SessionRow>, births: map<string, Birth>, id: string, b: Birth)
    requires SessionsOk(sessions, births) && b.row.expiresAt == Min(b.tokenExpiry, b.createdAt + SESSION_TTL)
    requires id !in births
    ensures SessionsOk(sessions[id := b.row], births[id := b])
  {
  }

  lemma InsertingKeeps(s: State, k: Claims, createdAt: int, id: string, nonce: int)
    requires Inv(s) && k.tokenExpiry.Some? && id !in s.births
    ensures var row := RowFor(k, createdAt, nonce);
            var s' := s.(sessions := s.sessions[id := row],
              births := s.births[id := Birth(row, createdAt, k.tokenExpiry.value)]);
            Inv(s') && Grows(s, s')
  {
    var row := RowFor(k, createdAt, nonce);
    var b := Birth(row, createdAt, k.tokenExpiry.value);
    NewRowKeeps(s.sessions, s.births, id, b);
    TablesKeep(s, s.(sessions := s.sessions[id := row], births := s.births[id := b]));
  }

  /** Adoption moves untyped keys only. */
  lemma AdoptionKeepsKeys(keys: map<string, KeyRow>, issued: map<string, KeyRow>, former: string, subject: string)
    requires KeysOk(keys, issued)
    ensures KeysOk(Adopted(keys, former, subject), issued)
  {
  }

  /** The tables as a sign-in step leaves them, before the thread moves on. */
  ghost predicate SignInTables(c: Config, s: State, t: Tid, o: Oracle, u: State)
    requires t in s.threads && IsSignIn(s.threads[t])
  {
    Inv(u) && Grows(s, u) && SignInStep(c, s, t, o) == To(u, t, NextSignIn(c, s.now, s.threads[t], o))
  }

  lemma PurgingTables(c: Config, s: State, t: Tid, o: Oracle) returns (u: State)
    requires Inv(s) && t in s.threads && s.threads[t].Purging?
    ensures SignInTables(c, s, t, o, u)
  {
    u := s.(sessions := Unexpired(s.sessions, s.now));
    TablesKeep(s, u);
  }

  lemma InsertingTables(c: Config, s: State, t: Tid, o: Oracle) returns (u: State)
    requires Inv(s) && Enabled(c, s, Go(t, o)) && s.threads[t].Inserting? && s.threads[t].claims.tokenExpiry.Some?
    ensures SignInTables(c, s, t, o, u)
  {
    var Inserting(k, createdAt) := s.threads[t];
    var row := RowFor(k, createdAt, o.nonce);
    u := s.(sessions := s.sessions[o.id := row],
      births := s.births[o.id := Birth(row, createdAt, k.tokenExpiry.value)]);
    InsertingKeeps(s, k, createdAt, o.id, o.nonce);
  }

  lemma AdoptingTables(c: Config, s: State, t: Tid, o: Oracle) returns (u: State)
    requires Inv(s) && t in s.threads && s.threads[t].Adopting? && s.threads[t].names != []
    ensures SignInTables(c, s, t, o, u)
  {
    u := s.(keys := Adopted(s.keys, s.threads[t].names[0], s.threads[t].subject));
    AdoptionKeepsKeys(s.keys, s.issuedKeys, s.threads[t].names[0], s.threads[t].subject);
    TablesKeep(s, u);
  }

  lemma NextSignInOk(c: Config, s: State, t: Tid, o: Oracle)
    requires Inv(s) && t in s.threads && IsSignIn(s.threads[t])
    ensures PcOk(s, NextSignIn(c, s.now, s.threads[t], o))
  {
    assert PcOk(s, s.threads[t]);
  }

  lemma SignInKeeps(c: Config, s: State, t: Tid, o: Oracle)
    requires Inv(s) && Enabled(c, s, Go(t, o)) && IsSignIn(s.threads[t])
    ensures Inv(SignInStep(c, s, t, o)) && Grows(s, SignInStep(c, s, t, o))
  {
    var pc := NextSignIn(c, s.now, s.threads[t], o);
    NextSignInOk(c, s, t, o);
    var u := s;
    if s.threads[t].Purging? {
      u := PurgingTables(c, s, t, o);
    } else if s.threads[t].Inserting? && s.threads[t].claims.tokenExpiry.Some? {
      u := InsertingTables(c, s, t, o);
    } else if s.threads[t].Adopting? && s.threads[t].names != [] {
      u := AdoptingTables(c, s, t, o);
    }
    assert SignInTables(c, s, t, o, u);
    PcOkGrows(s, u, pc);
    MoveKeeps(u, t, pc);
  }

  lemma RevokingKeeps(c: Config, s: State, t: Tid, o: Oracle)
    requires Inv(s) && t in s.threads && s.threads[t].Revoking?
    ensures Inv(CheckStep(c, s, t, o)) && Grows(s, CheckStep(c, s, t, o))
  {
    ThreadFrame(s, CheckStep(c, s, t, o), t);
  }

  lemma CheckMoves(c: Config, s: State, t: Tid, o: Oracle)
    requires Inv(s) && t in s.threads && IsCheck(s.threads[t])
    ensures PcOk(s, NextCheck(c, s.sessions, s.now, s.threads[t], o))
  {
    assert PcOk(s, s.threads[t]);
  }

  lemma CheckKeeps(c: Config, s: State, t: Tid, o: Oracle)
    requires Inv(s) && t in s.threads && IsCheck(s.threads[t])
    ensures Inv(CheckStep(c, s, t, o)) && Grows(s, CheckStep(c, s, t, o))
  {
    if s.threads[t].Revoking? {
      RevokingKeeps(c, s, t, o);
    } else {
      CheckMoves(c, s, t, o);
      MoveKeeps(s, t, NextCheck(c, s.sessions, s.now, s.threads[t], o));
    }
  }

  lemma KeyMoves(s: State, pc: Pc, o: Oracle)
    requires PcOk(s, pc) && IsKeyCheck(pc)
    ensures PcOk(s, NextKey(s.sessions, s.keys, s.now, pc, o))
  {
  }

  lemma KeyKeeps(s: State, t: Tid, o: Oracle)
    requires Inv(s) && t in s.threads && IsKeyCheck(s.threads[t])
    ensures Inv(KeyStep(s, t, o)) && Grows(s, KeyStep(s, t, o))
  {
    assert PcOk(s, s.threads[t]);
    KeyMoves(s, s.threads[t], o);
    MoveKeeps(s, t, NextKey(s.sessions, s.keys, s.now, s.threads[t], o));
  }

  /** The tables as a logout leaves them, before the thread moves on. */
  lemma LogoutTables(s: State, t: Tid) returns (u: State)
    requires Inv(s) && t in s.threads && s.threads[t].Judged?
    ensures Inv(u) && Grows(s, u)
    ensures LogoutStep(s, t) == To(u, t, Refused) || LogoutStep(s, t) == To(u, t, Finished)
  {
    var s' := LogoutStep(s, t);
    u := s.(jtis := s'.jtis, sessions := s'.sessions, accepted := s'.accepted);
    TablesKeep(s, u);
  }

  lemma LogoutKeeps(s: State, t: Tid)
    requires Inv(s) && t in s.threads && s.threads[t].Judged?
    ensures Inv(LogoutStep(s, t)) && Grows(s, LogoutStep(s, t))
  {
    var u := LogoutTables(s, t);
    MoveKeeps(u, t, if LogoutStep(s, t) == To(u, t, Refused) then Refused else Finished);
  }

  lemma GoKeeps(c: Config, s: State, t: Tid, o: Oracle)
    requires Inv(s) && Enabled(c, s, Go(t, o))
    ensures Inv(Apply(c, s, Go(t, o))) && Grows(s, Apply(c, s, Go(t, o)))
  {
    if IsSignIn(s.threads[t]) {
      SignInKeeps(c, s, t, o);
    } else if IsCheck(s.threads[t]) {
      CheckKeeps(c, s, t, o);
    } else if IsKeyCheck(s.threads[t]) {
      KeyKeeps(s, t, o);
    } else {
      LogoutKeeps(s, t);
    }
  }

  lemma ArrivalKeeps(c: Config, s: State, e: Event)
    requires Inv(s) && Enabled(c, s, e) && (e.Callback? || e.CookieRequest? || e.KeyRequest? || e.LogoutRequest?)
    ensures Inv(Apply(c, s, e)) && Grows(s, Apply(c, s, e))
  {
    MoveKeeps(s, e.t, Apply(c, s, e).threads[e.t]);
  }

  lemma KeyTableKeeps(c: Config, s: State, e: Event)
    requires Inv(s) && Enabled(c, s, e) && (e.CreateKey? || e.DeleteKey?)
    ensures Inv(Apply(c, s, e)) && Grows(s, Apply(c, s, e))
  {
    TablesKeep(s, Apply(c, s, e));
  }

  lemma SessionTableKeeps(c: Config, s: State, e: Event)
    requires Inv(s) && (e.Tick? || e.LocalLogout?)
    ensures Inv(Apply(c, s, e)) && Grows(s, Apply(c, s, e))
  {
    TablesKeep(s, Apply(c, s, e));
  }

  lemma StepKeepsInv(c: Config, s: State, e: Event)
    requires Inv(s) && Enabled(c, s, e)
    ensures Inv(Apply(c, s, e)) && Grows(s, Apply(c, s, e))
  {
    if e.Go? {
      GoKeeps(c, s, e.t, e.oracle);
    } else if e.Callback? || e.CookieRequest? || e.KeyRequest? || e.LogoutRequest? {
      ArrivalKeeps(c, s, e);
    } else if e.CreateKey? || e.DeleteKey? {
      KeyTableKeeps(c, s, e);
    } else {
      SessionTableKeeps(c, s, e);
    }
  }

  lemma {:induction false} AlwaysInv(c: Config, start: int, es: seq<Event>)
    requires Possible(c, start, es)
    ensures Inv(After(c, start, es))
  {
    if es != [] {
      AlwaysInv(c, start, es[..|es| - 1]);
      StepKeepsInv(c, After(c, start, es[..|es| - 1]), es[|es| - 1]);
    }
  }

  // ---------- a row that is gone stays gone ----------

  /** The session row was inserted once and has been deleted. */
  predicate SessionGone(s: State, id: string) {
    id in s.births && id !in s.sessions
  }

  /** The key was issued and has been deleted. */
  predicate KeyGone(s: State, id: string) {
    id in s.issuedKeys && id !in s.keys
  }

  lemma SignInCreatesOnce(c: Config, s: State, t: Tid, o: Oracle, id: string)
    requires Enabled(c, s, Go(t, o)) && IsSignIn(s.threads[t])
    ensures SessionGone(s, id) ==> SessionGone(SignInStep(c, s, t, o), id)
    ensures KeyGone(s, id) ==> KeyGone(SignInStep(c, s, t, o), id)
  {
  }

  lemma ChecksCreateNothing(c: Config, s: State, t: Tid, o: Oracle, id: string)
    requires Enabled(c, s, Go(t, o)) && !IsSignIn(s.threads[t])
    ensures SessionGone(s, id) ==> SessionGone(Apply(c, s, Go(t, o)), id)
    ensures KeyGone(s, id) ==> KeyGone(Apply(c, s, Go(t, o)), id)
  {
  }

  /** No step inserts a session or a key under an id that was used before. */
  lemma GoneStays(c: Config, s: State, e: Event, id: string)
    requires Enabled(c, s, e)
    ensures SessionGone(s, id) ==> SessionGone(Apply(c, s, e), id)
    ensures KeyGone(s, id) ==> KeyGone(Apply(c, s, e), id)
  {
    if e.Go? {
      if IsSignIn(s.threads[e.t]) {
        SignInCreatesOnce(c, s, e.t, e.oracle, id);
      } else {
        ChecksCreateNothing(c, s, e.t, e.oracle, id);
      }
    }
  }

  lemma PrefixIsPossible(c: Config, start: int, es: seq<Event>, n: nat)
    requires Possible(c, start, es) && n <= |es|
    ensures Possible(c, start, es[..n])
    decreases |es| - n
  {
    if n < |es| {
      PrefixIsPossible(c, start, es, n + 1);
      assert es[..n + 1][..n] == es[..n];
    } else {
      assert es[..n] == es;
    }
  }

  /** The state after the first n events. */
  ghost function AtPoint(c: Config, start: int, es: seq<Event>, n: nat): State
    requires Possible(c, start, es) && n <= |es|
  {
    PrefixIsPossible(c, start, es, n);
    After(c, start, es[..n])
  }

  lemma NextPoint(c: Config, start: int, es: seq<Event>, n: nat)
    requires Possible(c, start, es) && n < |es|
    ensures Enabled(c, AtPoint(c, start, es, n), es[n])
    ensures AtPoint(c, start, es, n + 1) == Apply(c, AtPoint(c, start, es, n), es[n])
  {
    PrefixIsPossible(c, start, es, n + 1);
    assert es[..n + 1][..n] == es[..n];
  }

  lemma {:induction false} GoneStaysAlong(c: Config, start: int, es: seq<Event>, n: nat, m: nat, id: string)
    requires Possible(c, start, es) && n <= m <= |es|
    ensures SessionGone(AtPoint(c, start, es, n), id) ==> SessionGone(AtPoint(c, start, es, m), id)
    ensures KeyGone(AtPoint(c, start, es, n), id) ==> KeyGone(AtPoint(c, start, es, m), id)
    decreases m - n
  {
    if n < m {
      NextPoint(c, start, es, n);
      GoneStays(c, AtPoint(c, start, es, n), es[n], id);
      GoneStaysAlong(c, start, es, n + 1, m, id);
    }
  }

  lemma {:induction false} HistoryGrowsAlong(c: Config, start: int, es: seq<Event>, n: nat, m: nat)
    requires Possible(c, start, es) && n <= m <= |es|
    ensures Grows(AtPoint(c, start, es, n), AtPoint(c, start, es, m))
    decreases m - n
  {
    if n < m {
      NextPoint(c, start, es, n);
      PrefixIsPossible(c, start, es, n);
      AlwaysInv(c, start, es[..n]);
      StepKeepsInv(c, AtPoint(c, start, es, n), es[n]);
      HistoryGrowsAlong(c, start, es, n + 1, m);
    }
  }

  // ---------- what a success contains ----------

  /** The provider knows the subject and, where a group is required, vouches for it; the token has time left. */
  predicate Confirms(c: Config, answer: UserInfo, subject: string, tokenExpiry: int, now: int) {
    && now < tokenExpiry && answer.Info? && answer.subject == subject && subject != "" && answer.readable
    && (c.requiredGroup == "" || c.requiredGroup in answer.groups)
  }

  /** It has answered otherwise, or the token has run out. */
  predicate Denies(c: Config, answer: UserInfo, subject: string, tokenExpiry: int, now: int) {
    tokenExpiry <= now || (answer.Info? && !Confirms(c, answer, subject, tokenExpiry, now))
  }

  /** Confirmed, denied or unanswered: what a check makes of the provider's reply. */
  lemma JudgedExactly(c: Config, answer: UserInfo, subject: string, tokenExpiry: int, now: int)
    ensures Judge(c, answer, subject, tokenExpiry, now).Accept? <==> Confirms(c, answer, subject, tokenExpiry, now)
    ensures Judge(c, answer, subject, tokenExpiry, now).Revoke? <==> Denies(c, answer, subject, tokenExpiry, now)
  {
  }

  /** At point n the provider was asked about this very row and confirmed it. */
  ghost predicate AcceptedAt(c: Config, start: int, es: seq<Event>, n: nat, p: Proof, purpose: Purpose, row: SessionRow)
    requires Possible(c, start, es) && n < |es|
  {
    var s := AtPoint(c, start, es, n);
    && es[n].Go? && es[n].t in s.threads && s.threads[es[n].t] == Consulting(p, purpose, row)
    && Confirms(c, es[n].oracle.answer, row.subject, row.expiresAt, s.now)
  }

  predicate Past(pc: Pc, p: Proof, purpose: Purpose, row: SessionRow) {
    pc == Rechecking(p, purpose, row) || pc == Closing(p, purpose, row)
      || (pc.SignedIn? && pc == SignedIn(p, purpose, row, pc.at))
  }

  lemma CheckPasses(c: Config, s: State, pc: Pc, o: Oracle, p: Proof, purpose: Purpose, row: SessionRow)
    requires IsCheck(pc) && !Past(pc, p, purpose, row) && Past(NextCheck(c, s.sessions, s.now, pc, o), p, purpose, row)
    ensures pc == Consulting(p, purpose, row) && Judge(c, o.answer, p.userId, row.expiresAt, s.now).Accept?
  {
  }

  lemma KeyCheckDoesNotPass(s: State, pc: Pc, o: Oracle, p: Proof, purpose: Purpose, row: SessionRow)
    requires IsKeyCheck(pc) && !Past(pc, p, purpose, row)
    ensures !Past(NextKey(s.sessions, s.keys, s.now, pc, o), p, purpose, row)
  {
  }

  lemma SignInMoves(c: Config, s: State, t: Tid, o: Oracle)
    requires t in s.threads && IsSignIn(s.threads[t])
    ensures SignInStep(c, s, t, o).threads == s.threads[t := NextSignIn(c, s.now, s.threads[t], o)]
  {
  }

  /** Where any step of a thread takes it. */
  ghost function NextPc(c: Config, s: State, t: Tid, o: Oracle): Pc
    requires Enabled(c, s, Go(t, o))
  {
    if IsSignIn(s.threads[t]) then NextSignIn(c, s.now, s.threads[t], o)
    else if IsCheck(s.threads[t]) then NextCheck(c, s.sessions, s.now, s.threads[t], o)
    else if IsKeyCheck(s.threads[t]) then NextKey(s.sessions, s.keys, s.now, s.threads[t], o)
    else if s.threads[t].token.jti in Purged(s.jtis, s.threads[t].reading) then Refused
    else Finished
  }

  /** A step of one thread leaves the program counters of the others alone. */
  lemma OnlyItselfMoves(c: Config, s: State, t: Tid, o: Oracle)
    requires Enabled(c, s, Go(t, o))
    ensures Apply(c, s, Go(t, o)).threads == s.threads[t := NextPc(c, s, t, o)]
  {
    if IsSignIn(s.threads[t]) {
      SignInMoves(c, s, t, o);
    }
  }

  lemma OwnStepPasses(c: Config, s: State, t: Tid, o: Oracle, p: Proof, purpose: Purpose, row: SessionRow)
    requires Enabled(c, s, Go(t, o)) && !Past(s.threads[t], p, purpose, row)
    requires Past(NextPc(c, s, t, o), p, purpose, row)
    ensures s.threads[t] == Consulting(p, purpose, row) && Judge(c, o.answer, p.userId, row.expiresAt, s.now).Accept?
  {
    if IsCheck(s.threads[t]) {
      CheckPasses(c, s, s.threads[t], o, p, purpose, row);
    } else if IsKeyCheck(s.threads[t]) {
      KeyCheckDoesNotPass(s, s.threads[t], o, p, purpose, row);
    }
  }

  /** Only the provider's acceptance leads past the consultation. */
  lemma OnlyAcceptancePasses(c: Config, s: State, e: Event, t: Tid, p: Proof, purpose: Purpose, row: SessionRow)
    requires Enabled(c, s, e)
    requires t in Apply(c, s, e).threads && Past(Apply(c, s, e).threads[t], p, purpose, row)
    requires !(t in s.threads && Past(s.threads[t], p, purpose, row))
    ensures e.Go? && e.t == t && s.threads[t] == Consulting(p, purpose, row)
    ensures Judge(c, e.oracle.answer, p.userId, row.expiresAt, s.now).Accept?
  {
    if e.Go? {
      OnlyItselfMoves(c, s, e.t, e.oracle);
      if e.t == t {
        OwnStepPasses(c, s, t, e.oracle, p, purpose, row);
      }
    }
  }

  lemma AcceptanceConfirms(c: Config, start: int, es: seq<Event>, n: nat, p: Proof, purpose: Purpose, row: SessionRow)
    requires Possible(c, start, es) && n < |es|
    requires var s := AtPoint(c, start, es, n);
             && es[n].Go? && es[n].t in s.threads && s.threads[es[n].t] == Consulting(p, purpose, row)
             && Judge(c, es[n].oracle.answer, p.userId, row.expiresAt, s.now).Accept?
    ensures AcceptedAt(c, start, es, n, p, purpose, row)
  {
    PrefixIsPossible(c, start, es, n);
    AlwaysInv(c, start, es[..n]);
    var s := AtPoint(c, start, es, n);
    assert PcOk(s, s.threads[es[n].t]);
    JudgedExactly(c, es[n].oracle.answer, p.userId, row.expiresAt, s.now);
  }

  lemma {:induction false} PassedWasAccepted(c: Config, start: int, es: seq<Event>, n: nat, t: Tid,
                                              p: Proof, purpose: Purpose, row: SessionRow)
    returns (i: nat)
    requires Possible(c, start, es) && n <= |es|
    requires t in AtPoint(c, start, es, n).threads && Past(AtPoint(c, start, es, n).threads[t], p, purpose, row)
    ensures i < n && AcceptedAt(c, start, es, i, p, purpose, row)
  {
    i := 0;
    assert es[..0] == [];
    if n > 0 {
      NextPoint(c, start, es, n - 1);
      var s := AtPoint(c, start, es, n - 1);
      if t in s.threads && Past(s.threads[t], p, purpose, row) {
        i := PassedWasAccepted(c, start, es, n - 1, t, p, purpose, row);
      } else {
        OnlyAcceptancePasses(c, s, es[n - 1], t, p, purpose, row);
        AcceptanceConfirms(c, start, es, n - 1, p, purpose, row);
        i := n - 1;
      }
    }
  }

  /** The n-th event lets thread t in. */
  ghost predicate SucceedsAt(c: Config, start: int, es: seq<Event>, n: nat, t: Tid)
    requires Possible(c, start, es) && n < |es|
  {
    && es[n].Go? && es[n].t == t
    && t in AtPoint(c, start, es, n + 1).threads && AtPoint(c, start, es, n + 1).threads[t].SignedIn?
  }

  /** What the last step of a success finds. */
  ghost predicate FindsItsRows(s: State, pc: Pc, p: Proof, purpose: Purpose, row: SessionRow) {
    && Past(pc, p, purpose, row) && ProofOk(s.births, s.issuedKeys, p, purpose, row)
    && p.sessionId in s.sessions && s.sessions[p.sessionId] == row && s.now < row.expiresAt
    && (purpose.ForKey? ==> purpose.keyId in s.keys && s.keys[purpose.keyId] == KeyRow(purpose.owner, purpose.keyHash))
  }

  lemma CookieSuccess(c: Config, s: State, t: Tid, o: Oracle)
    requires Inv(s) && t in s.threads && IsCheck(s.threads[t])
    requires NextCheck(c, s.sessions, s.now, s.threads[t], o).SignedIn?
    ensures var SignedIn(p, purpose, row, at) := NextCheck(c, s.sessions, s.now, s.threads[t], o);
            FindsItsRows(s, s.threads[t], p, purpose, row)
  {
    assert PcOk(s, s.threads[t]);
    assert s.threads[t].Rechecking?;
  }

  lemma KeySuccess(s: State, t: Tid, o: Oracle)
    requires Inv(s) && t in s.threads && IsKeyCheck(s.threads[t])
    requires NextKey(s.sessions, s.keys, s.now, s.threads[t], o).SignedIn?
    ensures var SignedIn(p, purpose, row, at) := NextKey(s.sessions, s.keys, s.now, s.threads[t], o);
            FindsItsRows(s, s.threads[t], p, purpose, row)
  {
    assert PcOk(s, s.threads[t]);
    assert s.threads[t].Closing?;
  }

  lemma SuccessStep(c: Config, s: State, t: Tid, o: Oracle)
    requires Inv(s) && Enabled(c, s, Go(t, o)) && NextPc(c, s, t, o).SignedIn?
    ensures var SignedIn(p, purpose, row, at) := NextPc(c, s, t, o); FindsItsRows(s, s.threads[t], p, purpose, row)
  {
    if IsCheck(s.threads[t]) {
      CookieSuccess(c, s, t, o);
    } else if IsKeyCheck(s.threads[t]) {
      KeySuccess(s, t, o);
    }
  }

  /** The instant of success: at that moment the session row is there, unexpired, and it is the very row
      the thread read and the provider accepted; for an API key the exact key row is there too. */
  lemma SuccessHappensWithTheRows(c: Config, start: int, es: seq<Event>, n: nat, t: Tid)
    requires Possible(c, start, es) && n < |es| && SucceedsAt(c, start, es, n, t)
    ensures var s := AtPoint(c, start, es, n);
            var SignedIn(p, purpose, row, at) := AtPoint(c, start, es, n + 1).threads[t];
            && t in s.threads && Past(s.threads[t], p, purpose, row)
            && p.sessionId in s.sessions && s.sessions[p.sessionId] == row
            && row.subject == p.userId && row.username == p.username && s.now < row.expiresAt
            && (purpose.ForKey? ==> purpose.owner == row.subject && purpose.keyId in s.keys
                                    && s.keys[purpose.keyId] == KeyRow(purpose.owner, purpose.keyHash))
    ensures var s := AtPoint(c, start, es, n);
            var p := AtPoint(c, start, es, n + 1).threads[t].proof;
            p.sessionId in s.births && s.now < s.births[p.sessionId].tokenExpiry
            && s.now < s.births[p.sessionId].createdAt + SESSION_TTL
  {
    NextPoint(c, start, es, n);
    PrefixIsPossible(c, start, es, n);
    AlwaysInv(c, start, es[..n]);
    OnlyItselfMoves(c, AtPoint(c, start, es, n), t, es[n].oracle);
    SuccessStep(c, AtPoint(c, start, es, n), t, es[n].oracle);
  }

  /** And between the provider's acceptance and the success the row was never away, so no logout and no
      denial of that session came in between. */
  lemma SuccessIsLiveThroughout(c: Config, start: int, es: seq<Event>, n: nat, t: Tid) returns (i: nat)
    requires Possible(c, start, es) && n < |es| && SucceedsAt(c, start, es, n, t)
    ensures var SignedIn(p, purpose, row, at) := AtPoint(c, start, es, n + 1).threads[t];
            && i < n && AcceptedAt(c, start, es, i, p, purpose, row)
            && forall k :: i <= k <= n ==>
                 p.sessionId in AtPoint(c, start, es, k).sessions
                   && AtPoint(c, start, es, k).sessions[p.sessionId] == row
  {
    SuccessHappensWithTheRows(c, start, es, n, t);
    var SignedIn(p, purpose, row, at) := AtPoint(c, start, es, n + 1).threads[t];
    i := PassedWasAccepted(c, start, es, n, t, p, purpose, row);
    forall k | i <= k <= n
      ensures p.sessionId in AtPoint(c, start, es, k).sessions && AtPoint(c, start, es, k).sessions[p.sessionId] == row
    {
      var u := AtPoint(c, start, es, i);
      PrefixIsPossible(c, start, es, i);
      AlwaysInv(c, start, es[..i]);
      assert PcOk(u, u.threads[es[i].t]);
      HistoryGrowsAlong(c, start, es, i, k);
      GoneStaysAlong(c, start, es, k, n, p.sessionId);
      PrefixIsPossible(c, start, es, k);
      AlwaysInv(c, start, es[..k]);
    }
  }

  /** Nobody signs in with a session that was deleted before, by whatever path. */
  lemma DeletedSessionNeverSignsIn(c: Config, start: int, es: seq<Event>, m: nat, n: nat, t: Tid, id: string)
    requires Possible(c, start, es) && m <= n < |es| && SessionGone(AtPoint(c, start, es, m), id)
    ensures SucceedsAt(c, start, es, n, t) ==> AtPoint(c, start, es, n + 1).threads[t].proof.sessionId != id
  {
    GoneStaysAlong(c, start, es, m, n, id);
    if SucceedsAt(c, start, es, n, t) {
      SuccessHappensWithTheRows(c, start, es, n, t);
    }
  }

  /** Nor with an API key that was deleted before. */
  lemma DeletedKeyNeverSignsIn(c: Config, start: int, es: seq<Event>, m: nat, n: nat, t: Tid, keyId: string)
    requires Possible(c, start, es) && m <= n < |es| && KeyGone(AtPoint(c, start, es, m), keyId)
    ensures SucceedsAt(c, start, es, n, t) && AtPoint(c, start, es, n + 1).threads[t].purpose.ForKey? ==>
              AtPoint(c, start, es, n + 1).threads[t].purpose.keyId != keyId
  {
    GoneStaysAlong(c, start, es, m, n, keyId);
    if SucceedsAt(c, start, es, n, t) {
      SuccessHappensWithTheRows(c, start, es, n, t);
    }
  }

  /** The owner and hash of a typed key never change, whoever signs in under whatever name. */
  lemma TypedKeysKeepTheirOwner(c: Config, start: int, es: seq<Event>, m: nat, n: nat, keyId: string)
    requires Possible(c, start, es) && m <= n <= |es| && Typed(keyId)
    requires keyId in AtPoint(c, start, es, m).keys && keyId in AtPoint(c, start, es, n).keys
    ensures AtPoint(c, start, es, n).keys[keyId] == AtPoint(c, start, es, m).keys[keyId]
  {
    HistoryGrowsAlong(c, start, es, m, n);
    PrefixIsPossible(c, start, es, m);
    PrefixIsPossible(c, start, es, n);
    AlwaysInv(c, start, es[..m]);
    AlwaysInv(c, start, es[..n]);
  }
}
