/** What the provider's answers lead to: a denial ends the session, silence changes nothing, and only an
    accepted sign-in stores one. */
module SessionsOutcomes {
  import opened Sessions
  import opened SessionsProofs

  // ---------- denial ----------

  /** The thread is about to delete the session it was refused with, or has done so. */
  predicate Denied(s: State, t: Tid, p: Proof) {
    && t in s.threads && p.sessionId in s.births
    && (s.threads[t] == Revoking(p) || (s.threads[t] == Refused && SessionGone(s, p.sessionId)))
  }

  lemma DenialStarts(c: Config, s: State, t: Tid, o: Oracle)
    requires Inv(s) && Enabled(c, s, Go(t, o)) && s.threads[t].Consulting?
    requires Judge(c, o.answer, s.threads[t].proof.userId, s.threads[t].row.expiresAt, s.now).Revoke?
    ensures Denied(Apply(c, s, Go(t, o)), t, s.threads[t].proof)
  {
    assert PcOk(s, s.threads[t]);
  }

  lemma RevokingDeletes(c: Config, s: State, t: Tid, o: Oracle)
    requires t in s.threads && s.threads[t].Revoking?
    ensures var u := CheckStep(c, s, t, o);
            && u.sessions == s.sessions - {s.threads[t].proof.sessionId} && u.births == s.births
            && u.threads == s.threads[t := Refused]
  {
  }

  lemma OthersLeaveIt(c: Config, s: State, e: Event, t: Tid)
    requires Enabled(c, s, e) && t in s.threads && !(e.Go? && e.t == t)
    ensures t in Apply(c, s, e).threads && Apply(c, s, e).threads[t] == s.threads[t]
  {
    if e.Go? {
      OnlyItselfMoves(c, s, e.t, e.oracle);
    }
  }

  lemma DeniedStays(c: Config, s: State, e: Event, t: Tid, p: Proof)
    requires Inv(s) && Enabled(c, s, e) && Denied(s, t, p)
    ensures Denied(Apply(c, s, e), t, p)
  {
    if e.Go? && e.t == t {
      RevokingDeletes(c, s, t, e.oracle);
    } else {
      OthersLeaveIt(c, s, e, t);
      GoneStays(c, s, e, p.sessionId);
      StepKeepsInv(c, s, e);
    }
  }

  lemma {:induction false} DeniedStaysAlong(c: Config, start: int, es: seq<Event>, n: nat, m: nat, t: Tid, p: Proof)
    requires Possible(c, start, es) && n <= m <= |es| && Denied(AtPoint(c, start, es, n), t, p)
    ensures Denied(AtPoint(c, start, es, m), t, p)
    decreases m - n
  {
    if n < m {
      NextPoint(c, start, es, n);
      PrefixIsPossible(c, start, es, n);
      AlwaysInv(c, start, es[..n]);
      DeniedStays(c, AtPoint(c, start, es, n), es[n], t, p);
      DeniedStaysAlong(c, start, es, n + 1, m, t, p);
    }
  }

  /** Once the provider has denied a session (an expired token, another subject, a missing group, unreadable
      claims), the check ends in refusal and by then the session row is gone, for this cookie and for every other
      use of it. */
  lemma DenialEndsTheSession(c: Config, start: int, es: seq<Event>, n: nat, m: nat, t: Tid)
    requires Possible(c, start, es) && n < m <= |es|
    requires var s := AtPoint(c, start, es, n);
             && es[n].Go? && es[n].t == t && t in s.threads && s.threads[t].Consulting?
             && Denies(c, es[n].oracle.answer, s.threads[t].row.subject, s.threads[t].row.expiresAt, s.now)
    ensures var p, u := AtPoint(c, start, es, n).threads[t].proof, AtPoint(c, start, es, m);
            t in u.threads && !u.threads[t].SignedIn? && (u.threads[t].Refused? ==> SessionGone(u, p.sessionId))
  {
    var p := AtPoint(c, start, es, n).threads[t].proof;
    NextPoint(c, start, es, n);
    PrefixIsPossible(c, start, es, n);
    AlwaysInv(c, start, es[..n]);
    var s := AtPoint(c, start, es, n);
    assert PcOk(s, s.threads[t]);
    JudgedExactly(c, es[n].oracle.answer, p.userId, s.threads[t].row.expiresAt, s.now);
    DenialStarts(c, s, t, es[n].oracle);
    DeniedStaysAlong(c, start, es, n + 1, m, t, p);
  }

  /** A provider that does not answer about a token with time left ends the check and nothing else. */
  lemma SilenceKeepsTheSession(c: Config, start: int, es: seq<Event>, n: nat, t: Tid)
    requires Possible(c, start, es) && n < |es| && es[n].Go? && es[n].t == t && es[n].oracle.answer.Unreachable?
    requires var s := AtPoint(c, start, es, n);
             t in s.threads && s.threads[t].Consulting? && s.now < s.threads[t].row.expiresAt
    ensures AtPoint(c, start, es, n + 1)
            == AtPoint(c, start, es, n).(threads := AtPoint(c, start, es, n).threads[t := Refused])
  {
    NextPoint(c, start, es, n);
  }

  // ---------- which session stands for a key ----------

  lemma {:induction false} SomeLastsLongest(sessions: map<string, SessionRow>, owner: string, now: int, id: string)
    returns (best: string)
    requires id in sessions && sessions[id].subject == owner && now < sessions[id].expiresAt
    ensures LatestLogin(sessions, owner, now, best)
    decreases |sessions|
  {
    if LatestLogin(sessions, owner, now, id) {
      best := id;
    } else {
      var later :| later in sessions && sessions[later].subject == owner
        && sessions[later].expiresAt > sessions[id].expiresAt;
      var fewer := sessions - {id};
      assert fewer.Keys == sessions.Keys - {id};
      assert |fewer| < |sessions|;
      best := SomeLastsLongest(fewer, owner, now, later);
      assert fewer[later].expiresAt <= fewer[best].expiresAt;
      assert forall j :: j in sessions ==> j == id || (j in fewer && fewer[j] == sessions[j]);
    }
  }

  /** A key is looked into exactly when it is typed, has a hash and an owner, and that owner is signed in; the
      session it is checked by is the one of the owner's that lasts longest. */
  lemma KeysStandOnTheLongestLogin(c: Config, start: int, es: seq<Event>, n: nat, t: Tid)
    requires Possible(c, start, es) && n < |es| && es[n].Go? && es[n].t == t
    requires t in AtPoint(c, start, es, n).threads && AtPoint(c, start, es, n).threads[t].KeyRead?
    ensures t in AtPoint(c, start, es, n + 1).threads
    ensures var s, pc := AtPoint(c, start, es, n), AtPoint(c, start, es, n + 1).threads[t];
            var KeyRead(keyId, keyHash, owner) := s.threads[t];
            if && owner != "" && keyHash != "" && OIDC_SUBJECT_KEY_PREFIX <= keyId
               && exists id :: id in s.sessions && s.sessions[id].subject == owner && s.now < s.sessions[id].expiresAt
            then
              && pc.Checking? && pc.purpose == ForKey(keyId, keyHash, owner) && pc.proof.userId == owner
              && pc.proof.sessionId in s.sessions
              && var row := s.sessions[pc.proof.sessionId];
              && row.subject == owner && row.username == pc.proof.username && s.now < row.expiresAt
              && forall j ::
                   j in s.sessions && s.sessions[j].subject == owner ==> s.sessions[j].expiresAt <= row.expiresAt
            else pc == Refused
  {
    NextPoint(c, start, es, n);
    var s := AtPoint(c, start, es, n);
    var owner := s.threads[t].owner;
    if id :| id in s.sessions && s.sessions[id].subject == owner && s.now < s.sessions[id].expiresAt {
      var best := SomeLastsLongest(s.sessions, owner, s.now, id);
    }
  }

  // ---------- where a check goes on ----------

  /** A check goes on exactly when its session row is there, unexpired, and of the subject and name its proof says; then
      when the provider confirms it; and then when the row is there, unexpired, still, which lets a cookie in. */
  lemma ChecksGoOnExactly(c: Config, start: int, es: seq<Event>, n: nat, t: Tid)
    requires Possible(c, start, es) && n < |es| && es[n].Go? && es[n].t == t
    requires t in AtPoint(c, start, es, n).threads && IsCheck(AtPoint(c, start, es, n).threads[t])
    ensures t in AtPoint(c, start, es, n + 1).threads
    ensures var s, pc := AtPoint(c, start, es, n), AtPoint(c, start, es, n + 1).threads[t];
            match s.threads[t]
            case Checking(p, purpose) =>
              if && p.sessionId != "" && p.sessionId in s.sessions && s.sessions[p.sessionId].subject == p.userId
                 && s.sessions[p.sessionId].username == p.username && s.now < s.sessions[p.sessionId].expiresAt
              then pc == Consulting(p, purpose, s.sessions[p.sessionId]) else pc == Refused
            case Consulting(p, purpose, row) =>
              if Confirms(c, es[n].oracle.answer, p.userId, row.expiresAt, s.now) then pc == Rechecking(p, purpose, row)
              else if Denies(c, es[n].oracle.answer, p.userId, row.expiresAt, s.now) then pc == Revoking(p)
              else pc == Refused
            case Revoking(_) => pc == Refused
            case Rechecking(p, purpose, row) =>
              if p.sessionId in s.sessions && s.now < s.sessions[p.sessionId].expiresAt
              then pc == if purpose.ForCookie? then SignedIn(p, purpose, row, s.now) else Closing(p, purpose, row)
              else pc == Refused
            case _ => false
  {
    NextPoint(c, start, es, n);
    var s := AtPoint(c, start, es, n);
    OnlyItselfMoves(c, s, t, es[n].oracle);
    if s.threads[t].Consulting? {
      JudgedExactly(c, es[n].oracle.answer, s.threads[t].proof.userId, s.threads[t].row.expiresAt, s.now);
    }
  }

  /** A key is let in at last exactly when login and key are both there as they were read, the login unexpired. */
  lemma KeysAreLetInExactly(c: Config, start: int, es: seq<Event>, n: nat, t: Tid)
    requires Possible(c, start, es) && n < |es| && es[n].Go? && es[n].t == t
    requires t in AtPoint(c, start, es, n).threads && AtPoint(c, start, es, n).threads[t].Closing?
    requires AtPoint(c, start, es, n).threads[t].purpose.ForKey?
    ensures t in AtPoint(c, start, es, n + 1).threads
    ensures var s := AtPoint(c, start, es, n);
            var Closing(p, purpose, row) := s.threads[t];
            AtPoint(c, start, es, n + 1).threads[t]
            == if && p.sessionId in s.sessions && s.sessions[p.sessionId].subject == purpose.owner
                  && s.sessions[p.sessionId].username == p.username && s.now < s.sessions[p.sessionId].expiresAt
                  && purpose.keyId in s.keys && s.keys[purpose.keyId].userId == purpose.owner
                  && s.keys[purpose.keyId].keyHash == purpose.keyHash
               then SignedIn(p, purpose, row, s.now) else Refused
  {
    NextPoint(c, start, es, n);
  }

  /** A sign-in goes on exactly when the provider confirms its subject, and then when it has a subject and a token with
      time left. */
  lemma SignInsGoOnExactly(c: Config, start: int, es: seq<Event>, n: nat, t: Tid)
    requires Possible(c, start, es) && n < |es| && es[n].Go? && es[n].t == t
    requires var s := AtPoint(c, start, es, n); t in s.threads && (s.threads[t].Exchanged? || s.threads[t].Saving?)
    ensures t in AtPoint(c, start, es, n + 1).threads
    ensures var s, pc := AtPoint(c, start, es, n), AtPoint(c, start, es, n + 1).threads[t];
            var k, createdAt := s.threads[t].claims, s.threads[t].createdAt;
            if s.threads[t].Exchanged? then
              pc == if && (k.tokenExpiry.None? || s.now < k.tokenExpiry.value)
                       && Accepts(c, es[n].oracle.answer, k)
                    then Saving(k, createdAt) else Refused
            else
              pc == if k.subject != "" && k.token != "" && k.tokenExpiry.Some? && s.now < k.tokenExpiry.value
                    then Purging(k, createdAt) else Refused
  {
    NextPoint(c, start, es, n);
    OnlyItselfMoves(c, AtPoint(c, start, es, n), t, es[n].oracle);
  }

  // ---------- cookies ----------

  /** A cookie comes before the table exactly when it was made in the last twelve hours. */
  lemma OldCookiesAreRefused(c: Config, start: int, es: seq<Event>, n: nat)
    requires Possible(c, start, es) && n < |es| && es[n].CookieRequest?
    ensures var now, k, u := AtPoint(c, start, es, n).now, es[n].cookie, AtPoint(c, start, es, n + 1).threads;
            && es[n].t in u
            && u[es[n].t] == if 0 < k.createdAt <= now < k.createdAt + 43200
                             then Checking(Proof(k.sessionId, k.userId, k.username), ForCookie) else Refused
  {
    NextPoint(c, start, es, n);
  }

  // ---------- adoption ----------

  /** Each step of an adoption moves to the subject exactly the keys without the subject prefix that were stored under
      the name it has come to, with their hashes; no name moves nothing. */
  lemma AdoptionMovesWhatWasNamed(c: Config, start: int, es: seq<Event>, n: nat, t: Tid, keyId: string)
    requires Possible(c, start, es) && n < |es| && es[n].Go? && es[n].t == t
    requires var s := AtPoint(c, start, es, n); t in s.threads && s.threads[t].Adopting? && s.threads[t].names != []
    ensures var s, s' := AtPoint(c, start, es, n), AtPoint(c, start, es, n + 1);
            var Adopting(subject, names) := s.threads[t];
            && s'.sessions == s.sessions && s'.threads == s.threads[t := Adopting(subject, names[1..])]
            && s'.keys.Keys == s.keys.Keys
            && (keyId in s.keys ==>
                  s'.keys[keyId] == KeyRow(
                    if names[0] != "" && s.keys[keyId].userId == names[0] && !(OIDC_SUBJECT_KEY_PREFIX <= keyId)
                    then subject else s.keys[keyId].userId, s.keys[keyId].keyHash))
  {
    NextPoint(c, start, es, n);
  }

  // ---------- how rows go ----------

  /** A session ends by local logout, with its time, by the provider's denial of a check of it, or by a logout token
      that names it; and in no other way. */
  lemma SessionsEndOnlyFor(c: Config, start: int, es: seq<Event>, n: nat, id: string)
    requires Possible(c, start, es) && n < |es|
    requires id in AtPoint(c, start, es, n).sessions && id !in AtPoint(c, start, es, n + 1).sessions
    ensures var s := AtPoint(c, start, es, n);
            || es[n] == LocalLogout(id)
            || (es[n].Go? && es[n].t in s.threads
                && match s.threads[es[n].t]
                   case Purging(_, _) => s.sessions[id].expiresAt <= s.now
                   case Revoking(p) => p.sessionId == id
                   case Judged(k, _) =>
                     && (k.subject == "" || k.subject == s.sessions[id].subject)
                     && (k.sid == "" || k.sid == s.sessions[id].sid)
                   case _ => false)
  {
    NextPoint(c, start, es, n);
    var s := AtPoint(c, start, es, n);
    if es[n].Go? {
      GoEndsOnlyFor(c, s, es[n].t, es[n].oracle, id);
    }
  }

  lemma GoEndsOnlyFor(c: Config, s: State, t: Tid, o: Oracle, id: string)
    requires Enabled(c, s, Go(t, o)) && id in s.sessions && id !in Apply(c, s, Go(t, o)).sessions
    ensures match s.threads[t]
            case Purging(_, _) => s.sessions[id].expiresAt <= s.now
            case Revoking(p) => p.sessionId == id
            case Judged(k, _) => LoggedOutBy(s.sessions[id], k)
            case _ => false
  {
    if IsSignIn(s.threads[t]) {
      SignInEndsOnlyFor(c, s, t, o, id);
    } else if IsKeyCheck(s.threads[t]) {
      KeyCheckAddsNothing(s, t, o);
    }
  }

  lemma SignInEndsOnlyFor(c: Config, s: State, t: Tid, o: Oracle, id: string)
    requires t in s.threads && IsSignIn(s.threads[t]) && id in s.sessions && id !in SignInStep(c, s, t, o).sessions
    ensures s.threads[t].Purging? && s.sessions[id].expiresAt <= s.now
  {
  }

  lemma GoKeepsKeys(c: Config, s: State, t: Tid, o: Oracle)
    requires Enabled(c, s, Go(t, o))
    ensures Apply(c, s, Go(t, o)).keys.Keys == s.keys.Keys
  {
    if IsSignIn(s.threads[t]) {
      SignInKeepsKeys(c, s, t, o);
    }
  }

  lemma SignInKeepsKeys(c: Config, s: State, t: Tid, o: Oracle)
    requires t in s.threads && IsSignIn(s.threads[t])
    ensures SignInStep(c, s, t, o).keys.Keys == s.keys.Keys
  {
  }

  /** A key is deleted only at the request of its owner or of an administrator. */
  lemma KeysGoOnRequest(c: Config, start: int, es: seq<Event>, n: nat, keyId: string)
    requires Possible(c, start, es) && n < |es|
    requires keyId in AtPoint(c, start, es, n).keys && keyId !in AtPoint(c, start, es, n + 1).keys
    ensures es[n].DeleteKey? && es[n].id == keyId
    ensures es[n].isAdmin || AtPoint(c, start, es, n).keys[keyId].userId == es[n].userId
  {
    NextPoint(c, start, es, n);
    if es[n].Go? {
      GoKeepsKeys(c, AtPoint(c, start, es, n), es[n].t, es[n].oracle);
    }
  }

  // ---------- sign-in ----------

  /** The sign-in has the provider's acceptance behind it. */
  predicate Vouched(pc: Pc, k: Claims, createdAt: int) {
    pc == Saving(k, createdAt) || pc == Purging(k, createdAt) || pc == Inserting(k, createdAt)
  }

  /** The provider knows this subject, in the required group. */
  predicate Accepts(c: Config, answer: UserInfo, k: Claims) {
    && answer.Info? && answer.subject == k.subject && k.subject != "" && answer.readable
    && (c.requiredGroup != "" ==> c.requiredGroup in answer.groups)
  }

  /** At point n the provider was asked about these claims and accepted them. */
  ghost predicate VouchedAt(c: Config, start: int, es: seq<Event>, n: nat, t: Tid, k: Claims, createdAt: int)
    requires Possible(c, start, es) && n < |es|
  {
    var s := AtPoint(c, start, es, n);
    && es[n].Go? && es[n].t == t && t in s.threads && s.threads[t] == Exchanged(k, createdAt)
    && Accepts(c, es[n].oracle.answer, k)
  }

  lemma SignInVouches(c: Config, now: int, pc: Pc, o: Oracle, k: Claims, createdAt: int)
    requires IsSignIn(pc) && !Vouched(pc, k, createdAt) && Vouched(NextSignIn(c, now, pc, o), k, createdAt)
    ensures pc == Exchanged(k, createdAt) && Accepts(c, o.answer, k)
  {
  }

  lemma CheckVouchesNothing(c: Config, sessions: map<string, SessionRow>, now: int, pc: Pc, o: Oracle, k: Claims,
                            createdAt: int)
    requires IsCheck(pc)
    ensures !Vouched(NextCheck(c, sessions, now, pc, o), k, createdAt)
  {
  }

  lemma KeyCheckVouchesNothing(s: State, t: Tid, o: Oracle, k: Claims, createdAt: int)
    requires t in s.threads && IsKeyCheck(s.threads[t])
    ensures !Vouched(KeyStep(s, t, o).threads[t], k, createdAt)
  {
  }

  /** A session check, a key check or a logout vouches for no sign-in. */
  lemma OwnCheckVouchesNothing(c: Config, s: State, t: Tid, o: Oracle, k: Claims, createdAt: int)
    requires Enabled(c, s, Go(t, o)) && !IsSignIn(s.threads[t])
    ensures var u := Apply(c, s, Go(t, o)).threads; t in u && !Vouched(u[t], k, createdAt)
  {
    if IsCheck(s.threads[t]) {
      OnlyItselfMoves(c, s, t, o);
      CheckVouchesNothing(c, s.sessions, s.now, s.threads[t], o, k, createdAt);
    } else if IsKeyCheck(s.threads[t]) {
      KeyCheckVouchesNothing(s, t, o, k, createdAt);
    }
  }

  lemma OwnStepVouches(c: Config, s: State, t: Tid, o: Oracle, k: Claims, createdAt: int)
    requires Enabled(c, s, Go(t, o)) && !Vouched(s.threads[t], k, createdAt)
    requires var u := Apply(c, s, Go(t, o)).threads; t in u && Vouched(u[t], k, createdAt)
    ensures s.threads[t] == Exchanged(k, createdAt) && Accepts(c, o.answer, k)
  {
    if IsSignIn(s.threads[t]) {
      SignInMoves(c, s, t, o);
      SignInVouches(c, s.now, s.threads[t], o, k, createdAt);
    } else {
      OwnCheckVouchesNothing(c, s, t, o, k, createdAt);
    }
  }

  lemma {:induction false} VouchedWasAccepted(c: Config, start: int, es: seq<Event>, n: nat, t: Tid, k: Claims,
                                              createdAt: int)
    returns (i: nat)
    requires Possible(c, start, es) && n <= |es|
    requires t in AtPoint(c, start, es, n).threads && Vouched(AtPoint(c, start, es, n).threads[t], k, createdAt)
    ensures i < n && VouchedAt(c, start, es, i, t, k, createdAt)
  {
    i := 0;
    assert es[..0] == [];
    if n > 0 {
      NextPoint(c, start, es, n - 1);
      var s := AtPoint(c, start, es, n - 1);
      if t in s.threads && Vouched(s.threads[t], k, createdAt) {
        i := VouchedWasAccepted(c, start, es, n - 1, t, k, createdAt);
      } else {
        if t in s.threads && !(es[n - 1].Go? && es[n - 1].t == t) {
          OthersLeaveIt(c, s, es[n - 1], t);
        }
        OnlyGoVouches(c, s, es[n - 1], t, k, createdAt);
        OwnStepVouches(c, s, t, es[n - 1].oracle, k, createdAt);
        i := n - 1;
      }
    }
  }

  lemma OnlyGoVouches(c: Config, s: State, e: Event, t: Tid, k: Claims, createdAt: int)
    requires Enabled(c, s, e) && t in Apply(c, s, e).threads && Vouched(Apply(c, s, e).threads[t], k, createdAt)
    requires !(t in s.threads && Vouched(s.threads[t], k, createdAt))
    ensures e.Go? && e.t == t
  {
    if e.Go? {
      OnlyItselfMoves(c, s, e.t, e.oracle);
    }
  }

  /** A step that adds a session row is a sign-in the provider accepted earlier in the run; the row carries
      the claims' subject, provider session and name, their token sealed, and an expiry still ahead for a
      token that has not expired. */
  lemma OnlyAcceptedSignInsStoreSessions(c: Config, start: int, es: seq<Event>, n: nat, id: string)
    returns (i: nat, t: Tid, k: Claims, createdAt: int)
    requires Possible(c, start, es) && n < |es|
    requires id !in AtPoint(c, start, es, n).sessions && id in AtPoint(c, start, es, n + 1).sessions
    ensures i < n && VouchedAt(c, start, es, i, t, k, createdAt) && es[n].Go? && es[n].t == t
    ensures var row := AtPoint(c, start, es, n + 1).sessions[id];
            && row.subject == k.subject != "" && row.sid == k.sid && row.username == k.username
            && row.accessToken.token == k.token != "" && k.tokenExpiry.Some?
            && createdAt < row.expiresAt <= k.tokenExpiry.value && row.expiresAt <= createdAt + 43200
            && (row.expiresAt == k.tokenExpiry.value || row.expiresAt == createdAt + 43200)
  {
    NextPoint(c, start, es, n);
    var s := AtPoint(c, start, es, n);
    OnlyInsertingAdds(c, s, es[n], id);
    PrefixIsPossible(c, start, es, n);
    AlwaysInv(c, start, es[..n]);
    assert PcOk(s, s.threads[es[n].t]);
    t := es[n].t;
    k, createdAt := s.threads[t].claims, s.threads[t].createdAt;
    i := VouchedWasAccepted(c, start, es, n, t, k, createdAt);
  }

  lemma CheckAddsNothing(c: Config, s: State, t: Tid, o: Oracle)
    requires t in s.threads && IsCheck(s.threads[t])
    ensures CheckStep(c, s, t, o).sessions.Keys <= s.sessions.Keys
  {
  }

  lemma KeyCheckAddsNothing(s: State, t: Tid, o: Oracle)
    requires t in s.threads && IsKeyCheck(s.threads[t])
    ensures KeyStep(s, t, o).sessions == s.sessions
  {
  }

  lemma LogoutAddsNothing(s: State, t: Tid)
    requires t in s.threads && s.threads[t].Judged?
    ensures LogoutStep(s, t).sessions.Keys <= s.sessions.Keys
  {
  }

  lemma OthersAddNothing(c: Config, s: State, e: Event)
    requires Enabled(c, s, e) && !(e.Go? && IsSignIn(s.threads[e.t]))
    ensures Apply(c, s, e).sessions.Keys <= s.sessions.Keys
  {
    if e.Go? {
      if IsCheck(s.threads[e.t]) {
        CheckAddsNothing(c, s, e.t, e.oracle);
      } else if IsKeyCheck(s.threads[e.t]) {
        KeyCheckAddsNothing(s, e.t, e.oracle);
      } else {
        LogoutAddsNothing(s, e.t);
      }
    }
  }

  lemma OnlyInsertingAdds(c: Config, s: State, e: Event, id: string)
    requires Enabled(c, s, e) && id !in s.sessions && id in Apply(c, s, e).sessions
    ensures e.Go? && s.threads[e.t].Inserting? && s.threads[e.t].claims.tokenExpiry.Some?
    ensures Apply(c, s, e).sessions[id] == RowFor(s.threads[e.t].claims, s.threads[e.t].createdAt, e.oracle.nonce)
  {
    if e.Go? && IsSignIn(s.threads[e.t]) {
      SignInAdds(c, s, e.t, e.oracle, id);
    } else {
      OthersAddNothing(c, s, e);
    }
  }

  lemma SignInAdds(c: Config, s: State, t: Tid, o: Oracle, id: string)
    requires t in s.threads && IsSignIn(s.threads[t]) && id !in s.sessions && id in SignInStep(c, s, t, o).sessions
    ensures s.threads[t].Inserting? && s.threads[t].claims.tokenExpiry.Some?
    ensures SignInStep(c, s, t, o).sessions[id] == RowFor(s.threads[t].claims, s.threads[t].createdAt, o.nonce)
  {
  }
}
