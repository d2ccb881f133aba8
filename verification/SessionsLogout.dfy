/** Back-channel logout: no logout token is acted upon twice, and how late a commit may be for that. */
module SessionsLogout {
  import opened Wrappers
  import opened Sessions
  import opened SessionsProofs

  /** The token's jti is still stored, or its acceptance is at least ten minutes old. */
  predicate Remembered(s: State, a: Acceptance) {
    (a.token.jti in s.jtis && s.jtis[a.token.jti] >= a.reading + 600) || s.now >= a.reading + 600
  }

  ghost predicate AcceptancesOk(s: State) {
    && (forall i :: 0 <= i < |s.accepted| ==>
      Fresh(s.accepted[i].token, s.accepted[i].reading) && Remembered(s, s.accepted[i]))
    && NoReplay(s)
  }

  predicate NoReplay(s: State) {
    forall i, j :: 0 <= i < j < |s.accepted| ==> s.accepted[i].token != s.accepted[j].token
  }

  /** Purging by a reading that is not in the future forgets nobody too early. */
  lemma PurgeRemembers(s: State, t: Tid, a: Acceptance)
    requires t in s.threads && s.threads[t].Judged? && s.threads[t].reading <= s.now && Remembered(s, a)
    ensures Remembered(LogoutStep(s, t), a)
  {
  }

  /** A second use would have to commit 240 seconds or more after it read the clock. */
  lemma ReplayNeedsPatience(s: State, t: Tid, a: Acceptance)
    requires t in s.threads && s.threads[t].Judged? && Fresh(s.threads[t].token, s.threads[t].reading)
    requires Fresh(a.token, a.reading) && Remembered(s, a) && a.token == s.threads[t].token
    requires s.now < s.threads[t].reading + 240
    ensures a.token.jti in Purged(s.jtis, s.threads[t].reading)
  {
  }

  lemma LogoutKeepsAcceptances(c: Config, s: State, t: Tid, o: Oracle)
    requires Inv(s) && AcceptancesOk(s) && Enabled(c, s, Go(t, o)) && s.threads[t].Judged? && c.patience < 240
    ensures AcceptancesOk(LogoutStep(s, t))
  {
    var s' := LogoutStep(s, t);
    var Judged(k, reading) := s.threads[t];
    assert PcOk(s, s.threads[t]);
    forall i | 0 <= i < |s.accepted|
      ensures Remembered(s', s.accepted[i]) && (s'.accepted != s.accepted ==> s.accepted[i].token != k)
    {
      PurgeRemembers(s, t, s.accepted[i]);
      if s.accepted[i].token == k {
        ReplayNeedsPatience(s, t, s.accepted[i]);
      }
    }
  }

  lemma StepKeepsAcceptances(c: Config, s: State, e: Event)
    requires Inv(s) && AcceptancesOk(s) && Enabled(c, s, e) && c.patience < 240
    ensures AcceptancesOk(Apply(c, s, e))
  {
    if e.Go? && s.threads[e.t].Judged? {
      LogoutKeepsAcceptances(c, s, e.t, e.oracle);
    } else {
      OnlyLogoutsAccept(c, s, e);
      StepKeepsInv(c, s, e);
    }
  }

  predicate SameLogouts(s: State, s': State) {
    s'.accepted == s.accepted && s'.jtis == s.jtis
  }

  lemma SignInsAcceptNothing(c: Config, s: State, t: Tid, o: Oracle)
    requires t in s.threads && IsSignIn(s.threads[t])
    ensures SameLogouts(s, SignInStep(c, s, t, o))
  {
  }

  lemma ChecksAcceptNothing(c: Config, s: State, t: Tid, o: Oracle)
    requires t in s.threads && IsCheck(s.threads[t])
    ensures SameLogouts(s, CheckStep(c, s, t, o))
  {
  }

  lemma KeyChecksAcceptNothing(s: State, t: Tid, o: Oracle)
    requires t in s.threads && IsKeyCheck(s.threads[t])
    ensures SameLogouts(s, KeyStep(s, t, o))
  {
  }

  lemma OnlyLogoutsAccept(c: Config, s: State, e: Event)
    requires Enabled(c, s, e) && !(e.Go? && s.threads[e.t].Judged?)
    ensures SameLogouts(s, Apply(c, s, e))
  {
    if e.Go? {
      if IsSignIn(s.threads[e.t]) {
        SignInsAcceptNothing(c, s, e.t, e.oracle);
      } else if IsCheck(s.threads[e.t]) {
        ChecksAcceptNothing(c, s, e.t, e.oracle);
      } else {
        assert IsKeyCheck(s.threads[e.t]);
        KeyChecksAcceptNothing(s, e.t, e.oracle);
      }
    }
  }

  lemma {:induction false} AlwaysAcceptancesOk(c: Config, start: int, es: seq<Event>)
    requires Possible(c, start, es) && c.patience < 240
    ensures AcceptancesOk(After(c, start, es))
  {
    if es != [] {
      AlwaysInv(c, start, es[..|es| - 1]);
      AlwaysAcceptancesOk(c, start, es[..|es| - 1]);
      StepKeepsAcceptances(c, After(c, start, es[..|es| - 1]), es[|es| - 1]);
    }
  }

  // ---------- what an accepted logout does ----------

  /** The n-th event accepts a logout token. */
  ghost predicate AcceptsAt(c: Config, start: int, es: seq<Event>, n: nat)
    requires Possible(c, start, es) && n < |es|
  {
    AtPoint(c, start, es, n + 1).accepted != AtPoint(c, start, es, n).accepted
  }

  lemma AcceptingStep(c: Config, start: int, es: seq<Event>, n: nat)
    requires Possible(c, start, es) && n < |es| && AcceptsAt(c, start, es, n)
    ensures var s := AtPoint(c, start, es, n);
            && Inv(s) && es[n].Go? && es[n].t in s.threads && s.threads[es[n].t].Judged?
            && Fresh(s.threads[es[n].t].token, s.threads[es[n].t].reading) && s.threads[es[n].t].reading <= s.now
            && AtPoint(c, start, es, n + 1) == LogoutStep(s, es[n].t)
  {
    NextPoint(c, start, es, n);
    PrefixIsPossible(c, start, es, n);
    AlwaysInv(c, start, es[..n]);
    var s := AtPoint(c, start, es, n);
    if !(es[n].Go? && s.threads[es[n].t].Judged?) {
      OnlyLogoutsAccept(c, s, es[n]);
    }
    assert PcOk(s, s.threads[es[n].t]);
  }

  /** A token is accepted only when its signature, audience and issuer were verified, it carries the logout event and
      no nonce, has an id, was issued in the five minutes before or the minute after, has not expired, and names a
      subject or a provider session; and its acceptance is recorded with the clock reading it was judged by. */
  lemma AcceptedTokensAreSound(c: Config, start: int, es: seq<Event>, n: nat)
    requires Possible(c, start, es) && n < |es| && AcceptsAt(c, start, es, n)
    ensures var s, s' := AtPoint(c, start, es, n), AtPoint(c, start, es, n + 1);
            && |s'.accepted| == |s.accepted| + 1 && s'.accepted[..|s.accepted|] == s.accepted
            && var Acceptance(k, reading) := s'.accepted[|s.accepted|];
            && reading <= s.now && k.verified && k.hasEvent && !k.hasNonce && k.jti != ""
            && 0 < k.iat && reading - 5 * 60 <= k.iat <= reading + 60
            && (exists exp :: k.exp == Some(exp) && reading < exp) && (k.subject == "" ==> k.sid != "")
  {
    AcceptingStep(c, start, es, n);
  }

  /** The row is of the subject and of the provider session the token names, as far as it names them. */
  predicate Names(k: LogoutToken, row: SessionRow) {
    && (k.subject != "" ==> row.subject == k.subject)
    && (k.sid != "" ==> row.sid == k.sid)
  }

  /** Right after an accepted logout no session is left of the subject and the provider session that its token
      names, and every other session is there as it was. */
  lemma LogoutEndsWhatItNames(c: Config, start: int, es: seq<Event>, n: nat, id: string)
    requires Possible(c, start, es) && n < |es| && AcceptsAt(c, start, es, n)
    ensures var s, s' := AtPoint(c, start, es, n), AtPoint(c, start, es, n + 1);
            && s'.accepted != []
            && var k := s'.accepted[|s'.accepted| - 1].token;
            && (id in s'.sessions <==> id in s.sessions && !Names(k, s.sessions[id]))
            && (id in s'.sessions ==> s'.sessions[id] == s.sessions[id])
  {
    AcceptingStep(c, start, es, n);
  }

  /** And nobody ever signs in with a session it named, though checks of it were under way. */
  lemma LoggedOutNeverSignsIn(c: Config, start: int, es: seq<Event>, n: nat, m: nat, t: Tid, id: string)
    requires Possible(c, start, es) && n < m < |es| && AcceptsAt(c, start, es, n)
    requires AtPoint(c, start, es, n + 1).accepted != []
    requires var s, accepted := AtPoint(c, start, es, n), AtPoint(c, start, es, n + 1).accepted;
             id in s.sessions && Names(accepted[|accepted| - 1].token, s.sessions[id])
    ensures SucceedsAt(c, start, es, m, t) ==> AtPoint(c, start, es, m + 1).threads[t].proof.sessionId != id
  {
    LogoutEndsWhatItNames(c, start, es, n, id);
    AcceptingStep(c, start, es, n);
    LogoutTellsNoBirths(AtPoint(c, start, es, n), es[n].t);
    DeletedSessionNeverSignsIn(c, start, es, n + 1, m, t, id);
  }

  lemma LogoutTellsNoBirths(s: State, t: Tid)
    requires t in s.threads && s.threads[t].Judged?
    ensures LogoutStep(s, t).births == s.births
  {
  }

  /** Every sound token comes before the table, by the clock reading of its arrival, and no other. */
  lemma SoundTokensAreJudged(c: Config, start: int, es: seq<Event>, n: nat)
    requires Possible(c, start, es) && n < |es| && es[n].LogoutRequest?
    ensures var now, k := AtPoint(c, start, es, n).now, es[n].token;
            && es[n].t in AtPoint(c, start, es, n + 1).threads
            && AtPoint(c, start, es, n + 1).threads[es[n].t]
               == if && k.verified && k.hasEvent && !k.hasNonce && k.jti != ""
                     && 0 < k.iat && now - 5 * 60 <= k.iat <= now + 60
                     && (exists exp :: k.exp == Some(exp) && now < exp) && (k.subject == "" ==> k.sid != "")
                  then Judged(k, now) else Refused
  {
    NextPoint(c, start, es, n);
  }

  /** There it is accepted unless its id is still stored. */
  lemma JudgedTokensAreAccepted(c: Config, start: int, es: seq<Event>, n: nat, t: Tid)
    requires Possible(c, start, es) && n < |es| && es[n].Go? && es[n].t == t
    requires t in AtPoint(c, start, es, n).threads && AtPoint(c, start, es, n).threads[t].Judged?
    ensures var s := AtPoint(c, start, es, n);
            var Judged(k, reading) := s.threads[t];
            AcceptsAt(c, start, es, n) <==> !(k.jti in s.jtis && reading < s.jtis[k.jti])
  {
    NextPoint(c, start, es, n);
  }

  // ---------- the bound is exact ----------

  ghost predicate Reaches(c: Config, start: int, s: State) {
    exists es :: Possible(c, start, es) && After(c, start, es) == s
  }

  lemma ReachesOn(c: Config, start: int, s: State, e: Event) returns (s': State)
    requires Reaches(c, start, s) && Enabled(c, s, e)
    ensures s' == Apply(c, s, e) && Reaches(c, start, s')
  {
    s' := Apply(c, s, e);
    var es :| Possible(c, start, es) && After(c, start, es) == s;
    assert (es + [e])[..|es + [e]| - 1] == es;
    assert Possible(c, start, es + [e]) && After(c, start, es + [e]) == s';
  }

  function Token(jti: string, iat: int): LogoutToken {
    LogoutToken(true, "user", "", jti, iat, Some(10000), false, true)
  }

  const NOTHING := Oracle("", 0, Unreachable)

  lemma ReachesJudged(c: Config, s: State, t: Tid, k: LogoutToken) returns (u: State)
    requires Reaches(c, 300, s) && t !in s.threads && Fresh(k, s.now)
    ensures Reaches(c, 300, u) && u == s.(threads := s.threads[t := Judged(k, s.now)])
  {
    u := ReachesOn(c, 300, s, LogoutRequest(t, k));
  }

  lemma ReachesAccepted(c: Config, s: State, t: Tid, k: LogoutToken, reading: int) returns (u: State)
    requires Reaches(c, 300, s) && t in s.threads && s.threads[t] == Judged(k, reading)
    requires s.now <= reading + c.patience && k.jti !in Purged(s.jtis, reading) && s.sessions == map[]
    ensures Reaches(c, 300, u)
    ensures u == s.(jtis := Purged(s.jtis, reading)[k.jti := reading + 600],
                    accepted := s.accepted + [Acceptance(k, reading)],
                    threads := s.threads[t := Finished])
  {
    u := ReachesOn(c, 300, s, Go(t, NOTHING));
    assert u.sessions == map[];
  }

  lemma ReachesTick(c: Config, s: State, n: nat) returns (u: State)
    requires Reaches(c, 300, s)
    ensures Reaches(c, 300, u) && u == s.(now := s.now + n)
  {
    u := ReachesOn(c, 300, s, Tick(n));
  }

  /** The token used at 300, read again at 660 while still fresh, and not yet judged by the table. */
  lemma ReadAgain(c: Config, a: LogoutToken) returns (u: State)
    requires c.patience >= 0 && a == Token("a", 360)
    ensures Reaches(c, 300, u) && u.now == 660 && u.sessions == map[] && u.jtis == map["a" := 900]
    ensures u.threads.Keys == {0, 1} && u.threads[1] == Judged(a, 660) && u.accepted == [Acceptance(a, 300)]
  {
    u := Init(300);
    assert Possible(c, 300, []) && After(c, 300, []) == u;
    u := ReachesJudged(c, u, 0, a);
    u := ReachesAccepted(c, u, 0, a, 300);
    u := ReachesTick(c, u, 360);
    u := ReachesJudged(c, u, 1, a);
  }

  /** Another token's purge, 240 seconds later, makes the table forget the first. */
  lemma Forgotten(c: Config, a: LogoutToken) returns (u: State)
    requires c.patience >= 0 && a == Token("a", 360)
    ensures Reaches(c, 300, u) && u.now == 900 && u.sessions == map[] && u.jtis == map["b" := 1500]
    ensures 1 in u.threads && u.threads[1] == Judged(a, 660) && |u.accepted| == 2 && u.accepted[0] == Acceptance(a, 300)
  {
    u := ReadAgain(c, a);
    u := ReachesTick(c, u, 240);
    u := ReachesJudged(c, u, 2, Token("b", 900));
    assert Purged(u.jtis, 900) == map[];
    u := ReachesAccepted(c, u, 2, Token("b", 900), 900);
  }

  /** Used at 300; read again as still fresh at 660; forgotten by a purge at 900; committed again. */
  lemma ReplayAt240(c: Config) returns (u: State)
    requires c.patience >= 240
    ensures Reaches(c, 300, u) && !NoReplay(u)
  {
    var a := Token("a", 360);
    u := Forgotten(c, a);
    assert "a" !in Purged(u.jtis, 660);
    u := ReachesAccepted(c, u, 1, a, 660);
    assert u.accepted[0].token == u.accepted[2].token;
  }

  /** No run of any length accepts a logout token twice, exactly when commits follow their clock reading
      within 240 seconds; the program's deadline is five. */
  lemma NoReplayExactlyWithinDeadline(c: Config)
    ensures (forall start, s :: Reaches(c, start, s) ==> NoReplay(s)) <==> c.patience < 240
  {
    if c.patience < 240 {
      forall start, s | Reaches(c, start, s) ensures NoReplay(s) {
        var es :| Possible(c, start, es) && After(c, start, es) == s;
        AlwaysAcceptancesOk(c, start, es);
      }
    } else {
      var u := ReplayAt240(c);
      assert Reaches(c, 300, u) && !NoReplay(u);
    }
  }
}
