/** Every step of concurrent rotation and revocation keeps the chains, and what follows for every run. */
module SessionSafety {
  import opened Outcomes
  import opened Domain
  import opened Sessions

  // ----- a call moves, the tables do not -----

  lemma CallMoves(tokens: map<ID, Token>, revoked: set<ID>, calls: map<CallId, Call>, c: CallId, call: Call)
    requires CallsSound(tokens, revoked, calls) && Apart(calls) && CallSound(tokens, revoked, call)
    requires forall d :: d in calls && d != c ==> Separate(call, calls[d]) && Separate(calls[d], call)
    ensures CallsSound(tokens, revoked, calls[c := call]) && Apart(calls[c := call])
  {
  }

  /** A call that draws nothing new and takes no row stays apart from the others. */
  lemma CallSettles(s: State, c: CallId, pc: Pc)
    requires Inv(s) && c in s.calls && CallSound(s.tokens, RevokedIn(s.sessions), s.calls[c].(pc := pc))
    requires !pc.Marked? && (Successor(pc).Some? ==> Successor(pc) == Successor(s.calls[c].pc))
    ensures Inv(s.(calls := To(s, c, pc)))
  {
  }

  lemma StartKeeps(s: State, c: CallId, request: Request)
    requires Inv(s) && c !in s.calls
    ensures Inv(s.(calls := s.calls[c := Begun(s, request)]))
  {
  }

  /** A successor nobody holds and nobody else has drawn. */
  lemma InsertKeeps(s: State, c: CallId, next: ID)
    requires Inv(s) && Enabled(s, Insert(c, next))
    ensures Inv(s.(calls := To(s, c, Inserted(s.calls[c].pc.session, next))))
  {
    var call := s.calls[c].(pc := Inserted(s.calls[c].pc.session, next));
    assert CallSound(s.tokens, RevokedIn(s.sessions), s.calls[c]);
    forall d | d in s.calls && d != c ensures Separate(call, s.calls[d]) && Separate(s.calls[d], call) {
      assert CallSound(s.tokens, RevokedIn(s.sessions), s.calls[d]) && !Draws(s.calls[d], next);
    }
    CallMoves(s.tokens, RevokedIn(s.sessions), s.calls, c, call);
  }

  /** Whoever marks the token holds its row alone; whoever finds it used goes on to revoke. */
  lemma MarkKeeps(s: State, c: CallId)
    requires Inv(s) && Enabled(s, Mark(c))
    ensures Inv(s.(calls := To(s, c, MarkedAs(s, c))))
  {
    var call := s.calls[c].(pc := MarkedAs(s, c));
    assert CallSound(s.tokens, RevokedIn(s.sessions), s.calls[c]);
    forall d | d in s.calls && d != c ensures Separate(call, s.calls[d]) && Separate(s.calls[d], call) {
      assert Separate(s.calls[c], s.calls[d]) && Separate(s.calls[d], s.calls[c]);
    }
    CallMoves(s.tokens, RevokedIn(s.sessions), s.calls, c, call);
  }

  // ----- sessions are revoked -----

  /** after is before with some sessions revoked that were not. */
  predicate Revokes(before: map<ID, Session>, after: map<ID, Session>) {
    && after.Keys == before.Keys
    && forall i :: i in before && before[i].revoked.Some? ==> after[i].revoked.Some?
  }

  lemma RevocationKeeps(s: State, sessions: map<ID, Session>)
    requires Inv(s) && Revokes(s.sessions, sessions)
    ensures Inv(s.(sessions := sessions))
  {
    var revoked, more := RevokedIn(s.sessions), RevokedIn(sessions);
    assert revoked <= more;
    forall d | d in s.calls ensures CallSound(s.tokens, more, s.calls[d]) {
      MoreRevoked(s.tokens, revoked, more, s.calls[d]);
    }
  }

  lemma MoreRevoked(tokens: map<ID, Token>, revoked: set<ID>, more: set<ID>, call: Call)
    requires CallSound(tokens, revoked, call) && revoked <= more
    ensures CallSound(tokens, more, call)
  {
  }

  lemma WithdrawKeeps(s: State, c: CallId, ok: bool)
    requires Inv(s) && Enabled(s, Withdraw(c, ok))
    ensures Inv(s.(sessions := Withdrawing(s, c, ok), calls := To(s, c, AfterWithdrawal(s.calls[c], ok))))
  {
    var call, sessions := s.calls[c], Withdrawing(s, c, ok);
    assert CallSound(s.tokens, RevokedIn(s.sessions), call);
    RevocationKeeps(s, sessions);
    MoreRevoked(s.tokens, RevokedIn(s.sessions), RevokedIn(sessions), call);
    WithdrawalNoted(s, c, ok);
    WithdrawalSound(s.tokens, RevokedIn(sessions), call, ok);
    CallSettles(s.(sessions := sessions), c, AfterWithdrawal(call, ok));
  }

  /** A successful withdrawal finds its session revoked afterwards. */
  lemma WithdrawalNoted(s: State, c: CallId, ok: bool)
    requires Inv(s) && Enabled(s, Withdraw(c, ok))
    ensures var call := s.calls[c];
      ok && call.request.Refresh? ==> call.pc.session in RevokedIn(Withdrawing(s, c, ok))
  {
    assert CallSound(s.tokens, RevokedIn(s.sessions), s.calls[c]);
  }

  lemma WithdrawalSound(tokens: map<ID, Token>, revoked: set<ID>, call: Call, ok: bool)
    requires CallSound(tokens, revoked, call) && call.pc.Revoking?
    requires ok && call.request.Refresh? ==> call.pc.session in revoked
    ensures CallSound(tokens, revoked, call.(pc := AfterWithdrawal(call, ok)))
    ensures !AfterWithdrawal(call, ok).Marked? && Successor(AfterWithdrawal(call, ok)).None?
  {
  }

  // ----- rotation commits -----

  /** The unused token of a session is the last of its chain. */
  lemma UnusedIsLast(s: State, t: ID)
    requires ChainsSound(s.sessions.Keys, s.tokens, s.chains) && t in s.tokens && s.tokens[t].used.None?
    ensures var session := s.tokens[t].session;
      session in s.chains && s.chains[session] != [] && s.chains[session][|s.chains[session]| - 1] == t
    ensures s.tokens[t].replacedBy.None?
  {
    var session := s.tokens[t].session;
    assert ChainSound(s.tokens, session, s.chains[session]);
    var i :| 0 <= i < |s.chains[session]| && s.chains[session][i] == t;
    assert i == |s.chains[session]| - 1 || Exchanged(s.tokens[t], s.chains[session][i + 1]);
  }

  /** The exchanged token's chain grows by its successor; every other chain is untouched. */
  lemma RotatedChain(tokens: map<ID, Token>, i: ID, chain: seq<ID>, t: ID, next: ID, at: Time, expires: Time)
    requires t in tokens && next !in tokens && ChainSound(tokens, i, chain)
    requires i == tokens[t].session ==> chain[|chain| - 1] == t
    ensures ChainSound(Rotate(tokens, t, next, at, expires), i, if i == tokens[t].session then chain + [next] else chain)
  {
  }

  lemma RotatedSessions(sessions: set<ID>, tokens: map<ID, Token>, t: ID, next: ID, at: Time, expires: Time)
    requires t in tokens && next !in tokens && forall x :: x in tokens ==> tokens[x].session in sessions
    ensures var after := Rotate(tokens, t, next, at, expires); forall x :: x in after ==> after[x].session in sessions
  {
  }

  /** The chains after session's token t is exchanged for next. */
  function Extended(chains: map<ID, seq<ID>>, session: ID, next: ID): map<ID, seq<ID>>
    requires session in chains
  {
    chains[session := chains[session] + [next]]
  }

  lemma RotatedAt(tokens: map<ID, Token>, chains: map<ID, seq<ID>>, session: ID, t: ID, next: ID, at: Time, expires: Time, i: ID)
    requires t in tokens && next !in tokens && tokens[t].session == session && session in chains && i in chains
    requires chains[session] != [] && chains[session][|chains[session]| - 1] == t && ChainSound(tokens, i, chains[i])
    ensures ChainSound(Rotate(tokens, t, next, at, expires), i, Extended(chains, session, next)[i])
  {
    RotatedChain(tokens, i, chains[i], t, next, at, expires);
  }

  lemma RotatedChains(sessions: set<ID>, tokens: map<ID, Token>, chains: map<ID, seq<ID>>, session: ID, t: ID, next: ID,
                      at: Time, expires: Time, after: map<ID, Token>, longer: map<ID, seq<ID>>)
    requires ChainsSound(sessions, tokens, chains) && t in tokens && next !in tokens && tokens[t].session == session
    requires session in chains && chains[session] != [] && chains[session][|chains[session]| - 1] == t
    requires after == Rotate(tokens, t, next, at, expires) && longer == Extended(chains, session, next)
    ensures ChainsSound(sessions, after, longer)
  {
    assert longer.Keys == chains.Keys;
    RotatedSessions(sessions, tokens, t, next, at, expires);
    forall i | i in longer ensures ChainSound(after, i, longer[i]) {
      RotatedAt(tokens, chains, session, t, next, at, expires, i);
    }
  }

  /** Every call outlives a commit. */
  lemma CommitCalls(tokens: map<ID, Token>, revoked: set<ID>, calls: map<CallId, Call>, c: CallId, expires: Time)
    requires CallsSound(tokens, revoked, calls) && Apart(calls) && c in calls
    requires calls[c].pc.Marked? && calls[c].request.Refresh?
    requires calls[c].request.token in tokens && tokens[calls[c].request.token].replacedBy.None?
    ensures var call := calls[c];
      var calls' := calls[c := call.(pc := Done(Rotated(call.pc.next)))];
      CallsSound(Rotate(tokens, call.request.token, call.pc.next, call.now, expires), revoked, calls') && Apart(calls')
  {
  }

  lemma CommitKeeps(s: State, c: CallId)
    requires Inv(s) && Enabled(s, Commit(c))
    ensures Inv(Committed(s, c))
  {
    var call := s.calls[c];
    var expires := call.now + s.config.refreshTTL;
    assert CallSound(s.tokens, RevokedIn(s.sessions), call);
    UnusedIsLast(s, call.request.token);
    RotatedChains(s.sessions.Keys, s.tokens, s.chains, call.pc.session, call.request.token, call.pc.next, call.now, expires,
                  Committed(s, c).tokens, Committed(s, c).chains);
    CommitCalls(s.tokens, RevokedIn(s.sessions), s.calls, c, expires);
  }

  // ----- a session opens -----

  lemma OpenedChain(tokens: map<ID, Token>, i: ID, chain: seq<ID>, session: ID, token: ID, expires: Time)
    requires ChainSound(tokens, i, chain) && i != session && token !in tokens
    ensures ChainSound(tokens[token := Token(session, expires, None, None)], i, chain)
  {
  }

  lemma NewChain(tokens: map<ID, Token>, session: ID, token: ID, expires: Time)
    requires token !in tokens && forall t :: t in tokens ==> tokens[t].session != session
    ensures ChainSound(tokens[token := Token(session, expires, None, None)], session, [token])
  {
  }

  lemma OutlivesOpen(tokens: map<ID, Token>, revoked: set<ID>, call: Call, token: ID, t: Token)
    requires CallSound(tokens, revoked, call) && token !in tokens && !Draws(call, token)
    ensures CallSound(tokens[token := t], revoked, call)
  {
  }

  lemma OpenedChains(sessions: set<ID>, tokens: map<ID, Token>, chains: map<ID, seq<ID>>, session: ID, token: ID, expires: Time)
    requires ChainsSound(sessions, tokens, chains) && session !in sessions && token !in tokens
    ensures ChainsSound(sessions + {session}, tokens[token := Token(session, expires, None, None)],
                        chains[session := [token]])
  {
    var longer := chains[session := [token]];
    forall i | i in longer ensures ChainSound(tokens[token := Token(session, expires, None, None)], i, longer[i]) {
      if i == session {
        NewChain(tokens, session, token, expires);
      } else {
        OpenedChain(tokens, i, chains[i], session, token, expires);
      }
    }
  }

  lemma OpenedCalls(tokens: map<ID, Token>, revoked: set<ID>, calls: map<CallId, Call>, token: ID, t: Token)
    requires CallsSound(tokens, revoked, calls) && token !in tokens && forall d :: d in calls ==> !Draws(calls[d], token)
    ensures CallsSound(tokens[token := t], revoked, calls)
  {
    forall d | d in calls ensures CallSound(tokens[token := t], revoked, calls[d]) {
      OutlivesOpen(tokens, revoked, calls[d], token, t);
    }
  }

  lemma OpenedUnrevoked(sessions: map<ID, Session>, session: ID, user: ID, expires: Time)
    requires session !in sessions
    ensures var more := sessions[session := Session(user, expires, None)];
      more.Keys == sessions.Keys + {session} && RevokedIn(more) == RevokedIn(sessions)
  {
  }

  lemma PartsAreSound(s: State, keys: set<ID>, revoked: set<ID>)
    requires keys == s.sessions.Keys && revoked == RevokedIn(s.sessions)
    requires ChainsSound(keys, s.tokens, s.chains) && CallsSound(s.tokens, revoked, s.calls) && Apart(s.calls)
    ensures Inv(s)
  {
  }

  lemma OpenedParts(s: State, user: ID, session: ID, token: ID, now: Time)
    ensures var s' := WithSession(s, user, session, token, now);
      && s'.tokens == s.tokens[token := Token(session, now + s.config.refreshTTL, None, None)]
      && s'.chains == s.chains[session := [token]] && s'.calls == s.calls
      && (session !in s.sessions ==>
            s'.sessions.Keys == s.sessions.Keys + {session} && RevokedIn(s'.sessions) == RevokedIn(s.sessions))
  {
    if session !in s.sessions {
      OpenedUnrevoked(s.sessions, session, user, now + s.config.sessionTTL);
    }
  }

  lemma OpenKeepsCalls(s: State, token: ID, t: Token)
    requires CallsSound(s.tokens, RevokedIn(s.sessions), s.calls) && Fresh(s, token)
    ensures CallsSound(s.tokens[token := t], RevokedIn(s.sessions), s.calls)
  {
    OpenedCalls(s.tokens, RevokedIn(s.sessions), s.calls, token, t);
  }

  lemma OpenKeeps(s: State, user: ID, session: ID, token: ID, now: Time)
    requires Inv(s) && session !in s.sessions && Fresh(s, token)
    ensures Inv(WithSession(s, user, session, token, now))
  {
    var t := Token(session, now + s.config.refreshTTL, None, None);
    OpenKeepsCalls(s, token, t);
    OpenedChains(s.sessions.Keys, s.tokens, s.chains, session, token, t.expires);
    OpenedParts(s, user, session, token, now);
    PartsAreSound(WithSession(s, user, session, token, now), s.sessions.Keys + {session}, RevokedIn(s.sessions));
  }

  lemma RevokeAllKeeps(s: State, c: CallId)
    requires Inv(s) && Enabled(s, Look(c)) && s.calls[c].request.RevokeAll?
    ensures Inv(Looked(s, c))
  {
    var call, sessions := s.calls[c], Looked(s, c).sessions;
    assert CallSound(s.tokens, RevokedIn(s.sessions), call);
    RevocationKeeps(s, sessions);
    MoreRevoked(s.tokens, RevokedIn(s.sessions), RevokedIn(sessions), call);
    CallSettles(s.(sessions := sessions), c, Done(Withdrawn));
  }

  lemma OpenedKeeps(s: State, c: CallId)
    requires Inv(s) && Enabled(s, Look(c)) && s.calls[c].request.Open?
    ensures Inv(Looked(s, c))
  {
    var call := s.calls[c];
    var request := call.request;
    assert CallSound(s.tokens, RevokedIn(s.sessions), call);
    OpenKeeps(s, request.user, request.session, request.token, call.now);
    LookingSettles(WithSession(s, request.user, request.session, request.token, call.now), c, Done(Opened));
  }

  lemma LookingSettles(s: State, c: CallId, pc: Pc)
    requires Inv(s) && c in s.calls && s.calls[c].pc.Looking? && pc == Done(Opened)
    ensures Inv(s.(calls := To(s, c, pc)))
  {
    assert CallSound(s.tokens, RevokedIn(s.sessions), s.calls[c]);
    CallSettles(s, c, pc);
  }

  lemma ReadKeeps(s: State, c: CallId)
    requires Inv(s) && Enabled(s, Look(c)) && !s.calls[c].request.RevokeAll? && !s.calls[c].request.Open?
    ensures Inv(Looked(s, c))
  {
    var pc := Looked(s, c).calls[c].pc;
    assert CallSound(s.tokens, RevokedIn(s.sessions), s.calls[c]);
    ReadSound(s, c, RevokedIn(s.sessions), pc);
    CallSettles(s, c, pc);
  }

  /** What a call reads of the tables is true of them. */
  lemma ReadSound(s: State, c: CallId, revoked: set<ID>, pc: Pc)
    requires Enabled(s, Look(c)) && !s.calls[c].request.RevokeAll? && !s.calls[c].request.Open?
    requires CallSound(s.tokens, revoked, s.calls[c]) && revoked == RevokedIn(s.sessions)
    requires pc == Looked(s, c).calls[c].pc
    ensures CallSound(s.tokens, revoked, s.calls[c].(pc := pc))
    ensures !pc.Marked? && Successor(pc).None?
  {
  }

  lemma LookKeeps(s: State, c: CallId)
    requires Inv(s) && Enabled(s, Look(c))
    ensures Inv(Looked(s, c))
  {
    if s.calls[c].request.RevokeAll? {
      RevokeAllKeeps(s, c);
    } else if s.calls[c].request.Open? {
      OpenedKeeps(s, c);
    } else {
      ReadKeeps(s, c);
    }
  }

  lemma TakeKeeps(s: State, a: Action)
    requires Inv(s) && Enabled(s, a)
    ensures Inv(Take(s, a))
  {
    match a
    case Tick(clock) =>
    case Start(c, request) => StartKeeps(s, c, request);
    case Look(c) => LookKeeps(s, c);
    case Check(c) =>
      assert CallSound(s.tokens, RevokedIn(s.sessions), s.calls[c]);
      CallSettles(s, c, Checked(s, c));
    case Insert(c, next) => InsertKeeps(s, c, next);
    case Mark(c) => MarkKeeps(s, c);
    case Commit(c) => CommitKeeps(s, c);
    case Withdraw(c, ok) => WithdrawKeeps(s, c, ok);
    case Abort(c) =>
      assert CallSound(s.tokens, RevokedIn(s.sessions), s.calls[c]);
      CallSettles(s, c, Done(Failed));
  }

  lemma {:induction false} EveryRun(config: Config, actions: seq<Action>)
    ensures Inv(Run(config, actions))
  {
    if actions != [] {
      EveryRun(config, actions[..|actions| - 1]);
      var s, a := Run(config, actions[..|actions| - 1]), actions[|actions| - 1];
      if Enabled(s, a) {
        TakeKeeps(s, a);
      }
    }
  }

  // ----- theorems over every run -----

  /** In every reachable state the tokens of a session form one chain without repetition, each exchanged for the next, and
      end in the session's only unused token. */
  lemma OneChain(config: Config, actions: seq<Action>, session: ID)
    requires session in Run(config, actions).sessions
    ensures var s := Run(config, actions); session in s.chains && ChainSound(s.tokens, session, s.chains[session])
    ensures var s := Run(config, actions); var chain := s.chains[session];
      forall t :: t in s.tokens && s.tokens[t].session == session && s.tokens[t].used.None? ==> t == chain[|chain| - 1]
  {
    EveryRun(config, actions);
    var s := Run(config, actions);
    forall t | t in s.tokens && s.tokens[t].session == session && s.tokens[t].used.None?
      ensures t == s.chains[session][|s.chains[session]| - 1]
    {
      UnusedIsLast(s, t);
    }
  }

  /** However many calls present a token, at most one of them is given a successor. */
  lemma ExchangedOnce(config: Config, actions: seq<Action>, c: CallId, d: CallId, x: ID, y: ID)
    requires var calls := Run(config, actions).calls;
      && c in calls && d in calls && calls[c].request.Refresh? && calls[c].request == calls[d].request
      && calls[c].pc == Done(Rotated(x)) && calls[d].pc == Done(Rotated(y))
    ensures c == d && x == y
  {
    EveryRun(config, actions);
    var s := Run(config, actions);
    assert CallSound(s.tokens, RevokedIn(s.sessions), s.calls[c]) && CallSound(s.tokens, RevokedIn(s.sessions), s.calls[d]);
    assert c == d || Separate(s.calls[c], s.calls[d]);
  }

  /** A call answered with reuse leaves the token's session revoked when its revoking write succeeded. */
  lemma ReuseRevokes(config: Config, actions: seq<Action>, c: CallId)
    requires var calls := Run(config, actions).calls; c in calls && calls[c].pc == Done(Consumed(true))
    ensures var s := Run(config, actions);
      && s.calls[c].request.Refresh? && s.calls[c].request.token in s.tokens
      && s.tokens[s.calls[c].request.token].session in RevokedIn(s.sessions)
  {
    EveryRun(config, actions);
    var s := Run(config, actions);
    assert CallSound(s.tokens, RevokedIn(s.sessions), s.calls[c]);
  }

  lemma RevocationStands(s: State, a: Action, session: ID)
    requires Enabled(s, a) && session in s.sessions && s.sessions[session].revoked.Some?
    ensures session in Take(s, a).sessions && Take(s, a).sessions[session].revoked == s.sessions[session].revoked
  {
  }

  /** A revocation is permanent, and keeps its first time and reason. */
  lemma {:induction false} RevocationIsPermanent(config: Config, actions: seq<Action>, more: seq<Action>, session: ID)
    requires session in Run(config, actions).sessions && Run(config, actions).sessions[session].revoked.Some?
    ensures session in Run(config, actions + more).sessions
    ensures Run(config, actions + more).sessions[session].revoked == Run(config, actions).sessions[session].revoked
  {
    if more == [] {
      assert actions + more == actions;
    } else {
      var front, a := more[..|more| - 1], more[|more| - 1];
      RevocationIsPermanent(config, actions, front, session);
      assert (actions + more)[..|actions + more| - 1] == actions + front;
      if Enabled(Run(config, actions + front), a) {
        RevocationStands(Run(config, actions + front), a, session);
      }
    }
  }

  /** The call is still there, and what it asked and found revoked when it started has not changed. */
  predicate SameCall(s: State, later: State, c: CallId) {
    && c in s.calls && c in later.calls
    && later.calls[c].before == s.calls[c].before && later.calls[c].request == s.calls[c].request
  }

  lemma TakeKeepsCall(s: State, a: Action, c: CallId)
    requires Enabled(s, a) && c in s.calls
    ensures SameCall(s, Take(s, a), c)
  {
  }

  lemma RunSnoc(config: Config, actions: seq<Action>, a: Action)
    ensures Run(config, actions + [a]) == if Enabled(Run(config, actions), a) then Take(Run(config, actions), a) else Run(config, actions)
  {
  }

  lemma {:induction false} CallStays(config: Config, actions: seq<Action>, more: seq<Action>, c: CallId)
    requires c in Run(config, actions).calls
    ensures SameCall(Run(config, actions), Run(config, actions + more), c)
  {
    if more == [] {
      assert actions + more == actions;
    } else {
      var front, a := more[..|more| - 1], more[|more| - 1];
      CallStays(config, actions, front, c);
      assert actions + more == (actions + front) + [a];
      RunSnoc(config, actions + front, a);
      if Enabled(Run(config, actions + front), a) {
        TakeKeepsCall(Run(config, actions + front), a, c);
      }
    }
  }

  /** A Refresh or Authenticate that starts after a session was revoked never succeeds for it, whatever runs beside it. */
  lemma RevokedStaysOut(config: Config, actions: seq<Action>, c: CallId, request: Request, more: seq<Action>, session: ID)
    requires session in RevokedIn(Run(config, actions).sessions) && c !in Run(config, actions).calls && Enabled(Run(config, actions), Start(c, request))
    ensures var s := Run(config, actions + [Start(c, request)] + more);
      && c in s.calls && s.calls[c].request == request
      && (request.Refresh? && s.calls[c].pc.Done? && s.calls[c].pc.outcome.Rotated? ==>
            request.token in s.tokens && s.tokens[request.token].session != session)
      && (request.Authenticate? && request.session == session ==> s.calls[c].pc != Done(Authenticated))
  {
    var started := actions + [Start(c, request)];
    assert started[..|actions|] == actions;
    CallStays(config, started, more, c);
    EveryRun(config, started + more);
    var s := Run(config, started + more);
    assert CallSound(s.tokens, RevokedIn(s.sessions), s.calls[c]);
    NotThatSession(s.tokens, RevokedIn(s.sessions), s.calls[c], session);
  }

  lemma NotThatSession(tokens: map<ID, Token>, revoked: set<ID>, call: Call, session: ID)
    requires CallSound(tokens, revoked, call) && session in call.before
    ensures call.request.Refresh? && call.pc.Done? && call.pc.outcome.Rotated? ==>
      call.request.token in tokens && tokens[call.request.token].session != session
    ensures call.request.Authenticate? && call.request.session == session ==> call.pc != Done(Authenticated)
  {
  }
}
