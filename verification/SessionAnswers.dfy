/** What each answer of the authentication service means, in every interleaving, and which answer a call gets that nobody
    interferes with: expiry, ownership and revocation (internal/service/auth.go Refresh, Logout, RevokeSession,
    Authenticate). */
module SessionAnswers {
  import opened Outcomes
  import opened Domain
  import opened Sessions
  import opened SessionSafety

  // ----- what an answer says -----

  /** The token belongs to the session. */
  predicate Belongs(s: State, token: ID, session: ID) {
    token in s.tokens && s.tokens[token].session == session
  }

  /** The session is there and had not run out, whether or not it was revoked. */
  predicate Unexpired(s: State, session: ID, now: Time) {
    session in s.sessions && now < s.sessions[session].expires
  }

  predicate IsRevoked(s: State, session: ID) {
    session in s.sessions && s.sessions[session].revoked.Some?
  }

  predicate Owns(s: State, user: ID, session: ID) {
    session in s.sessions && s.sessions[session].user == user
  }

  /** A refresh that has not been refused yet: its token had not run out when it started. */
  predicate TokenInTime(s: State, call: Call, session: ID) {
    && call.request.Refresh? && Belongs(s, call.request.token, session)
    && call.now < s.tokens[call.request.token].expires
  }

  /** Why a call may revoke a session: a used token was presented, its holder logs out, its owner asks. */
  predicate MayRevoke(s: State, call: Call, session: ID, reason: Reason) {
    match call.request
    case Refresh(token) => reason == TokenReuse && Belongs(s, token, session) && s.tokens[token].used.Some?
    case Logout(token) => reason == UserLogout && Belongs(s, token, session)
    case Revoke(user, own) => reason == UserRequest && session == own && Owns(s, user, own)
    case _ => false
  }

  /** An exchange happens before the token and its session run out, and the successor lasts from then. */
  predicate RotatedTrue(s: State, call: Call, next: ID) {
    && call.request.Refresh? && call.request.token in s.tokens
    && var session := s.tokens[call.request.token].session;
       && TokenInTime(s, call, session) && Unexpired(s, session, call.now)
       && Belongs(s, next, session) && s.tokens[next].expires == call.now + s.config.refreshTTL
  }

  /** A token or a session is called invalid that was not there when the call started, or cannot be used. */
  predicate InvalidTrue(s: State, call: Call) {
    match call.request
    case Refresh(token) =>
      token !in call.knew
      || (token in s.tokens
          && (IsRevoked(s, s.tokens[token].session) || !Unexpired(s, s.tokens[token].session, call.now)))
    case Revoke(user, session) => session !in call.had || !Owns(s, user, session)
    case Authenticate(user, session) =>
      session !in call.had || !Owns(s, user, session) || IsRevoked(s, session) || !Unexpired(s, session, s.clock)
    case _ => false
  }

  predicate WithdrawnTrue(s: State, call: Call) {
    match call.request
    case Revoke(user, session) => Owns(s, user, session) && IsRevoked(s, session)
    case RevokeAll(user) => forall i :: i in call.had && Owns(s, user, i) ==> IsRevoked(s, i)
    case _ => false
  }

  predicate OpenedTrue(s: State, call: Call) {
    && call.request.Open? && Owns(s, call.request.user, call.request.session)
    && s.sessions[call.request.session].expires == call.now + s.config.sessionTTL
    && Belongs(s, call.request.token, call.request.session)
    && s.tokens[call.request.token].expires == call.now + s.config.refreshTTL
  }

  predicate TrueOutcome(s: State, call: Call, outcome: Outcome) {
    match outcome
    case Rotated(next) => RotatedTrue(s, call, next)
    case Expired =>
      call.request.Refresh? && call.request.token in s.tokens && call.now >= s.tokens[call.request.token].expires
    case Consumed(written) =>
      && call.request.Refresh? && call.request.token in s.tokens && s.tokens[call.request.token].used.Some?
      && (written ==> IsRevoked(s, s.tokens[call.request.token].session))
    case Invalid => InvalidTrue(s, call)
    case SignedOut =>
      && call.request.Logout?
      && (call.request.token in call.knew ==>
            call.request.token in s.tokens && IsRevoked(s, s.tokens[call.request.token].session))
    case Withdrawn => WithdrawnTrue(s, call)
    case Authenticated =>
      call.request.Authenticate? && Owns(s, call.request.user, call.request.session)
      && Unexpired(s, call.request.session, call.now)
    case Opened => OpenedTrue(s, call)
    case Failed => true
  }

  predicate TruePc(s: State, call: Call, pc: Pc) {
    match pc
    case Looking => true
    case Checking(session) => TokenInTime(s, call, session)
    case Rotating(session) => TokenInTime(s, call, session) && Unexpired(s, session, call.now)
    case Inserted(session, _) => TokenInTime(s, call, session) && Unexpired(s, session, call.now)
    case Marked(session, _) => TokenInTime(s, call, session) && Unexpired(s, session, call.now)
    case Revoking(session, reason) => MayRevoke(s, call, session, reason)
    case Done(outcome) => TrueOutcome(s, call, outcome)
  }

  /** What a call knows, and what it has answered, holds of the tables. */
  predicate TrueCall(s: State, call: Call) {
    && call.now <= s.clock && call.had <= s.sessions.Keys && call.knew <= s.tokens.Keys
    && TruePc(s, call, call.pc)
  }

  ghost predicate Truthful(s: State) {
    forall c :: c in s.calls ==> TrueCall(s, s.calls[c])
  }

  // ----- nothing that was said becomes false -----

  /** Sessions and tokens are only added, revoked and used; time only passes. */
  ghost predicate Later(s: State, s': State) {
    && s'.config == s.config && s.clock <= s'.clock
    && (forall i :: i in s.sessions ==>
          && i in s'.sessions && s'.sessions[i].user == s.sessions[i].user && s'.sessions[i].expires == s.sessions[i].expires
          && (s.sessions[i].revoked.Some? ==> s'.sessions[i].revoked.Some?))
    && (forall t :: t in s.tokens ==>
          && t in s'.tokens && s'.tokens[t].session == s.tokens[t].session && s'.tokens[t].expires == s.tokens[t].expires
          && (s.tokens[t].used.Some? ==> s'.tokens[t].used.Some?))
  }

  lemma RotateIsLater(tokens: map<ID, Token>, t: ID, next: ID, at: Time, expires: Time, x: ID)
    requires t in tokens && next !in tokens && x in tokens
    ensures var after := Rotate(tokens, t, next, at, expires);
      && x in after && after[x].session == tokens[x].session && after[x].expires == tokens[x].expires
      && (tokens[x].used.Some? ==> after[x].used.Some?)
  {
  }

  lemma RotationIsLater(s: State, c: CallId)
    requires Inv(s) && Enabled(s, Commit(c))
    ensures Later(s, Committed(s, c))
  {
    var call := s.calls[c];
    NextIsNew(s, c);
    forall x | x in s.tokens
      ensures var after := Committed(s, c).tokens;
        && x in after && after[x].session == s.tokens[x].session && after[x].expires == s.tokens[x].expires
        && (s.tokens[x].used.Some? ==> after[x].used.Some?)
    {
      RotateIsLater(s.tokens, call.request.token, call.pc.next, call.now, call.now + s.config.refreshTTL, x);
    }
  }

  lemma NextIsNew(s: State, c: CallId)
    requires Inv(s) && Enabled(s, Commit(c))
    ensures s.calls[c].pc.next !in s.tokens
  {
    assert CallSound(s.tokens, RevokedIn(s.sessions), s.calls[c]);
  }

  lemma LookIsLater(s: State, c: CallId)
    requires Enabled(s, Look(c))
    ensures Later(s, Looked(s, c))
  {
  }

  lemma OtherStepsAreLater(s: State, a: Action)
    requires Enabled(s, a) && !a.Commit? && !a.Look?
    ensures Later(s, Take(s, a))
  {
  }

  lemma TakeIsLater(s: State, a: Action)
    requires Inv(s) && Enabled(s, a)
    ensures Later(s, Take(s, a))
  {
    match a
    case Commit(c) => RotationIsLater(s, c);
    case Look(c) => LookIsLater(s, c);
    case _ => OtherStepsAreLater(s, a);
  }

  lemma OutcomeOutlives(s: State, s': State, call: Call, outcome: Outcome)
    requires Later(s, s') && TrueOutcome(s, call, outcome)
    requires call.had <= s.sessions.Keys && call.knew <= s.tokens.Keys
    requires outcome.Invalid? ==> TokensOwned(s)
    ensures TrueOutcome(s', call, outcome)
  {
  }

  /** Every token's session is there. */
  ghost predicate TokensOwned(s: State) {
    forall t :: t in s.tokens ==> s.tokens[t].session in s.sessions
  }

  lemma CallOutlives(s: State, s': State, call: Call)
    requires Later(s, s') && TokensOwned(s) && TrueCall(s, call)
    ensures TrueCall(s', call)
  {
    assert forall i :: i in s.sessions.Keys ==> i in s'.sessions.Keys;
    assert forall t :: t in s.tokens.Keys ==> t in s'.tokens.Keys;
    if call.pc.Done? {
      OutcomeOutlives(s, s', call, call.pc.outcome);
    }
  }

  lemma InvOwns(s: State)
    requires Inv(s)
    ensures TokensOwned(s)
  {
  }

  // ----- and each step says what is true -----

  /** Where calls stand is not part of what is said of the tables. */
  lemma OnlyCallsMoved(s: State, s': State, call: Call)
    requires s' == s.(calls := s'.calls)
    ensures TrueCall(s', call) == TrueCall(s, call)
  {
  }

  lemma ReadTrue(s: State, c: CallId)
    requires TokensOwned(s) && Enabled(s, Look(c)) && TrueCall(s, s.calls[c])
    requires !s.calls[c].request.RevokeAll? && !s.calls[c].request.Open?
    ensures Looked(s, c) == s.(calls := Looked(s, c).calls)
    ensures TruePc(s, s.calls[c], Looked(s, c).calls[c].pc)
  {
  }

  lemma AllWithdrawnTrue(s: State, c: CallId)
    requires Enabled(s, Look(c)) && TrueCall(s, s.calls[c]) && s.calls[c].request.RevokeAll?
    ensures TrueCall(Looked(s, c), Looked(s, c).calls[c])
  {
  }

  lemma SessionOpenedTrue(s: State, c: CallId)
    requires Enabled(s, Look(c)) && TrueCall(s, s.calls[c]) && s.calls[c].request.Open?
    ensures TrueCall(Looked(s, c), Looked(s, c).calls[c])
  {
  }

  lemma LookedTrue(s: State, c: CallId)
    requires TokensOwned(s) && Enabled(s, Look(c)) && TrueCall(s, s.calls[c])
    ensures TrueCall(Looked(s, c), Looked(s, c).calls[c])
  {
    if s.calls[c].request.RevokeAll? {
      AllWithdrawnTrue(s, c);
    } else if s.calls[c].request.Open? {
      SessionOpenedTrue(s, c);
    } else {
      ReadTrue(s, c);
      OnlyCallsMoved(s, Looked(s, c), Looked(s, c).calls[c]);
    }
  }

  lemma CheckedTrue(s: State, c: CallId)
    requires Enabled(s, Check(c)) && TrueCall(s, s.calls[c])
    ensures TruePc(s, s.calls[c], Checked(s, c))
  {
  }

  lemma MarkedTrue(s: State, c: CallId)
    requires Enabled(s, Mark(c)) && TrueCall(s, s.calls[c])
    ensures TruePc(s, s.calls[c], MarkedAs(s, c))
  {
  }

  lemma CommittedTrue(s: State, c: CallId)
    requires Inv(s) && Enabled(s, Commit(c)) && TrueCall(s, s.calls[c])
    ensures TrueCall(Committed(s, c), Committed(s, c).calls[c])
  {
    assert CallSound(s.tokens, RevokedIn(s.sessions), s.calls[c]);
  }

  lemma RevokedThen(s: State, c: CallId)
    requires TokensOwned(s) && Enabled(s, Withdraw(c, true)) && TrueCall(s, s.calls[c])
    ensures IsRevoked(Take(s, Withdraw(c, true)), s.calls[c].pc.session)
  {
  }

  lemma WithdrawalTrue(s: State, s': State, call: Call, ok: bool)
    requires Later(s, s') && TokensOwned(s) && TrueCall(s, call) && call.pc.Revoking?
    requires ok ==> IsRevoked(s', call.pc.session)
    ensures TrueOutcome(s', call, AfterWithdrawal(call, ok).outcome)
  {
  }

  lemma WithdrawnIsTrue(s: State, c: CallId, ok: bool)
    requires Inv(s) && Enabled(s, Withdraw(c, ok)) && TrueCall(s, s.calls[c])
    ensures var s' := Take(s, Withdraw(c, ok)); TrueCall(s', s'.calls[c])
  {
    InvOwns(s);
    TakeIsLater(s, Withdraw(c, ok));
    if ok {
      RevokedThen(s, c);
    }
    WithdrawalTrue(s, Take(s, Withdraw(c, ok)), s.calls[c], ok);
  }

  lemma ReadingTrue(s: State, a: Action, c: CallId)
    requires Enabled(s, a) && (a.Check? || a.Insert? || a.Mark? || a.Abort?) && a.c == c && TrueCall(s, s.calls[c])
    ensures TrueCall(Take(s, a), Take(s, a).calls[c])
  {
    if a.Check? {
      CheckedTrue(s, c);
    } else if a.Mark? {
      MarkedTrue(s, c);
    }
    OnlyCallsMoved(s, Take(s, a), Take(s, a).calls[c]);
  }

  lemma MovedTrue(s: State, a: Action, c: CallId)
    requires Inv(s) && Enabled(s, a) && !a.Tick? && !a.Start? && a.c == c && TrueCall(s, s.calls[c])
    ensures TrueCall(Take(s, a), Take(s, a).calls[c])
  {
    InvOwns(s);
    match a
    case Look(_) => LookedTrue(s, c);
    case Commit(_) => CommittedTrue(s, c);
    case Withdraw(_, ok) => WithdrawnIsTrue(s, c, ok);
    case _ => ReadingTrue(s, a, c);
  }

  lemma StartedTrue(s: State, c: CallId, request: Request)
    requires Enabled(s, Start(c, request))
    ensures TrueCall(Take(s, Start(c, request)), Begun(s, request))
  {
  }

  lemma OthersUnmoved(s: State, a: Action, c: CallId)
    requires Enabled(s, a) && c in Take(s, a).calls && (a.Tick? || a.c != c)
    ensures c in s.calls && Take(s, a).calls[c] == s.calls[c]
  {
  }

  lemma TakeTrue(s: State, a: Action, c: CallId)
    requires Inv(s) && Enabled(s, a) && c in Take(s, a).calls && (c in s.calls ==> TrueCall(s, s.calls[c]))
    ensures TrueCall(Take(s, a), Take(s, a).calls[c])
  {
    if a.Start? && a.c == c {
      StartedTrue(s, c, a.request);
    } else if !a.Tick? && a.c == c {
      MovedTrue(s, a, c);
    } else {
      OthersUnmoved(s, a, c);
      TakeIsLater(s, a);
      InvOwns(s);
      CallOutlives(s, Take(s, a), s.calls[c]);
    }
  }

  /** In every reachable state every call tells the truth: a token is exchanged only before it and its session run out, called
      expired only when it has, called consumed only when it was; logging out and revoking leave the session revoked, a session
      is revoked by its owner alone, and access is granted to its owner alone while it lasts. */
  lemma {:induction false} EveryAnswerIsTrue(config: Config, actions: seq<Action>)
    ensures Truthful(Run(config, actions))
  {
    if actions != [] {
      var n := |actions| - 1;
      var s, a := Run(config, actions[..n]), actions[n];
      EveryAnswerIsTrue(config, actions[..n]);
      EveryRun(config, actions[..n]);
      if Enabled(s, a) {
        forall c | c in Take(s, a).calls ensures TrueCall(Take(s, a), Take(s, a).calls[c]) {
          TakeTrue(s, a, c);
        }
      }
    }
  }

  // ----- a call that nobody interferes with -----

  function Step(s: State, a: Action): State {
    if Enabled(s, a) then Take(s, a) else s
  }

  function RunFrom(s: State, actions: seq<Action>): State
    decreases |actions|
  {
    if actions == [] then s else RunFrom(Step(s, actions[0]), actions[1..])
  }

  lemma {:induction false} RunThen(config: Config, actions: seq<Action>, more: seq<Action>)
    ensures Run(config, actions + more) == RunFrom(Run(config, actions), more)
    decreases |more|
  {
    if more == [] {
      assert actions + more == actions;
    } else {
      assert actions + more == (actions + [more[0]]) + more[1..];
      RunSnoc(config, actions, more[0]);
      assert (actions + [more[0]])[..|actions|] == actions;
      RunThen(config, actions + [more[0]], more[1..]);
    }
  }

  lemma StepFirst(s: State, a: Action, rest: seq<Action>)
    requires Enabled(s, a)
    ensures RunFrom(s, [a] + rest) == RunFrom(Take(s, a), rest)
  {
    assert ([a] + rest)[1..] == rest;
  }

  /** Every call has been answered. */
  predicate Quiet(s: State) {
    forall d :: d in s.calls ==> s.calls[d].pc.Done?
  }

  /** The state in which only c has moved on. */
  function With(s: State, c: CallId, request: Request, pc: Pc): State {
    s.(calls := s.calls[c := Begun(s, request).(pc := pc)])
  }

  lemma Begins(s: State, c: CallId, request: Request)
    requires Enabled(s, Start(c, request))
    ensures Take(s, Start(c, request)) == With(s, c, request, Looking)
  {
  }

  /** A call that is answered by its first look at the tables. */
  lemma AnsweredAtOnce(s: State, c: CallId, request: Request, s': State) returns (actions: seq<Action>)
    requires Enabled(s, Start(c, request)) && Enabled(With(s, c, request, Looking), Look(c))
    requires Looked(With(s, c, request, Looking), c) == s'
    ensures RunFrom(s, actions) == s'
  {
    Begins(s, c, request);
    StepFirst(With(s, c, request, Looking), Look(c), []);
    StepFirst(s, Start(c, request), [Look(c)] + []);
    actions := [Start(c, request)] + ([Look(c)] + []);
  }

  /** Looking is a read. */
  lemma LooksUp(s: State, c: CallId, request: Request, pc: Pc)
    requires c !in s.calls
    requires match request
      case Refresh(token) => pc == LookedUp(s, token, s.clock)
      case Logout(token) => pc == if token in s.tokens then Revoking(s.tokens[token].session, UserLogout) else Done(SignedOut)
      case Revoke(user, session) => pc == if Owns(s, user, session) then Revoking(session, UserRequest) else Done(Invalid)
      case Authenticate(user, session) =>
        pc == Done(if Owns(s, user, session) && IsActive(s.sessions[session], s.clock) then Authenticated else Invalid)
      case _ => false
    ensures Enabled(s, Start(c, request)) && Enabled(With(s, c, request, Looking), Look(c))
    ensures Looked(With(s, c, request, Looking), c) == With(s, c, request, pc)
  {
  }

  /** Access is granted exactly to the owner of a session that is neither revoked nor over. */
  lemma AuthenticateAlone(s: State, c: CallId, user: ID, session: ID) returns (actions: seq<Action>)
    requires c !in s.calls
    ensures var granted := Owns(s, user, session) && !IsRevoked(s, session) && Unexpired(s, session, s.clock);
      RunFrom(s, actions) == With(s, c, Authenticate(user, session), Done(if granted then Authenticated else Invalid))
  {
    var ok := Owns(s, user, session) && IsActive(s.sessions[session], s.clock);
    var pc := Done(if ok then Authenticated else Invalid);
    LooksUp(s, c, Authenticate(user, session), pc);
    actions := AnsweredAtOnce(s, c, Authenticate(user, session), With(s, c, Authenticate(user, session), pc));
  }

  /** The state after a revoking write of c. */
  function Withdrew(s: State, c: CallId, request: Request, session: ID, reason: Reason, outcome: Outcome): State
    requires session in s.sessions
  {
    With(s, c, request, Done(outcome)).(sessions := s.sessions[session := WithRevocation(s.sessions[session], s.clock, reason)])
  }

  /** A call whose look leads to a revoking write, which succeeds. */
  lemma RevokesAlone(s: State, c: CallId, request: Request, session: ID, reason: Reason) returns (actions: seq<Action>)
    requires Enabled(s, Start(c, request)) && Enabled(With(s, c, request, Looking), Look(c)) && session in s.sessions
    requires Looked(With(s, c, request, Looking), c) == With(s, c, request, Revoking(session, reason))
    ensures var outcome := if request.Refresh? then Consumed(true) else if request.Logout? then SignedOut else Withdrawn;
      RunFrom(s, actions) == Withdrew(s, c, request, session, reason, outcome)
  {
    var outcome := if request.Refresh? then Consumed(true) else if request.Logout? then SignedOut else Withdrawn;
    Withdraws(s, c, request, session, reason, outcome);
    var s1, s2 := With(s, c, request, Looking), With(s, c, request, Revoking(session, reason));
    Begins(s, c, request);
    StepFirst(s2, Withdraw(c, true), []);
    StepFirst(s1, Look(c), [Withdraw(c, true)] + []);
    StepFirst(s, Start(c, request), [Look(c)] + ([Withdraw(c, true)] + []));
    actions := [Start(c, request)] + ([Look(c)] + ([Withdraw(c, true)] + []));
  }

  lemma Withdraws(s: State, c: CallId, request: Request, session: ID, reason: Reason, outcome: Outcome)
    requires session in s.sessions
    requires outcome == if request.Refresh? then Consumed(true) else if request.Logout? then SignedOut else Withdrawn
    ensures var s2 := With(s, c, request, Revoking(session, reason));
      Enabled(s2, Withdraw(c, true)) && Take(s2, Withdraw(c, true)) == Withdrew(s, c, request, session, reason, outcome)
  {
  }

  /** Logging out with a token that is known, whatever its state, revokes its session. */
  lemma LogoutAlone(s: State, c: CallId, token: ID) returns (actions: seq<Action>)
    requires TokensOwned(s) && c !in s.calls
    ensures RunFrom(s, actions) ==
      if token in s.tokens then Withdrew(s, c, Logout(token), s.tokens[token].session, UserLogout, SignedOut)
      else With(s, c, Logout(token), Done(SignedOut))
  {
    if token in s.tokens {
      LooksUp(s, c, Logout(token), Revoking(s.tokens[token].session, UserLogout));
      actions := RevokesAlone(s, c, Logout(token), s.tokens[token].session, UserLogout);
    } else {
      LooksUp(s, c, Logout(token), Done(SignedOut));
      actions := AnsweredAtOnce(s, c, Logout(token), With(s, c, Logout(token), Done(SignedOut)));
    }
  }

  /** Only its owner can end a session on request. */
  lemma RevokeAlone(s: State, c: CallId, user: ID, session: ID) returns (actions: seq<Action>)
    requires c !in s.calls
    ensures RunFrom(s, actions) ==
      if Owns(s, user, session) then Withdrew(s, c, Revoke(user, session), session, UserRequest, Withdrawn)
      else With(s, c, Revoke(user, session), Done(Invalid))
  {
    if Owns(s, user, session) {
      LooksUp(s, c, Revoke(user, session), Revoking(session, UserRequest));
      actions := RevokesAlone(s, c, Revoke(user, session), session, UserRequest);
    } else {
      LooksUp(s, c, Revoke(user, session), Done(Invalid));
      actions := AnsweredAtOnce(s, c, Revoke(user, session), With(s, c, Revoke(user, session), Done(Invalid)));
    }
  }

  /** A password reset ends every session the user has, and no other. */
  lemma RevokeAllAlone(s: State, c: CallId, user: ID) returns (actions: seq<Action>)
    requires c !in s.calls
    ensures var s' := RunFrom(s, actions);
      && s' == With(s, c, RevokeAll(user), Done(Withdrawn)).(sessions := s'.sessions) && s'.sessions.Keys == s.sessions.Keys
      && forall i :: i in s.sessions ==>
           s'.sessions[i] == if s.sessions[i].user == user && s.sessions[i].revoked.None?
                             then s.sessions[i].(revoked := Some(Revocation(s.clock, PasswordReset))) else s.sessions[i]
  {
    actions := AnsweredAtOnce(s, c, RevokeAll(user), Looked(With(s, c, RevokeAll(user), Looking), c));
  }

  /** Opening a session adds it and its first token, each with its own lifetime from now. */
  lemma OpenAlone(s: State, c: CallId, user: ID, session: ID, token: ID) returns (actions: seq<Action>)
    requires c !in s.calls && session !in s.sessions && token !in s.tokens && Quiet(s)
    ensures var s' := RunFrom(s, actions);
      && s'.calls == With(s, c, Open(user, session, token), Done(Opened)).calls
      && s'.sessions == s.sessions[session := Session(user, s.clock + s.config.sessionTTL, None)]
      && s'.tokens == s.tokens[token := Token(session, s.clock + s.config.refreshTTL, None, None)]
  {
    actions := AnsweredAtOnce(s, c, Open(user, session, token), Looked(With(s, c, Open(user, session, token), Looking), c));
  }

  // ----- a refresh that nobody interferes with -----

  /** The token can be exchanged: known, unused, in time, and of a session neither revoked nor over. */
  predicate Exchangeable(s: State, token: ID) {
    && token in s.tokens && s.tokens[token].used.None? && s.clock < s.tokens[token].expires
    && !IsRevoked(s, s.tokens[token].session) && Unexpired(s, s.tokens[token].session, s.clock)
  }

  /** The state after c has exchanged token for next. */
  function Exchanging(s: State, c: CallId, token: ID, next: ID): State
    requires token in s.tokens && s.tokens[token].session in s.chains
  {
    var session := s.tokens[token].session;
    With(s, c, Refresh(token), Done(Rotated(next))).(
      tokens := Rotate(s.tokens, token, next, s.clock, s.clock + s.config.refreshTTL),
      chains := s.chains[session := s.chains[session] + [next]])
  }

  lemma LooksExchangeable(s: State, c: CallId, token: ID)
    requires c !in s.calls && Exchangeable(s, token)
    ensures Enabled(s, Start(c, Refresh(token))) && Enabled(With(s, c, Refresh(token), Looking), Look(c))
    ensures Looked(With(s, c, Refresh(token), Looking), c) == With(s, c, Refresh(token), Checking(s.tokens[token].session))
  {
    LooksUp(s, c, Refresh(token), Checking(s.tokens[token].session));
  }

  lemma ChecksOut(s: State, c: CallId, token: ID)
    requires Exchangeable(s, token)
    ensures var request, session := Refresh(token), s.tokens[token].session;
      var s2 := With(s, c, request, Checking(session));
      Enabled(s2, Check(c)) && Take(s2, Check(c)) == With(s, c, request, Rotating(session))
  {
  }

  lemma Inserts(s: State, c: CallId, token: ID, next: ID)
    requires Exchangeable(s, token) && Quiet(s) && next !in s.tokens
    ensures var request, session := Refresh(token), s.tokens[token].session;
      var s3 := With(s, c, request, Rotating(session));
      Enabled(s3, Insert(c, next)) && Take(s3, Insert(c, next)) == With(s, c, request, Inserted(session, next))
  {
  }

  lemma Marks(s: State, c: CallId, token: ID, next: ID)
    requires Exchangeable(s, token) && Quiet(s)
    ensures var request, session := Refresh(token), s.tokens[token].session;
      var s4 := With(s, c, request, Inserted(session, next));
      Enabled(s4, Mark(c)) && Take(s4, Mark(c)) == With(s, c, request, Marked(session, next))
  {
  }

  lemma Commits(s: State, c: CallId, token: ID, next: ID)
    requires Exchangeable(s, token) && s.tokens[token].session in s.chains
    ensures var s5 := With(s, c, Refresh(token), Marked(s.tokens[token].session, next));
      Enabled(s5, Commit(c)) && Take(s5, Commit(c)) == Exchanging(s, c, token, next)
  {
  }

  /** An exchangeable token is exchanged ... */
  lemma ExchangesAlone(s: State, c: CallId, token: ID, next: ID) returns (actions: seq<Action>)
    requires c !in s.calls && Quiet(s) && next !in s.tokens
    requires Exchangeable(s, token) && s.tokens[token].session in s.chains
    ensures RunFrom(s, actions) == Exchanging(s, c, token, next)
  {
    var request, session := Refresh(token), s.tokens[token].session;
    LooksExchangeable(s, c, token);
    Begins(s, c, request);
    StepFirst(s, Start(c, request), [Look(c), Check(c), Insert(c, next), Mark(c), Commit(c)]);
    StepFirst(With(s, c, request, Looking), Look(c), [Check(c), Insert(c, next), Mark(c), Commit(c)]);
    ChecksOut(s, c, token);
    StepFirst(With(s, c, request, Checking(session)), Check(c), [Insert(c, next), Mark(c), Commit(c)]);
    Inserts(s, c, token, next);
    StepFirst(With(s, c, request, Rotating(session)), Insert(c, next), [Mark(c), Commit(c)]);
    Marks(s, c, token, next);
    StepFirst(With(s, c, request, Inserted(session, next)), Mark(c), [Commit(c)]);
    Commits(s, c, token, next);
    StepFirst(With(s, c, request, Marked(session, next)), Commit(c), []);
    actions := [Start(c, request), Look(c), Check(c), Insert(c, next), Mark(c), Commit(c)];
    InSixSteps(Start(c, request), Look(c), Check(c), Insert(c, next), Mark(c), Commit(c));
  }

  lemma InSixSteps(a: Action, b: Action, c: Action, d: Action, e: Action, f: Action)
    ensures [a] + [b, c, d, e, f] == [a, b, c, d, e, f] && [b] + [c, d, e, f] == [b, c, d, e, f]
    ensures [c] + [d, e, f] == [c, d, e, f] && [d] + [e, f] == [d, e, f] && [e] + [f] == [e, f] && [f] + [] == [f]
  {
  }

  /** ... and a token of a session that is revoked or over is refused when the session is read. */
  lemma RefusedAtCheck(s: State, c: CallId, token: ID) returns (actions: seq<Action>)
    requires c !in s.calls && token in s.tokens && s.tokens[token].used.None? && s.clock < s.tokens[token].expires
    requires !Exchangeable(s, token)
    ensures RunFrom(s, actions) == With(s, c, Refresh(token), Done(Invalid))
  {
    var request, session := Refresh(token), s.tokens[token].session;
    LooksUp(s, c, request, Checking(session));
    Begins(s, c, request);
    var s2 := With(s, c, request, Checking(session));
    StepFirst(s2, Check(c), []);
    StepFirst(With(s, c, request, Looking), Look(c), [Check(c)] + []);
    StepFirst(s, Start(c, request), [Look(c)] + ([Check(c)] + []));
    assert Take(s2, Check(c)) == With(s, c, request, Done(Invalid));
    actions := [Start(c, request)] + ([Look(c)] + ([Check(c)] + []));
  }

  /** What a refresh leaves that nobody interferes with. */
  function RefreshedAlone(s: State, c: CallId, token: ID, next: ID): State
    requires token in s.tokens ==> s.tokens[token].session in s.sessions && s.tokens[token].session in s.chains
  {
    if token !in s.tokens then With(s, c, Refresh(token), Done(Invalid))
    else if s.tokens[token].used.Some? then
      Withdrew(s, c, Refresh(token), s.tokens[token].session, TokenReuse, Consumed(true))
    else if s.clock >= s.tokens[token].expires then With(s, c, Refresh(token), Done(Expired))
    else if !Exchangeable(s, token) then With(s, c, Refresh(token), Done(Invalid))
    else Exchanging(s, c, token, next)
  }

  /** In any reachable state with every earlier call answered, a refresh run to its end exchanges its token exactly when that is
      known, unused, unexpired and of an active session; it answers a used one by revoking the session, and refuses every
      other with nothing changed. */
  lemma RefreshAlone(config: Config, before: seq<Action>, c: CallId, token: ID, next: ID) returns (actions: seq<Action>)
    requires var s := Run(config, before); c !in s.calls && Quiet(s) && next !in s.tokens
    ensures var s := Run(config, before);
      && (token in s.tokens ==> s.tokens[token].session in s.sessions && s.tokens[token].session in s.chains)
      && Run(config, before + actions) == RefreshedAlone(s, c, token, next)
  {
    var s := Run(config, before);
    EveryRun(config, before);
    InvOwns(s);
    actions := RefreshFrom(s, c, token, next);
    RunThen(config, before, actions);
  }

  lemma RefreshFrom(s: State, c: CallId, token: ID, next: ID) returns (actions: seq<Action>)
    requires c !in s.calls && Quiet(s) && next !in s.tokens
    requires token in s.tokens ==> s.tokens[token].session in s.sessions && s.tokens[token].session in s.chains
    ensures RunFrom(s, actions) == RefreshedAlone(s, c, token, next)
  {
    var request := Refresh(token);
    if token !in s.tokens {
      LooksUp(s, c, request, Done(Invalid));
      actions := AnsweredAtOnce(s, c, request, With(s, c, request, Done(Invalid)));
    } else if s.tokens[token].used.Some? {
      LooksUp(s, c, request, Revoking(s.tokens[token].session, TokenReuse));
      actions := RevokesAlone(s, c, request, s.tokens[token].session, TokenReuse);
    } else if s.clock >= s.tokens[token].expires {
      LooksUp(s, c, request, Done(Expired));
      actions := AnsweredAtOnce(s, c, request, With(s, c, request, Done(Expired)));
    } else if !Exchangeable(s, token) {
      actions := RefusedAtCheck(s, c, token);
    } else {
      actions := ExchangesAlone(s, c, token, next);
    }
  }
}
