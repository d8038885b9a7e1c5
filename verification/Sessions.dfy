/** Refresh-token rotation and session revocation under concurrency (internal/service/auth.go Refresh, Logout,
    RevokeSession, Authenticate, openSession; the guarded updates of internal/repository/session.go). A token is named by
    its hash; identifiers and hashes are never drawn twice; expiry purging is not modelled. */
module Sessions {
  import opened Outcomes
  import opened Domain

  datatype Reason = UserLogout | TokenReuse | PasswordReset | UserRequest

  datatype Revocation = Revocation(at: Time, reason: Reason)

  datatype Session = Session(user: ID, expires: Time, revoked: Option<Revocation>)

  datatype Token = Token(session: ID, expires: Time, used: Option<Time>, replacedBy: Option<ID>)

  /** AuthSession.IsActive. */
  predicate IsActive(s: Session, now: Time) {
    s.revoked.None? && now < s.expires
  }

  /** UPDATE .. WHERE revoked_at IS NULL: the first revocation stands. */
  function WithRevocation(s: Session, at: Time, reason: Reason): Session {
    if s.revoked.Some? then s else s.(revoked := Some(Revocation(at, reason)))
  }

  datatype Request =
    | Refresh(token: ID)
    | Logout(token: ID)
    | Revoke(user: ID, session: ID)
    | RevokeAll(user: ID)
    | Authenticate(user: ID, session: ID)
    | Open(user: ID, session: ID, token: ID)

  datatype Outcome =
    | Rotated(next: ID)
    | Invalid | Expired
    | Consumed(written: bool)      // reuse: and whether the revoking write succeeded
    | SignedOut | Withdrawn | Authenticated | Opened
    | Failed

  /** Where a call stands. Rotation runs in a transaction: from Inserted on the successor is inserted, and from Marked on
      the presented token's row is locked and updated, both seen by nobody else until Commit. */
  datatype Pc =
    | Looking
    | Checking(session: ID)
    | Rotating(session: ID)
    | Inserted(session: ID, next: ID)
    | Marked(session: ID, next: ID)
    | Revoking(session: ID, reason: Reason)
    | Done(outcome: Outcome)

  /** before, had and knew are ghosts: the sessions already revoked when the call started, and the sessions and tokens there
      were. */
  datatype Call = Call(request: Request, now: Time, pc: Pc, before: set<ID>, had: set<ID>, knew: set<ID>)

  type CallId = nat

  /** How long sessions and refresh tokens last. */
  datatype Config = Config(sessionTTL: Time, refreshTTL: Time)

  /** chains is a ghost: the tokens of each session in the order they were issued. */
  datatype State = State(config: Config, clock: Time, sessions: map<ID, Session>, tokens: map<ID, Token>,
                         calls: map<CallId, Call>, chains: map<ID, seq<ID>>)

  function Empty(config: Config): State {
    State(config, 0, map[], map[], map[], map[])
  }

  datatype Action =
    | Tick(clock: Time)
    | Start(c: CallId, request: Request)
    | Look(c: CallId)
    | Check(c: CallId)
    | Insert(c: CallId, next: ID)
    | Mark(c: CallId)
    | Commit(c: CallId)
    | Withdraw(c: CallId, ok: bool)     // the revoking write
    | Abort(c: CallId)                  // the call fails; an open transaction is rolled back

  function RevokedIn(sessions: map<ID, Session>): set<ID> {
    set i | i in sessions && sessions[i].revoked.Some?
  }

  predicate At(s: State, c: CallId) {
    c in s.calls
  }

  function To(s: State, c: CallId, pc: Pc): map<CallId, Call>
    requires c in s.calls
  {
    s.calls[c := s.calls[c].(pc := pc)]
  }

  /** The successor a call in its transaction has drawn. */
  predicate Draws(call: Call, next: ID) {
    (call.pc.Inserted? || call.pc.Marked?) && call.pc.next == next
  }

  predicate Fresh(s: State, next: ID) {
    next !in s.tokens && forall d :: d in s.calls ==> !Draws(s.calls[d], next)
  }

  /** Another transaction holds the token's row. */
  predicate RowLocked(s: State, c: CallId, token: ID) {
    exists d :: d in s.calls && d != c && s.calls[d].pc.Marked? && s.calls[d].request == Refresh(token)
  }

  /** A Refresh reads the presented token. */
  function LookedUp(s: State, token: ID, now: Time): Pc {
    if token !in s.tokens then Done(Invalid)
    else if s.tokens[token].used.Some? then Revoking(s.tokens[token].session, TokenReuse)
    else if now >= s.tokens[token].expires then Done(Expired)
    else Checking(s.tokens[token].session)
  }

  predicate Enabled(s: State, a: Action) {
    match a
    case Tick(clock) => clock >= s.clock
    case Start(c, request) =>
      && c !in s.calls
      && (request.Open? ==> request.session !in s.sessions && Fresh(s, request.token))
    case Look(c) =>
      && At(s, c) && s.calls[c].pc.Looking?
      && (s.calls[c].request.Open? ==>
            s.calls[c].request.session !in s.sessions && Fresh(s, s.calls[c].request.token))
    case Check(c) => At(s, c) && s.calls[c].pc.Checking?
    case Insert(c, next) => At(s, c) && s.calls[c].pc.Rotating? && Fresh(s, next)
    case Mark(c) =>
      At(s, c) && s.calls[c].pc.Inserted? && s.calls[c].request.Refresh? && !RowLocked(s, c, s.calls[c].request.token)
    case Commit(c) =>
      && At(s, c) && s.calls[c].pc.Marked? && s.calls[c].request.Refresh?
      && s.calls[c].request.token in s.tokens && s.calls[c].pc.session in s.chains
    case Withdraw(c, _) => At(s, c) && s.calls[c].pc.Revoking?
    case Abort(c) => At(s, c) && !s.calls[c].pc.Done?
  }

  function Looked(s: State, c: CallId): State
    requires At(s, c)
  {
    var call := s.calls[c];
    match call.request
    case Refresh(token) => s.(calls := To(s, c, LookedUp(s, token, call.now)))
    case Logout(token) =>
      s.(calls := To(s, c, if token in s.tokens then Revoking(s.tokens[token].session, UserLogout) else Done(SignedOut)))
    case Revoke(user, session) =>
      var own := session in s.sessions && s.sessions[session].user == user;
      s.(calls := To(s, c, if own then Revoking(session, UserRequest) else Done(Invalid)))
    case RevokeAll(user) =>
      s.(sessions := map i | i in s.sessions :: if s.sessions[i].user == user
                                                then WithRevocation(s.sessions[i], call.now, PasswordReset)
                                                else s.sessions[i],
         calls := To(s, c, Done(Withdrawn)))
    case Authenticate(user, session) =>
      var ok := session in s.sessions && IsActive(s.sessions[session], s.clock) && s.sessions[session].user == user;
      s.(calls := To(s, c, Done(if ok then Authenticated else Invalid)))
    case Open(user, session, token) =>
      WithSession(s, user, session, token, call.now).(calls := To(s, c, Done(Opened)))
  }

  /** A session and its first token. */
  function WithSession(s: State, user: ID, session: ID, token: ID, now: Time): State {
    s.(sessions := s.sessions[session := Session(user, now + s.config.sessionTTL, None)],
       tokens := s.tokens[token := Token(session, now + s.config.refreshTTL, None, None)],
       chains := s.chains[session := [token]])
  }

  /** The tokens after t is exchanged for next. */
  function Rotate(tokens: map<ID, Token>, t: ID, next: ID, at: Time, expires: Time): map<ID, Token>
    requires t in tokens
  {
    tokens[next := Token(tokens[t].session, expires, None, None)][t := tokens[t].(used := Some(at), replacedBy := Some(next))]
  }

  function Committed(s: State, c: CallId): State
    requires Enabled(s, Commit(c))
  {
    var call := s.calls[c];
    var session := call.pc.session;
    s.(tokens := Rotate(s.tokens, call.request.token, call.pc.next, call.now, call.now + s.config.refreshTTL),
       chains := s.chains[session := s.chains[session] + [call.pc.next]],
       calls := To(s, c, Done(Rotated(call.pc.next))))
  }

  /** The session is read outside the transaction, once. */
  function Checked(s: State, c: CallId): Pc
    requires At(s, c) && s.calls[c].pc.Checking?
  {
    var session := s.calls[c].pc.session;
    if session in s.sessions && IsActive(s.sessions[session], s.calls[c].now) then Rotating(session) else Done(Invalid)
  }

  /** UPDATE .. WHERE used_at IS NULL. Zero rows: the transaction rolls back and the reuse branch follows. */
  function MarkedAs(s: State, c: CallId): Pc
    requires Enabled(s, Mark(c))
  {
    var call := s.calls[c];
    if call.request.token in s.tokens && s.tokens[call.request.token].used.None?
    then Marked(call.pc.session, call.pc.next) else Revoking(call.pc.session, TokenReuse)
  }

  /** A refresh revokes as of when it started; logging out and revoking on request look at the clock again. */
  function RevokedAt(s: State, call: Call): Time {
    if call.request.Refresh? then call.now else s.clock
  }

  function Withdrawing(s: State, c: CallId, ok: bool): map<ID, Session>
    requires Enabled(s, Withdraw(c, ok))
  {
    var call := s.calls[c];
    if ok && call.pc.session in s.sessions
    then s.sessions[call.pc.session := WithRevocation(s.sessions[call.pc.session], RevokedAt(s, call), call.pc.reason)]
    else s.sessions
  }

  function AfterWithdrawal(call: Call, ok: bool): Pc
    requires call.pc.Revoking?
  {
    if call.request.Refresh? then Done(Consumed(ok))
    else if !ok then Done(Failed)
    else if call.request.Logout? then Done(SignedOut)
    else Done(Withdrawn)
  }

  function Begun(s: State, request: Request): Call {
    Call(request, s.clock, Looking, RevokedIn(s.sessions), s.sessions.Keys, s.tokens.Keys)
  }

  function Take(s: State, a: Action): State
    requires Enabled(s, a)
  {
    match a
    case Tick(clock) => s.(clock := clock)
    case Start(c, request) => s.(calls := s.calls[c := Begun(s, request)])
    case Look(c) => Looked(s, c)
    case Check(c) => s.(calls := To(s, c, Checked(s, c)))
    case Insert(c, next) => s.(calls := To(s, c, Inserted(s.calls[c].pc.session, next)))
    case Mark(c) => s.(calls := To(s, c, MarkedAs(s, c)))
    case Commit(c) => Committed(s, c)
    case Withdraw(c, ok) => s.(sessions := Withdrawing(s, c, ok), calls := To(s, c, AfterWithdrawal(s.calls[c], ok)))
    case Abort(c) => s.(calls := To(s, c, Done(Failed)))
  }

  function Run(config: Config, actions: seq<Action>): State {
    if actions == [] then Empty(config)
    else
      var s := Run(config, actions[..|actions| - 1]);
      if Enabled(s, actions[|actions| - 1]) then Take(s, actions[|actions| - 1]) else s
  }

  // ----- invariant -----

  predicate Distinct(chain: seq<ID>) {
    forall i, j :: 0 <= i < j < |chain| ==> chain[i] != chain[j]
  }

  /** One session's tokens: all of them, each exchanged for the next, the last one unused. */
  ghost predicate ChainSound(tokens: map<ID, Token>, session: ID, chain: seq<ID>) {
    && chain != [] && Distinct(chain)
    && (forall t :: t in tokens && tokens[t].session == session <==> t in chain)
    && (forall i :: 0 <= i < |chain| ==> chain[i] in tokens)
    && (forall i :: 0 <= i < |chain| - 1 ==> Exchanged(tokens[chain[i]], chain[i + 1]))
    && tokens[chain[|chain| - 1]].used.None? && tokens[chain[|chain| - 1]].replacedBy.None?
  }

  predicate Exchanged(t: Token, next: ID) {
    t.used.Some? && t.replacedBy == Some(next)
  }

  predicate OfToken(tokens: map<ID, Token>, call: Call, session: ID) {
    && call.request.Refresh? && call.request.token in tokens
    && tokens[call.request.token].session == session
  }

  /** What a call's standing says about the tokens and about the sessions revoked so far. */
  predicate CallSound(tokens: map<ID, Token>, revoked: set<ID>, call: Call) {
    && call.before <= revoked
    && match call.pc
       case Looking => true
       case Checking(session) => OfToken(tokens, call, session)
       case Rotating(session) => OfToken(tokens, call, session) && session !in call.before
       case Inserted(session, next) => OfToken(tokens, call, session) && session !in call.before && next !in tokens
       case Marked(session, next) =>
         && OfToken(tokens, call, session) && session !in call.before && next !in tokens
         && tokens[call.request.token].used.None?
       case Revoking(session, reason) => call.request.Refresh? ==> OfToken(tokens, call, session)
       case Done(outcome) => OutcomeSound(tokens, revoked, call, outcome)
  }

  predicate OutcomeSound(tokens: map<ID, Token>, revoked: set<ID>, call: Call, outcome: Outcome) {
    match outcome
    case Rotated(next) =>
      && call.request.Refresh? && call.request.token in tokens && next in tokens
      && Exchanged(tokens[call.request.token], next)
      && tokens[call.request.token].session !in call.before
    case Consumed(written) =>
      && call.request.Refresh? && call.request.token in tokens
      && (written ==> tokens[call.request.token].session in revoked)
    case Authenticated => call.request.Authenticate? && call.request.session !in call.before
    case _ => true
  }

  /** The successor a call has drawn or issued. */
  function Successor(pc: Pc): Option<ID> {
    match pc
    case Inserted(_, next) => Some(next)
    case Marked(_, next) => Some(next)
    case Done(outcome) => if outcome.Rotated? then Some(outcome.next) else None
    case _ => None
  }

  /** Distinct calls have drawn distinct successors, and do not both hold one token's row. */
  predicate Separate(x: Call, y: Call) {
    && (Successor(x.pc).Some? ==> Successor(x.pc) != Successor(y.pc))
    && !(x.pc.Marked? && y.pc.Marked? && x.request == y.request)
  }

  ghost predicate ChainsSound(sessions: set<ID>, tokens: map<ID, Token>, chains: map<ID, seq<ID>>) {
    && chains.Keys == sessions
    && (forall t :: t in tokens ==> tokens[t].session in sessions)
    && (forall i :: i in chains ==> ChainSound(tokens, i, chains[i]))
  }

  ghost predicate CallsSound(tokens: map<ID, Token>, revoked: set<ID>, calls: map<CallId, Call>) {
    forall c :: c in calls ==> CallSound(tokens, revoked, calls[c])
  }

  predicate Apart(calls: map<CallId, Call>) {
    forall c, d :: c in calls && d in calls && c != d ==> Separate(calls[c], calls[d])
  }

  ghost predicate Inv(s: State) {
    && ChainsSound(s.sessions.Keys, s.tokens, s.chains)
    && CallsSound(s.tokens, RevokedIn(s.sessions), s.calls)
    && Apart(s.calls)
  }
}
