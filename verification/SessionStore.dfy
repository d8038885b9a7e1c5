/** The session and token tables as the object the repository updates in place (internal/repository/session.go over the
    guarded statements of sqlcgen/sessions.sql.go). Each write reports the number of rows it changed. */
module SessionStores {
  import opened Outcomes
  import opened Domain
  import opened Sessions

  class SessionStore {
    var sessions: map<ID, Session>
    var tokens: map<ID, Token>

    constructor ()
      ensures sessions == map[] && tokens == map[]
    {
      sessions, tokens := map[], map[];
    }

    method CreateSession(id: ID, user: ID, expires: Time) returns (ok: bool)
      modifies this`sessions
      ensures ok == (id !in old(sessions))
      ensures sessions == if ok then old(sessions)[id := Session(user, expires, None)] else old(sessions)
    {
      ok := id !in sessions;
      if ok {
        sessions := sessions[id := Session(user, expires, None)];
      }
    }

    /** Fails on a duplicate id and on an unknown session. */
    method CreateRefreshToken(id: ID, session: ID, expires: Time) returns (ok: bool)
      modifies this`tokens
      ensures ok == (id !in old(tokens) && session in sessions)
      ensures tokens == if ok then old(tokens)[id := Token(session, expires, None, None)] else old(tokens)
    {
      ok := id !in tokens && session in sessions;
      if ok {
        tokens := tokens[id := Token(session, expires, None, None)];
      }
    }

    /** Consumes a token, once: a second call changes no row, whatever successor it names. */
    method MarkRefreshTokenUsed(id: ID, at: Time, replacedBy: ID) returns (rows: nat)
      modifies this`tokens
      ensures rows == 1 <==> id in old(tokens) && old(tokens)[id].used.None?
      ensures rows == 0 ==> tokens == old(tokens)
      ensures rows == 1 ==> id in tokens && Exchanged(tokens[id], replacedBy)
      ensures rows == 1 ==> tokens == old(tokens)[id := old(tokens)[id].(used := Some(at), replacedBy := Some(replacedBy))]
      ensures rows <= 1 && tokens.Keys == old(tokens).Keys
    {
      if id !in tokens || tokens[id].used.Some? {
        return 0;
      }
      tokens := tokens[id := tokens[id].(used := Some(at), replacedBy := Some(replacedBy))];
      return 1;
    }

    /** Revokes a session, once: the first time and reason stand. */
    method RevokeSession(id: ID, at: Time, reason: Reason) returns (rows: nat)
      modifies this`sessions
      ensures rows == 1 <==> id in old(sessions) && old(sessions)[id].revoked.None?
      ensures rows <= 1 && sessions.Keys == old(sessions).Keys
      ensures id in sessions ==> sessions == old(sessions)[id := WithRevocation(old(sessions)[id], at, reason)]
      ensures rows == 0 ==> sessions == old(sessions)
    {
      if id !in sessions || sessions[id].revoked.Some? {
        assert id in sessions ==> sessions == sessions[id := sessions[id]];
        return 0;
      }
      sessions := sessions[id := sessions[id].(revoked := Some(Revocation(at, reason)))];
      return 1;
    }

    /** Revokes every session a user still has. */
    method RevokeAllSessions(user: ID, at: Time, reason: Reason)
      modifies this`sessions
      ensures sessions.Keys == old(sessions).Keys
      ensures forall i :: i in sessions ==>
        sessions[i] == if old(sessions)[i].user == user then WithRevocation(old(sessions)[i], at, reason) else old(sessions)[i]
    {
      sessions := map i | i in sessions :: if sessions[i].user == user && sessions[i].revoked.None?
                                           then sessions[i].(revoked := Some(Revocation(at, reason)))
                                           else sessions[i];
    }

    /** openSession: the session and its first token, or neither. */
    method OpenSession(user: ID, session: ID, token: ID, expires: Time, refreshExpires: Time) returns (ok: bool)
      modifies this
      ensures ok == (session !in old(sessions) && token !in old(tokens))
      ensures ok ==> sessions == old(sessions)[session := Session(user, expires, None)]
      ensures ok ==> tokens == old(tokens)[token := Token(session, refreshExpires, None, None)]
      ensures !ok ==> sessions == old(sessions) && tokens == old(tokens)
    {
      var before := sessions;
      ok := CreateSession(session, user, expires);
      if ok {
        ok := CreateRefreshToken(token, session, refreshExpires);
        if !ok {
          sessions := before;
        }
      }
    }
 
    /** Refresh's transaction: the successor is inserted first, because the old token will point at it; then the old one
        is consumed under its guard, or everything is rolled back. */
    method RotateRefreshToken(token: ID, next: ID, at: Time, expires: Time) returns (ok: bool, consumed: bool)
      requires token in tokens
      modifies this`tokens
      ensures ok <==> next !in old(tokens) && old(tokens)[token].session in sessions && old(tokens)[token].used.None?
      ensures consumed <==>
        next !in old(tokens) && old(tokens)[token].session in sessions && old(tokens)[token].used.Some?
      ensures tokens == if ok then Rotate(old(tokens), token, next, at, expires) else old(tokens)
    {
      var before := tokens;
      var session := tokens[token].session;
      consumed := false;
      ok := CreateRefreshToken(next, session, expires);
      if ok {
        var rows := MarkRefreshTokenUsed(token, at, next);
        if rows == 0 {
          tokens := before;
          return false, true;
        }
      }
    }
  }
}
