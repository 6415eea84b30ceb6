/** The gateway object, updating its dictionaries and the presence table in place. */
module GatewayServer {
  import opened Wrappers
  import opened Gateway

  class Server {
    var activeSessions: map<Token, Session>
    var userToToken: map<string, Token>
    var presence: map<int, PresenceRow>

    ghost function Snapshot(): State
      reads this
    {
      State(activeSessions, userToToken, presence)
    }

    constructor ()
      ensures Snapshot() == EMPTY && Mirror(Snapshot())
    {
      activeSessions, userToToken, presence := map[], map[], map[];
    }

    method UpdatePresence(userId: int, username: string, status: string, serverId: Option<string>, room: Option<string>)
      modifies this`presence
      ensures presence == old(presence)[userId := PresenceRow(username, status, serverId, room)]
    {
      presence := presence[userId := PresenceRow(username, status, serverId, room)];
    }

    method CleanupSession(token: Token)
      modifies this
      ensures Snapshot() == Cleanup(old(Snapshot()), token)
    {
      if token !in activeSessions {
        return;
      }
      var session := activeSessions[token];
      activeSessions := activeSessions - {token};
      if session.username in userToToken && userToToken[session.username] == token {
        userToToken := userToToken - {session.username};
      }
      UpdatePresence(session.userId, session.username, "offline", None, None);
    }

    method HandleLogin(username: string, user: Option<int>, expiresIn: Option<int>, token: Token, now: int)
      returns (reply: Reply)
      modifies this
      ensures (Snapshot(), reply) == Login(old(Snapshot()), username, user, expiresIn, token, now)
    {
      if user.None? {
        return InvalidCredentials;
      }
      if username in userToToken {
        CleanupSession(userToToken[username]);
      }
      var expiresAt: Option<int> := None;
      if expiresIn.Some? {
        expiresAt := Some(now + expiresIn.value);
      }
      var session := Session(user.value, username, now, expiresAt, "online", Some("waiting"));
      activeSessions := activeSessions[token := session];
      userToToken := userToToken[username := token];
      UpdatePresence(user.value, username, "online", None, Some("waiting"));
      return LoggedIn(token);
    }

    /** The check in front of every message that carries a token. */
    method RefreshToken(token: Token, now: int) returns (expired: bool)
      modifies this
      ensures Snapshot() == Touch(old(Snapshot()), token, now)
      ensures expired <==> token in old(activeSessions) && Expired(old(activeSessions)[token].expiresAt, now)
    {
      expired := false;
      if token !in activeSessions {
        return;
      }
      var expiresAt := activeSessions[token].expiresAt;
      if expiresAt.Some? && now > expiresAt.value {
        CleanupSession(token);
        return true;
      }
      activeSessions := activeSessions[token := activeSessions[token].(lastSeen := now)];
      var session := activeSessions[token];
      UpdatePresence(session.userId, session.username, session.status, None, session.room);
    }

    method HandleRequest(token: Token, now: int) returns (reply: Reply)
      modifies this
      ensures (Snapshot(), reply) == Request(old(Snapshot()), token, now)
    {
      var expired := RefreshToken(token, now);
      if expired {
        return ExpiredToken;
      }
      if token !in activeSessions {
        return InvalidToken;
      }
      return Granted(activeSessions[token].userId, activeSessions[token].username);
    }

    method HandleLogout(token: Token, now: int) returns (reply: Reply)
      modifies this
      ensures (Snapshot(), reply) == Logout(old(Snapshot()), token, now)
    {
      var expired := RefreshToken(token, now);
      if expired {
        return ExpiredToken;
      }
      if token !in activeSessions {
        return InvalidToken;
      }
      CleanupSession(token);
      return LoggedOut;
    }

    method ValidateToken(token: Token, now: int) returns (reply: Reply)
      modifies this
      ensures (Snapshot(), reply) == Validate(old(Snapshot()), token, now)
    {
      if token !in activeSessions {
        return InvalidToken;
      }
      var session := activeSessions[token];
      if session.expiresAt.Some? && now > session.expiresAt.value {
        CleanupSession(token);
        return ExpiredToken;
      }
      return Granted(session.userId, session.username);
    }

    method UserRoomStatusUpdate(userId: int, username: string, status: string, serverId: Option<string>,
                                room: Option<string>)
      modifies this`presence, this`activeSessions
      ensures Snapshot() == UpdateRoomStatus(old(Snapshot()), userId, username, status, serverId, room)
    {
      UpdatePresence(userId, username, status, serverId, room);
      if username in userToToken && userToToken[username] in activeSessions {
        var token := userToToken[username];
        activeSessions := activeSessions[token := activeSessions[token].(status := status)];
        activeSessions := activeSessions[token := activeSessions[token].(room := room)];
      }
    }

    /** The first loop of a sweep: list what is to go, in the order of the dictionary. */
    method FindStale(now: int) returns (order: seq<Token>)
      ensures forall t :: t in order <==> t in StaleTokens(Snapshot(), now)
    {
      order := [];
      var unseen := activeSessions.Keys;
      while unseen != {}
        invariant unseen <= activeSessions.Keys
        invariant forall t :: t in order <==> t in StaleTokens(Snapshot(), now) && t !in unseen
      {
        var token :| token in unseen;
        var session := activeSessions[token];
        if session.expiresAt.Some? && now > session.expiresAt.value {
          order := order + [token];
        } else if now - session.lastSeen > IDLE_LIMIT {
          order := order + [token];
        }
        unseen := unseen - {token};
      }
    }

    method PruneStaleSessions(now: int) returns (ghost order: seq<Token>)
      modifies this
      ensures Allowed(old(Snapshot()), PruneEvent(order, now))
      ensures Snapshot() == Step(old(Snapshot()), PruneEvent(order, now)).0
    {
      var stale := FindStale(now);
      order := stale;
      var k := 0;
      while k < |stale|
        invariant k <= |stale|
        invariant Snapshot() == CleanupAll(old(Snapshot()), stale[..k])
      {
        CleanupSession(stale[k]);
        assert stale[..k + 1][..k] == stale[..k];
        k := k + 1;
      }
      assert stale[..k] == stale;
    }
  }
}
