/** What the gateway knows about one user, told from the events alone: the session, if there is one,
    and the presence row that other users see. */
module PresenceHistory {
  import opened Wrappers
  import opened Gateway

  /** One user: the presence row, and the token of the live session with what it lives on. */
  datatype Member = Member(row: Option<PresenceRow>, live: Option<(Token, Life)>)

  function Gone(name: string): Member {
    Member(Some(PresenceRow(name, "offline", None, None)), None)
  }

  /** `t` is the token of the live session. */
  predicate Holds(m: Member, t: Token) {
    m.live.Some? && m.live.value.0 == t
  }

  predicate Late(m: Member, now: int) {
    m.live.Some? && Expired(m.live.value.1.expiresAt, now)
  }

  /** The effect of one event on the user `name`, seen without any dictionary and without other users. */
  function Grow(m: Member, e: Event, name: string): Member {
    match e
    case LoginEvent(username, user, expiresIn, token, now) =>
      if user.None? || username != name then m
      else
        var expiresAt := if expiresIn.Some? then Some(now + expiresIn.value) else None;
        Member(Some(PresenceRow(name, "online", None, Some("waiting"))),
               Some((token, Life(user.value, name, now, expiresAt))))
    case RequestEvent(t, now) =>
      if !Holds(m, t) then m
      else if Late(m, now) then Gone(name)
      else Refreshed(m, now)
    case LogoutEvent(t, _) => if Holds(m, t) then Gone(name) else m
    case ValidateEvent(t, now) => if Holds(m, t) && Late(m, now) then Gone(name) else m
    case PruneEvent(_, now) =>
      if m.live.Some? && (Late(m, now) || now - m.live.value.1.lastSeen > 300) then Gone(name) else m
    case DisconnectEvent(t) => if Holds(m, t) then Gone(name) else m
    case RoomStatusEvent(_, username, status, serverId, room) =>
      if username == name then m.(row := Some(PresenceRow(name, status, serverId, room))) else m
  }

  /** A refresh keeps status and room, forgets the server, and starts the idle clock again. */
  function Refreshed(m: Member, now: int): Member
    requires m.live.Some?
  {
    var (token, life) := m.live.value;
    Member(if m.row.Some? then Some(m.row.value.(serverId := None)) else None,
           Some((token, life.(lastSeen := now))))
  }

  function Story(history: seq<Event>, name: string): Member {
    if history == [] then Member(None, None)
    else Grow(Story(history[..|history| - 1], name), history[|history| - 1], name)
  }

  /** What the table and the two dictionaries hold about `name`. */
  function MemberIn(s: State, name: string, id: int): Member {
    Member(if id in s.presence then Some(s.presence[id]) else None,
           if name in s.tokens && s.tokens[name] in s.sessions
           then Some((s.tokens[name], LifeIn(s, s.tokens[name]).value))
           else None)
  }

  ghost predicate Sound(s: State, ids: string -> int) {
    Mirror(s) && Present(s, ids) && Injective(ids)
  }

  lemma HeldToken(s: State, token: Token, name: string, ids: string -> int)
    requires Sound(s, ids)
    ensures Holds(MemberIn(s, name, ids(name)), token) <==> token in s.sessions && s.sessions[token].username == name
  {}

  lemma CleanupGrows(s: State, token: Token, name: string, ids: string -> int)
    requires Sound(s, ids)
    ensures var m := MemberIn(s, name, ids(name));
            MemberIn(Cleanup(s, token), name, ids(name)) == if Holds(m, token) then Gone(name) else m
  {
    HeldToken(s, token, name, ids);
  }

  lemma {:induction false} CleanupAllGrows(s: State, order: seq<Token>, name: string, ids: string -> int)
    requires Sound(s, ids)
    ensures Sound(CleanupAll(s, order), ids)
    ensures var m := MemberIn(s, name, ids(name));
            MemberIn(CleanupAll(s, order), name, ids(name)) ==
            if m.live.Some? && m.live.value.0 in order then Gone(name) else m
  {
    if order != [] {
      var last := |order| - 1;
      CleanupAllGrows(s, order[..last], name, ids);
      CleanupGrows(CleanupAll(s, order[..last]), order[last], name, ids);
      CleanupAllKeepsMirror(s, order);
      CleanupAllKeepsPresent(s, order, ids);
    }
  }

  lemma TouchGrows(s: State, token: Token, now: int, name: string, ids: string -> int)
    requires Sound(s, ids)
    ensures var m := MemberIn(s, name, ids(name));
            MemberIn(Touch(s, token, now), name, ids(name)) == Grow(m, RequestEvent(token, now), name)
  {
    HeldToken(s, token, name, ids);
    CleanupGrows(s, token, name, ids);
  }

  /** The login itself, once an older session is gone. */
  lemma IssueGrows(s: State, e: Event, name: string, ids: string -> int)
    requires Mirror(s) && Injective(ids) && e.LoginEvent? && e.user == Some(ids(e.username))
    requires e.username !in s.tokens && e.token !in s.sessions
    ensures MemberIn(Login(s, e.username, e.user, e.expiresIn, e.token, e.now).0, name, ids(name)) ==
            Grow(MemberIn(s, name, ids(name)), e, name)
  {
    assert e.username != name ==> ids(e.username) != ids(name);
  }

  lemma LoginGrows(s: State, e: Event, name: string, ids: string -> int)
    requires Sound(s, ids) && e.LoginEvent? && Allowed(s, e) && Consistent(e, ids)
    ensures MemberIn(Step(s, e).0, name, ids(name)) == Grow(MemberIn(s, name, ids(name)), e, name)
  {
    if e.user.Some? && e.username in s.tokens {
      var former := s.tokens[e.username];
      CleanupGrows(s, former, name, ids);
      HeldToken(s, former, name, ids);
      CleanupKeepsMirror(s, former);
      LoginAfterCleanup(s, e);
      hide Cleanup, Present, Login;
      IssueGrows(Cleanup(s, former), e, name, ids);
    } else if e.user.Some? {
      IssueGrows(s, e, name, ids);
    }
  }

  lemma LoginAfterCleanup(s: State, e: Event)
    requires Mirror(s) && e.LoginEvent? && e.user.Some? && e.username in s.tokens
    ensures var before := Cleanup(s, s.tokens[e.username]);
            && e.username !in before.tokens
            && Login(before, e.username, e.user, e.expiresIn, e.token, e.now)
               == Login(s, e.username, e.user, e.expiresIn, e.token, e.now)
  {}

  lemma StepGrows(s: State, e: Event, name: string, ids: string -> int)
    requires Sound(s, ids) && Allowed(s, e) && Consistent(e, ids)
    ensures MemberIn(Step(s, e).0, name, ids(name)) == Grow(MemberIn(s, name, ids(name)), e, name)
  {
    match e
    case LoginEvent(_, _, _, _, _) => LoginGrows(s, e, name, ids);
    case RequestEvent(token, now) => TouchGrows(s, token, now, name, ids);
    case LogoutEvent(token, now) =>
      TouchGrows(s, token, now, name, ids);
      TouchKeepsPresent(s, token, now, ids);
      HeldToken(s, token, name, ids);
      CleanupGrows(s, token, name, ids);
      CleanupGrows(Touch(s, token, now), token, name, ids);
    case ValidateEvent(token, _) => CleanupGrows(s, token, name, ids);
    case PruneEvent(order, _) => CleanupAllGrows(s, order, name, ids);
    case DisconnectEvent(token) => CleanupGrows(s, token, name, ids);
    case RoomStatusEvent(_, username, _, _, _) =>
      assert username != name ==> ids(username) != ids(name);
  }

  /** Over every run, presence row and session of every user are exactly what the events that concern
      that user say: the last room update if there was one since the login, and offline after any end of
      the session. */
  lemma {:induction false} PresenceIsItsHistory(history: seq<Event>, name: string, ids: string -> int)
    requires AllAllowed(history) && Injective(ids)
    requires forall k :: 0 <= k < |history| ==> Consistent(history[k], ids)
    ensures MemberIn(Run(history), name, ids(name)) == Story(history, name)
  {
    if history != [] {
      var before, e := history[..|history| - 1], history[|history| - 1];
      PresenceIsItsHistory(before, name, ids);
      PresenceAgrees(before, ids);
      SessionsAreLifetimes(before);
      StepGrows(Run(before), e, name, ids);
    }
  }

  /** The status and room that a live session carries are those of the same story. */
  lemma SessionTellsStory(history: seq<Event>, token: Token, ids: string -> int)
    requires AllAllowed(history) && Injective(ids) && token in Run(history).sessions
    requires forall k :: 0 <= k < |history| ==> Consistent(history[k], ids)
    ensures var session := Run(history).sessions[token];
            var m := Story(history, session.username);
            && Holds(m, token) && m.row.Some?
            && m.row.value == PresenceRow(session.username, session.status, m.row.value.serverId, session.room)
  {
    var name := Run(history).sessions[token].username;
    PresenceIsItsHistory(history, name, ids);
    PresenceAgrees(history, ids);
    SessionsAreLifetimes(history);
  }

  /** No row belongs to anybody but a user that an event named. */
  lemma {:induction false} NoOtherRows(history: seq<Event>, id: int, ids: string -> int)
    requires AllAllowed(history) && Injective(ids) && id in Run(history).presence
    requires forall k :: 0 <= k < |history| ==> Consistent(history[k], ids)
    ensures ids(Run(history).presence[id].username) == id
  {
    var before, e := history[..|history| - 1], history[|history| - 1];
    PresenceAgrees(before, ids);
    SessionsAreLifetimes(before);
    if id in Run(before).presence {
      NoOtherRows(before, id, ids);
    }
    hide AllAllowed;
    StepRows(Run(before), e, id, ids);
  }

  lemma StepRows(s: State, e: Event, id: int, ids: string -> int)
    requires Sound(s, ids) && Consistent(e, ids) && (id in s.presence ==> ids(s.presence[id].username) == id)
    ensures var after := Step(s, e).0;
            id in after.presence ==> ids(after.presence[id].username) == id
  {
    if e.PruneEvent? {
      CleanupAllRows(s, e.order, id, ids);
    }
    hide Mirror;
  }

  lemma {:induction false} CleanupAllRows(s: State, order: seq<Token>, id: int, ids: string -> int)
    requires Sound(s, ids) && (id in s.presence ==> ids(s.presence[id].username) == id)
    ensures var after := CleanupAll(s, order);
            id in after.presence ==> ids(after.presence[id].username) == id
  {
    if order != [] {
      var last := |order| - 1;
      CleanupAllRows(s, order[..last], id, ids);
      CleanupAllKeepsMirror(s, order[..last]);
      CleanupAllKeepsPresent(s, order[..last], ids);
    }
  }
}
