/** Sessions on the gateway: two dictionaries that must mirror each other, and the presence table. */
module Gateway {
  import opened Wrappers

  type Token = string

  datatype Session = Session(
    userId: int, username: string, lastSeen: int, expiresAt: Option<int>, status: string, room: Option<string>)

  datatype PresenceRow = PresenceRow(username: string, status: string, serverId: Option<string>, room: Option<string>)

  datatype State = State(sessions: map<Token, Session>, tokens: map<string, Token>, presence: map<int, PresenceRow>)

  const EMPTY := State(map[], map[], map[])

  const IDLE_LIMIT := 300

  datatype Reply =
    | LoggedIn(token: Token)
    | InvalidCredentials
    | InvalidToken
    | ExpiredToken
    | Granted(userId: int, username: string)  // an authenticated request, or TOKEN_VALID
    | LoggedOut
    | Acknowledged

  predicate Expired(expiresAt: Option<int>, now: int) {
    expiresAt.Some? && now > expiresAt.value
  }

  predicate Stale(expiresAt: Option<int>, lastSeen: int, now: int) {
    Expired(expiresAt, now) || now - lastSeen > IDLE_LIMIT
  }

  function Cleanup(s: State, token: Token): State {
    if token !in s.sessions then
      s
    else
      var session := s.sessions[token];
      State(s.sessions - {token},
            if session.username in s.tokens && s.tokens[session.username] == token
            then s.tokens - {session.username}
            else s.tokens,
            s.presence[session.userId := PresenceRow(session.username, "offline", None, None)])
  }

  /** `user` is the identifier of the authenticated account, and `token` the fresh one drawn for it. */
  function Login(s: State, username: string, user: Option<int>, expiresIn: Option<int>, token: Token, now: int)
    : (State, Reply)
  {
    if user.None? then
      (s, InvalidCredentials)
    else
      var before := if username in s.tokens then Cleanup(s, s.tokens[username]) else s;
      var expiresAt := if expiresIn.Some? then Some(now + expiresIn.value) else None;
      (State(before.sessions[token := Session(user.value, username, now, expiresAt, "online", Some("waiting"))],
             before.tokens[username := token],
             before.presence[user.value := PresenceRow(username, "online", None, Some("waiting"))]),
       LoggedIn(token))
  }

  /** What every message with a token goes through first: expiry, then the `last_seen` refresh. */
  function Touch(s: State, token: Token, now: int): State {
    if token !in s.sessions then
      s
    else if Expired(s.sessions[token].expiresAt, now) then
      Cleanup(s, token)
    else
      var session := s.sessions[token];
      s.(sessions := s.sessions[token := session.(lastSeen := now)],
         presence := s.presence[session.userId := PresenceRow(session.username, session.status, None, session.room)])
  }

  function Request(s: State, token: Token, now: int): (State, Reply) {
    (Touch(s, token, now),
     if token !in s.sessions then InvalidToken
     else if Expired(s.sessions[token].expiresAt, now) then ExpiredToken
     else Granted(s.sessions[token].userId, s.sessions[token].username))
  }

  function Logout(s: State, token: Token, now: int): (State, Reply) {
    if token !in s.sessions then (s, InvalidToken)
    else if Expired(s.sessions[token].expiresAt, now) then (Cleanup(s, token), ExpiredToken)
    else (Cleanup(Touch(s, token, now), token), LoggedOut)
  }

  function Validate(s: State, token: Token, now: int): (State, Reply) {
    if token !in s.sessions then (s, InvalidToken)
    else if Expired(s.sessions[token].expiresAt, now) then (Cleanup(s, token), ExpiredToken)
    else (s, Granted(s.sessions[token].userId, s.sessions[token].username))
  }

  function StaleTokens(s: State, now: int): set<Token> {
    set t | t in s.sessions && Stale(s.sessions[t].expiresAt, s.sessions[t].lastSeen, now)
  }

  function CleanupAll(s: State, order: seq<Token>): State {
    if order == [] then s else Cleanup(CleanupAll(s, order[..|order| - 1]), order[|order| - 1])
  }

  function UpdateRoomStatus(s: State, userId: int, username: string, status: string, serverId: Option<string>,
                            room: Option<string>): State
  {
    s.(presence := s.presence[userId := PresenceRow(username, status, serverId, room)],
       sessions := if username in s.tokens && s.tokens[username] in s.sessions
                   then var token := s.tokens[username];
                        s.sessions[token := s.sessions[token].(status := status, room := room)]
                   else s.sessions)
  }

  datatype Event =
    | LoginEvent(username: string, user: Option<int>, expiresIn: Option<int>, token: Token, now: int)
    | RequestEvent(token: Token, now: int)
    | LogoutEvent(token: Token, now: int)
    | ValidateEvent(token: Token, now: int)
    | PruneEvent(order: seq<Token>, now: int)
    | DisconnectEvent(token: Token)
    | RoomStatusEvent(userId: int, username: string, status: string, serverId: Option<string>, room: Option<string>)

  function Step(s: State, e: Event): (State, Reply) {
    match e
    case LoginEvent(username, user, expiresIn, token, now) => Login(s, username, user, expiresIn, token, now)
    case RequestEvent(token, now) => Request(s, token, now)
    case LogoutEvent(token, now) => Logout(s, token, now)
    case ValidateEvent(token, now) => Validate(s, token, now)
    case PruneEvent(order, now) => (CleanupAll(s, order), Acknowledged)
    case DisconnectEvent(token) => (Cleanup(s, token), Acknowledged)
    case RoomStatusEvent(userId, username, status, serverId, room) =>
      (UpdateRoomStatus(s, userId, username, status, serverId, room), Acknowledged)
  }

  /** Drawn tokens are new, and a sweep visits the stale tokens in some order. */
  ghost predicate Allowed(s: State, e: Event) {
    && (e.LoginEvent? && e.user.Some? ==> e.token !in s.sessions)
    && (e.PruneEvent? ==> forall t :: t in e.order <==> t in StaleTokens(s, e.now))
  }

  function Run(history: seq<Event>): State {
    if history == [] then EMPTY else Step(Run(history[..|history| - 1]), history[|history| - 1]).0
  }

  ghost predicate AllAllowed(history: seq<Event>) {
    history == [] ||
    (AllAllowed(history[..|history| - 1]) && Allowed(Run(history[..|history| - 1]), history[|history| - 1]))
  }

  // ---- one session per user ----

  ghost predicate Mirror(s: State) {
    && (forall u <- s.tokens :: s.tokens[u] in s.sessions && s.sessions[s.tokens[u]].username == u)
    && (forall t <- s.sessions :: s.sessions[t].username in s.tokens && s.tokens[s.sessions[t].username] == t)
  }

  lemma CleanupKeepsMirror(s: State, token: Token)
    requires Mirror(s)
    ensures Mirror(Cleanup(s, token)) && Cleanup(s, token).sessions == s.sessions - {token}
  {}

  lemma {:induction false} CleanupAllKeepsMirror(s: State, order: seq<Token>)
    requires Mirror(s)
    ensures Mirror(CleanupAll(s, order))
    ensures CleanupAll(s, order).sessions == s.sessions - (set t <- order)
  {
    if order != [] {
      var last := |order| - 1;
      CleanupAllKeepsMirror(s, order[..last]);
      CleanupKeepsMirror(CleanupAll(s, order[..last]), order[last]);
      assert (set t <- order) == (set t <- order[..last]) + {order[last]};
    } else {
      assert s.sessions - {} == s.sessions;
    }
  }

  lemma LoginKeepsMirror(s: State, e: Event)
    requires Mirror(s) && e.LoginEvent? && Allowed(s, e)
    ensures Mirror(Step(s, e).0)
  {
    if e.username in s.tokens {
      CleanupKeepsMirror(s, s.tokens[e.username]);
    }
  }

  lemma StepKeepsMirror(s: State, e: Event)
    requires Mirror(s) && Allowed(s, e)
    ensures Mirror(Step(s, e).0)
  {
    match e
    case LoginEvent(_, _, _, _, _) => LoginKeepsMirror(s, e);
    case RequestEvent(token, _) => CleanupKeepsMirror(s, token);
    case LogoutEvent(token, now) =>
      CleanupKeepsMirror(s, token);
      CleanupKeepsMirror(Touch(s, token, now), token);
    case ValidateEvent(token, _) => CleanupKeepsMirror(s, token);
    case PruneEvent(order, _) => CleanupAllKeepsMirror(s, order);
    case DisconnectEvent(token) => CleanupKeepsMirror(s, token);
    case RoomStatusEvent(_, _, _, _, _) =>
  }

  // ---- what a single token lives through ----

  datatype Life = Life(userId: int, username: string, lastSeen: int, expiresAt: Option<int>)

  /** The effect of one event on one token, seen without any dictionary. */
  function Age(life: Option<Life>, e: Event, token: Token): Option<Life> {
    match e
    case LoginEvent(username, user, expiresIn, drawn, now) =>
      if user.None? then life
      else if drawn == token then
        Some(Life(user.value, username, now, if expiresIn.Some? then Some(now + expiresIn.value) else None))
      else if life.Some? && life.value.username == username then None
      else life
    case RequestEvent(t, now) =>
      if t != token || life.None? then life
      else if Expired(life.value.expiresAt, now) then None
      else Some(life.value.(lastSeen := now))
    case LogoutEvent(t, _) => if t == token then None else life
    case ValidateEvent(t, now) => if t == token && life.Some? && Expired(life.value.expiresAt, now) then None else life
    case PruneEvent(_, now) =>
      if life.Some? && Stale(life.value.expiresAt, life.value.lastSeen, now) then None else life
    case DisconnectEvent(t) => if t == token then None else life
    case RoomStatusEvent(_, _, _, _, _) => life
  }

  function Lifetime(history: seq<Event>, token: Token): Option<Life> {
    if history == [] then None
    else Age(Lifetime(history[..|history| - 1], token), history[|history| - 1], token)
  }

  function LifeIn(s: State, token: Token): Option<Life> {
    if token in s.sessions then
      var x := s.sessions[token];
      Some(Life(x.userId, x.username, x.lastSeen, x.expiresAt))
    else
      None
  }

  lemma StepAges(s: State, e: Event, token: Token)
    requires Mirror(s) && Allowed(s, e)
    ensures LifeIn(Step(s, e).0, token) == Age(LifeIn(s, token), e, token)
  {
    if e.PruneEvent? {
      CleanupAllKeepsMirror(s, e.order);
    }
  }

  /** Over every run the two dictionaries hold exactly the tokens that are alive by their own history. */
  lemma {:induction false} SessionsAreLifetimes(history: seq<Event>)
    requires AllAllowed(history)
    ensures Mirror(Run(history))
    ensures forall token :: LifeIn(Run(history), token) == Lifetime(history, token)
  {
    if history != [] {
      var before, e := history[..|history| - 1], history[|history| - 1];
      SessionsAreLifetimes(before);
      StepKeepsMirror(Run(before), e);
      forall token
        ensures LifeIn(Run(history), token) == Lifetime(history, token)
      {
        StepAges(Run(before), e, token);
      }
    }
  }

  /** This event gives the token to its user. */
  predicate Issues(e: Event, token: Token) {
    e.LoginEvent? && e.user.Some? && e.token == token
  }

  /** The token was used here, so the idle clock starts again. */
  predicate Refreshes(e: Event, token: Token) {
    Issues(e, token) || (e.RequestEvent? && e.token == token)
  }

  /** Nothing in this event takes the token away from `username`, given when it expires. */
  predicate Spares(e: Event, token: Token, username: string, expiresAt: Option<int>) {
    match e
    case LoginEvent(name, user, _, _, _) => user.None? || name != username
    case RequestEvent(t, now) => t != token || !Expired(expiresAt, now)
    case LogoutEvent(t, _) => t != token
    case ValidateEvent(t, now) => t != token || !Expired(expiresAt, now)
    case PruneEvent(_, now) => !Expired(expiresAt, now)
    case DisconnectEvent(t) => t != token
    case RoomStatusEvent(_, _, _, _, _) => true
  }

  function Expiry(e: Event): Option<int> {
    if e.LoginEvent? && e.expiresIn.Some? then Some(e.now + e.expiresIn.value) else None
  }

  /** Since its login at `i` nothing took the token away, and no sweep found it idle for too long:
      `used[j]` is its last use before event `j`. */
  ghost predicate Valid(history: seq<Event>, token: Token, i: nat, used: seq<nat>) {
    && i < |history| && Issues(history[i], token) && |used| == |history| + 1
    && (forall j :: i < j < |history| ==> Spares(history[j], token, history[i].username, Expiry(history[i])))
    && (forall j :: i < j <= |history| ==> i <= used[j] < j && Refreshes(history[used[j]], token))
    && (forall j :: i < j < |history| && history[j].PruneEvent? ==> history[j].now - history[used[j]].now <= IDLE_LIMIT)
  }

  /** A token that is alive was issued by a login that nothing has undone since. */
  lemma {:induction false} AliveMeansValid(history: seq<Event>, token: Token) returns (i: nat, used: seq<nat>)
    requires Lifetime(history, token).Some?
    ensures Valid(history, token, i, used)
    ensures var life := Lifetime(history, token).value;
            && history[i].user == Some(life.userId) && history[i].username == life.username
            && Expiry(history[i]) == life.expiresAt && history[used[|history|]].now == life.lastSeen
  {
    var last := |history| - 1;
    var before, e := history[..last], history[last];
    if Issues(e, token) {
      i, used := last, seq(|history| + 1, _ => last);
    } else {
      i, used := AliveMeansValid(before, token);
      var latest := if Refreshes(e, token) then last else used[last];
      used := used + [latest];
      forall j | i < j <= |history|
        ensures i <= used[j] < j && Refreshes(history[used[j]], token)
      {
        if j < |history| {
          assert history[used[j]] == before[used[j]];
        }
      }
      assert forall j :: i < j < last ==> history[j] == before[j];
    }
  }

  predicate Timed(e: Event) {
    !e.DisconnectEvent? && !e.RoomStatusEvent?
  }

  predicate ClockRuns(history: seq<Event>) {
    forall j, k :: 0 <= j < k < |history| && Timed(history[j]) && Timed(history[k]) ==> history[j].now <= history[k].now
  }

  /** The token from login `i` is alive, and was used no earlier than any recorded use. */
  ghost predicate AliveSince(history: seq<Event>, token: Token, i: nat)
    requires i < |history| && Issues(history[i], token)
  {
    var life := Lifetime(history, token);
    && life.Some? && life.value.username == history[i].username && life.value.expiresAt == Expiry(history[i])
    && forall k :: i <= k < |history| && Refreshes(history[k], token) ==> history[k].now <= life.value.lastSeen
  }

  lemma ValidBefore(history: seq<Event>, token: Token, i: nat, used: seq<nat>)
    requires Valid(history, token, i, used) && i < |history| - 1
    ensures Valid(history[..|history| - 1], token, i, used[..|history|])
  {
    var before := history[..|history| - 1];
    assert forall j :: i < j <= |before| ==> history[used[j]] == before[used[j]];
  }

  lemma AliveIsNotReissued(history: seq<Event>, token: Token)
    requires AllAllowed(history) && history != []
    requires Lifetime(history[..|history| - 1], token).Some?
    ensures !Issues(history[|history| - 1], token)
  {
    var before := history[..|history| - 1];
    SessionsAreLifetimes(before);
    assert LifeIn(Run(before), token) == Lifetime(before, token);
  }

  /** The converse, when the clock never goes back. */
  lemma {:induction false} ValidMeansAlive(history: seq<Event>, token: Token, i: nat, used: seq<nat>)
    requires AllAllowed(history) && ClockRuns(history) && Valid(history, token, i, used)
    ensures AliveSince(history, token, i)
  {
    hide Run, Step, Allowed;
    var last := |history| - 1;
    var before, e := history[..last], history[last];
    if i < last {
      ValidBefore(history, token, i, used);
      ValidMeansAlive(before, token, i, used[..|history|]);
      AliveIsNotReissued(history, token);
      var life := Lifetime(before, token).value;
      assert e.PruneEvent? ==> before[used[last]].now <= life.lastSeen;
      assert Spares(e, token, history[i].username, Expiry(history[i]));
    }
  }

  /** An authenticated request or `TOKEN_VALID` is granted exactly to a token that is alive and not
      past its expiry, and to the user it was issued to. */
  lemma GrantedIff(history: seq<Event>, token: Token, now: int)
    requires AllAllowed(history)
    ensures var s, life := Run(history), Lifetime(history, token);
            && Request(s, token, now).1 == Validate(s, token, now).1
            && (Request(s, token, now).1.Granted? <==> life.Some? && !Expired(life.value.expiresAt, now))
            && (life.Some? && !Expired(life.value.expiresAt, now) ==>
                  Request(s, token, now).1 == Granted(life.value.userId, life.value.username))
  {
    SessionsAreLifetimes(history);
    assert LifeIn(Run(history), token) == Lifetime(history, token);
  }

  /** What a request is told about its token, by the token's own history. */
  function Standing(life: Option<Life>, now: int, granted: Reply): Reply {
    match life
    case None => InvalidToken
    case Some(x) => if Expired(x.expiresAt, now) then ExpiredToken else granted
  }

  /** What every message is answered after this history. */
  function Answer(history: seq<Event>, e: Event): Reply {
    match e
    case LoginEvent(_, user, _, token, _) => if user.None? then InvalidCredentials else LoggedIn(token)
    case RequestEvent(t, now) => Standing(Lifetime(history, t), now, Identity(Lifetime(history, t)))
    case ValidateEvent(t, now) => Standing(Lifetime(history, t), now, Identity(Lifetime(history, t)))
    case LogoutEvent(t, now) => Standing(Lifetime(history, t), now, LoggedOut)
    case _ => Acknowledged
  }

  function Identity(life: Option<Life>): Reply {
    if life.Some? then Granted(life.value.userId, life.value.username) else InvalidToken
  }

  lemma AnswersAreHistory(history: seq<Event>, e: Event)
    requires AllAllowed(history)
    ensures Step(Run(history), e).1 == Answer(history, e)
  {
    SessionsAreLifetimes(history);
    if e.RequestEvent? || e.ValidateEvent? || e.LogoutEvent? {
      assert LifeIn(Run(history), e.token) == Lifetime(history, e.token);
    }
  }

  /** Two live tokens never belong to the same username. */
  lemma OneTokenPerUser(history: seq<Event>, a: Token, b: Token)
    requires AllAllowed(history)
    requires Lifetime(history, a).Some? && Lifetime(history, b).Some?
    ensures Lifetime(history, a).value.username == Lifetime(history, b).value.username ==> a == b
  {
    SessionsAreLifetimes(history);
    assert LifeIn(Run(history), a).Some? && LifeIn(Run(history), b).Some?;
  }

  // ---- presence ----

  ghost predicate Injective(ids: string -> int) {
    forall a, b :: ids(a) == ids(b) ==> a == b
  }

  /** Accounts do not change: an event names a user by the identifier of that username. */
  predicate Consistent(e: Event, ids: string -> int) {
    && (e.LoginEvent? && e.user.Some? ==> e.user.value == ids(e.username))
    && (e.RoomStatusEvent? ==> e.userId == ids(e.username))
  }

  /** A live session and the presence row of its user say the same. */
  ghost predicate Present(s: State, ids: string -> int) {
    forall t <- s.sessions ::
      var session := s.sessions[t];
      && session.userId == ids(session.username)
      && session.userId in s.presence
      && s.presence[session.userId].username == session.username
      && s.presence[session.userId].status == session.status
      && s.presence[session.userId].room == session.room
  }

  lemma CleanupKeepsPresent(s: State, token: Token, ids: string -> int)
    requires Mirror(s) && Present(s, ids) && Injective(ids)
    ensures Present(Cleanup(s, token), ids)
  {
    var after := Cleanup(s, token);
    forall t | t in after.sessions && token in s.sessions
      ensures s.sessions[t].userId != s.sessions[token].userId
    {
      assert s.sessions[t].username != s.sessions[token].username;
    }
  }

  lemma {:induction false} CleanupAllKeepsPresent(s: State, order: seq<Token>, ids: string -> int)
    requires Mirror(s) && Present(s, ids) && Injective(ids)
    ensures Present(CleanupAll(s, order), ids)
  {
    if order != [] {
      var last := |order| - 1;
      CleanupAllKeepsPresent(s, order[..last], ids);
      CleanupAllKeepsMirror(s, order[..last]);
      CleanupKeepsPresent(CleanupAll(s, order[..last]), order[last], ids);
    }
  }

  /** Rewriting the row of one user disturbs no session of another. */
  lemma RowsAreApart(s: State, ids: string -> int, username: string, t: Token)
    requires Mirror(s) && Present(s, ids) && Injective(ids)
    requires t in s.sessions && s.sessions[t].userId == ids(username)
    ensures username in s.tokens && s.tokens[username] == t
  {}

  lemma LoginKeepsPresent(s: State, e: Event, ids: string -> int)
    requires Mirror(s) && Present(s, ids) && Injective(ids)
    requires e.LoginEvent? && Allowed(s, e) && Consistent(e, ids)
    ensures Present(Step(s, e).0, ids)
  {
    var before := if e.username in s.tokens then Cleanup(s, s.tokens[e.username]) else s;
    if e.username in s.tokens {
      CleanupKeepsPresent(s, s.tokens[e.username], ids);
      CleanupKeepsMirror(s, s.tokens[e.username]);
    }
    forall t | t in before.sessions
      ensures before.sessions[t].userId != ids(e.username)
    {
      if before.sessions[t].userId == ids(e.username) {
        RowsAreApart(before, ids, e.username, t);
      }
    }
  }

  lemma TouchKeepsPresent(s: State, token: Token, now: int, ids: string -> int)
    requires Mirror(s) && Present(s, ids) && Injective(ids)
    ensures Mirror(Touch(s, token, now)) && Present(Touch(s, token, now), ids)
  {
    CleanupKeepsMirror(s, token);
    CleanupKeepsPresent(s, token, ids);
    forall t | t in s.sessions && token in s.sessions && s.sessions[t].userId == s.sessions[token].userId
      ensures t == token
    {
      RowsAreApart(s, ids, s.sessions[token].username, t);
    }
  }

  lemma RoomStatusKeepsPresent(s: State, e: Event, ids: string -> int)
    requires Mirror(s) && Present(s, ids) && Injective(ids)
    requires e.RoomStatusEvent? && Consistent(e, ids)
    ensures Present(Step(s, e).0, ids)
  {
    forall t | t in s.sessions && s.sessions[t].userId == e.userId
      ensures e.username in s.tokens && s.tokens[e.username] == t
    {
      RowsAreApart(s, ids, e.username, t);
    }
  }

  lemma StepKeepsPresent(s: State, e: Event, ids: string -> int)
    requires Mirror(s) && Present(s, ids) && Injective(ids)
    requires Allowed(s, e) && Consistent(e, ids)
    ensures Present(Step(s, e).0, ids)
  {
    match e
    case LoginEvent(_, _, _, _, _) => LoginKeepsPresent(s, e, ids);
    case RequestEvent(token, now) => TouchKeepsPresent(s, token, now, ids);
    case LogoutEvent(token, now) =>
      TouchKeepsPresent(s, token, now, ids);
      CleanupKeepsPresent(s, token, ids);
      CleanupKeepsPresent(Touch(s, token, now), token, ids);
    case ValidateEvent(token, _) => CleanupKeepsPresent(s, token, ids);
    case PruneEvent(order, _) => CleanupAllKeepsPresent(s, order, ids);
    case DisconnectEvent(token) => CleanupKeepsPresent(s, token, ids);
    case RoomStatusEvent(_, _, _, _, _) => RoomStatusKeepsPresent(s, e, ids);
  }

  /** No refresh ever takes a user back to a room the presence table had already left. */
  lemma {:induction false} PresenceAgrees(history: seq<Event>, ids: string -> int)
    requires AllAllowed(history) && Injective(ids)
    requires forall k :: 0 <= k < |history| ==> Consistent(history[k], ids)
    ensures Present(Run(history), ids)
  {
    if history != [] {
      var before, e := history[..|history| - 1], history[|history| - 1];
      PresenceAgrees(before, ids);
      SessionsAreLifetimes(before);
      StepKeepsPresent(Run(before), e, ids);
    }
  }
}
