/** Where a connection is, told from the events alone, and what that makes of broadcasts and replies. */
module RoomHistory {
  import opened Wrappers
  import opened Rooms

  /** `me` may expel people from the room it is in. */
  predicate Owner(me: Option<Client>, owners: map<string, int>) {
    && me.Some? && me.value.room.Some?
    && me.value.room.value in owners && owners[me.value.room.value] == me.value.userId
  }

  /** What event `e`, sent by `actor`, makes of connection `conn`: an authentication puts it outside all
      rooms, a join into the room joined, a leave outside again, and a kick or a disconnect away. */
  function Moves(was: Option<Client>, actor: Option<Client>, e: Event, conn: Conn): Option<Client> {
    match e
    case Auth(c, hasToken, verdict) =>
      if c == conn && hasToken && verdict.Valid?
      then Some(Client(verdict.user.0, verdict.user.1, None))
      else was
    case Enter(c, room) => if c == conn && was.Some? && room != "" then Some(was.value.(room := Some(room))) else was
    case Exit(c) => if c == conn && was.Some? then Some(was.value.(room := None)) else was
    case Expel(c, _, owners, pick) => if pick == Some(conn) && Owner(actor, owners) then None else was
    case Disconnect(c) => if c == conn then None else was
  }

  function Whereabouts(history: seq<Event>, conn: Conn): Option<Client> {
    if history == [] then
      None
    else
      var before, e := history[..|history| - 1], history[|history| - 1];
      Moves(Whereabouts(before, conn), Whereabouts(before, e.conn), e, conn)
  }

  function ClientIn(s: State, conn: Conn): Option<Client> {
    if conn in s.clients then Some(s.clients[conn]) else None
  }

  lemma LeaveFollows(s: State, conn: Conn)
    requires Agrees(s) && conn in s.clients
    ensures LeaveLogic(s, conn).clients == s.clients[conn := s.clients[conn].(room := None)]
  {
    LeaveMoves(s, conn);
    assert s.clients[conn].room.None? ==> s.clients[conn].(room := None) == s.clients[conn];
  }

  lemma CleanupFollows(s: State, conn: Conn)
    requires Agrees(s)
    ensures Cleanup(s, conn).clients == s.clients - {conn}
  {
    if conn in s.clients {
      LeaveFollows(s, conn);
    }
  }

  lemma StepFollows(s: State, e: Event)
    requires Agrees(s) && Allowed(s, e)
    ensures forall conn :: ClientIn(Step(s, e).0, conn) == Moves(ClientIn(s, conn), ClientIn(s, e.conn), e, conn)
  {
    hide Agrees, LeaveLogic, Cleanup;
    match e
    case Enter(conn, room) =>
      if conn in s.clients {
        LeaveFollows(s, conn);
      }
    case Exit(conn) =>
      if conn in s.clients {
        LeaveFollows(s, conn);
      }
    case Expel(_, _, _, pick) =>
      if pick.Some? {
        CleanupFollows(s, pick.value);
      }
    case Disconnect(conn) => CleanupFollows(s, conn);
    case _ =>
  }

  lemma EmptyAgrees()
    ensures Agrees(EMPTY)
  {
    assert Index(map[]) == map[];
  }

  /** Over every run, every connection is known, and is in a room, exactly as its own history says. */
  lemma {:induction false} ClientsAreTheirHistory(history: seq<Event>)
    requires AllAllowed(EMPTY, history)
    ensures forall conn :: ClientIn(Run(EMPTY, history), conn) == Whereabouts(history, conn)
  {
    if history != [] {
      var before, e := history[..|history| - 1], history[|history| - 1];
      ClientsAreTheirHistory(before);
      EmptyAgrees();
      RunKeepsAgreement(EMPTY, before);
      StepFollows(Run(EMPTY, before), e);
      assert ClientIn(Run(EMPTY, before), e.conn) == Whereabouts(before, e.conn);
    }
  }

  /** Whom a broadcast reaches can be read off the history. */
  lemma BroadcastIsHistory(history: seq<Event>, room: string, conn: Conn)
    requires AllAllowed(EMPTY, history)
    ensures conn in Targets(Run(EMPTY, history), room) <==>
            Whereabouts(history, conn).Some? && Whereabouts(history, conn).value.room == Some(room)
  {
    ClientsAreTheirHistory(history);
    assert ClientIn(Run(EMPTY, history), conn) == Whereabouts(history, conn);
    BroadcastsStayInRoom(history, room);
  }

  /** What a request after this history is answered; a kick names only someone of that name in the
      owner's own room, and finds nobody only when there is nobody. */
  function Answer(history: seq<Event>, e: Event): Reply {
    match e
    case Auth(_, hasToken, verdict) =>
      if !hasToken then MissingField
      else if verdict.Unreachable? then InternalError
      else if verdict.Invalid? then InvalidToken
      else Done
    case Enter(c, room) =>
      if room == "" then MissingField else if Whereabouts(history, c).None? then InvalidToken else Done
    case Exit(c) =>
      if Whereabouts(history, c).None? then InvalidToken
      else if Whereabouts(history, c).value.room.None? then NotInRoom
      else Done
    case Expel(c, _, owners, pick) =>
      if Whereabouts(history, c).None? then InvalidToken
      else if !Owner(Whereabouts(history, c), owners) then PermissionDenied
      else if pick.None? then UserNotFound
      else Done
    case Disconnect(_) => Done
  }

  lemma AnswersAreHistory(history: seq<Event>, e: Event)
    requires AllAllowed(EMPTY, history) && Allowed(Run(EMPTY, history), e)
    ensures Step(Run(EMPTY, history), e).1 == Answer(history, e)
  {
    ClientsAreTheirHistory(history);
    assert ClientIn(Run(EMPTY, history), e.conn) == Whereabouts(history, e.conn);
  }

  /** A connection of this name, in the room of connection `c`. */
  predicate Named(history: seq<Event>, c: Conn, username: string, target: Conn)
    requires Whereabouts(history, c).Some?
  {
    var found := Whereabouts(history, target);
    && found.Some? && found.value.username == username
    && found.value.room == Whereabouts(history, c).value.room
  }

  /** Whom an owner expels: one of the connections of that name in the room, if there is one. */
  lemma KickFindsTarget(history: seq<Event>, e: Event)
    requires AllAllowed(EMPTY, history) && Allowed(Run(EMPTY, history), e)
    requires e.Expel? && Owner(Whereabouts(history, e.conn), e.owners)
    ensures e.pick.Some? ==> Named(history, e.conn, e.username, e.pick.value)
    ensures e.pick.None? <==> forall target :: !Named(history, e.conn, e.username, target)
  {
    ClientsAreTheirHistory(history);
    var s := Run(EMPTY, history);
    assert ClientIn(s, e.conn) == Whereabouts(history, e.conn);
    forall target
      ensures Named(history, e.conn, e.username, target) <==> Kickable(s, e.conn, e.username, target)
    {
      assert ClientIn(s, target) == Whereabouts(history, target);
    }
  }
}
