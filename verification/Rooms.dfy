/** Who is in which room on a process server: the `clients` dictionary says it once per connection,
    the `rooms` dictionary once per room. */
module Rooms {
  import opened Wrappers

  type Conn = nat

  datatype Client = Client(userId: int, username: string, room: Option<string>)

  datatype State = State(clients: map<Conn, Client>, rooms: map<string, set<Conn>>)

  const EMPTY := State(map[], map[])

  datatype Reply = Done | MissingField | InvalidToken | NotInRoom | PermissionDenied | UserNotFound | InternalError

  /** What comes of asking the gateway about a token: the user it belongs to, a refusal, or no answer. */
  datatype Verdict = Valid(user: (int, string)) | Invalid | Unreachable

  function Authenticate(s: State, conn: Conn, hasToken: bool, verdict: Verdict): (State, Reply) {
    if !hasToken then (s, MissingField)
    else
      match verdict
      case Valid(user) => (s.(clients := s.clients[conn := Client(user.0, user.1, None)]), Done)
      case Invalid => (s, InvalidToken)
      case Unreachable => (s, InternalError)
  }

  function LeaveLogic(s: State, conn: Conn): State
    requires conn in s.clients
  {
    var room := s.clients[conn].room;
    if room.None? || room.value !in s.rooms then
      s
    else
      var rest := s.rooms[room.value] - {conn};
      s.(rooms := if rest == {} then s.rooms - {room.value} else s.rooms[room.value := rest],
         clients := s.clients[conn := s.clients[conn].(room := None)])
  }

  function Join(s: State, conn: Conn, room: string): (State, Reply) {
    if room == "" then (s, MissingField)
    else if conn !in s.clients then (s, InvalidToken)
    else
      (Put(LeaveLogic(s, conn), conn, room), Done)
  }

  function Put(s: State, conn: Conn, room: string): State
    requires conn in s.clients
  {
    var members := if room in s.rooms then s.rooms[room] else {};
    s.(rooms := s.rooms[room := members + {conn}],
       clients := s.clients[conn := s.clients[conn].(room := Some(room))])
  }

  function Leave(s: State, conn: Conn): (State, Reply) {
    if conn !in s.clients then (s, InvalidToken)
    else if s.clients[conn].room.None? then (s, NotInRoom)
    else (LeaveLogic(s, conn), Done)
  }

  function Cleanup(s: State, conn: Conn): State {
    if conn !in s.clients then s
    else
      var left := LeaveLogic(s, conn);
      left.(clients := left.clients - {conn})
  }

  /** `owners` is the `created_by` column of the rooms table. */
  predicate OwnsRoom(s: State, conn: Conn, owners: map<string, int>)
    requires conn in s.clients
  {
    var me := s.clients[conn];
    me.room.Some? && me.room.value in owners && owners[me.room.value] == me.userId
  }

  /** The connections a kick may hit; the dictionary order decides between several. */
  predicate Kickable(s: State, conn: Conn, username: string, target: Conn)
    requires conn in s.clients
  {
    target in s.clients && s.clients[target].username == username && s.clients[target].room == s.clients[conn].room
  }

  ghost predicate ValidPick(s: State, conn: Conn, username: string, owners: map<string, int>, pick: Option<Conn>) {
    conn in s.clients && OwnsRoom(s, conn, owners) ==>
      match pick
      case Some(target) => Kickable(s, conn, username, target)
      case None => forall c :: !Kickable(s, conn, username, c)
  }

  function Kick(s: State, conn: Conn, owners: map<string, int>, pick: Option<Conn>): (State, Reply) {
    if conn !in s.clients then (s, InvalidToken)
    else if !OwnsRoom(s, conn, owners) then (s, PermissionDenied)
    else
      match pick
      case None => (s, UserNotFound)
      case Some(target) => (Cleanup(s, target), Done)
  }

  // ---- the two indexes agree ----

  function Members(clients: map<Conn, Client>, room: string): set<Conn> {
    set c | c in clients && clients[c].room == Some(room)
  }

  function Occupied(clients: map<Conn, Client>): set<string> {
    set c | c in clients && clients[c].room.Some? :: clients[c].room.value
  }

  /** The room index the clients dictionary implies: no empty room, no stranger in a room. */
  function Index(clients: map<Conn, Client>): map<string, set<Conn>> {
    map r | r in Occupied(clients) :: Members(clients, r)
  }

  predicate Agrees(s: State) {
    s.rooms == Index(s.clients)
  }

  /** The recipients of a broadcast. */
  function Targets(s: State, room: string): set<Conn> {
    if room in s.rooms then s.rooms[room] else {}
  }

  lemma AgreementMeans(s: State)
    requires Agrees(s)
    ensures forall c, r :: c in Targets(s, r) <==> c in s.clients && s.clients[c].room == Some(r)
    ensures forall r <- s.rooms :: s.rooms[r] != {}
    ensures forall q, r :: q != r ==> Targets(s, q) !! Targets(s, r)
  {
    forall r | r in s.rooms
      ensures s.rooms[r] != {}
    {
      var c :| c in s.clients && s.clients[c].room == Some(r);
      assert c in Members(s.clients, r);
    }
    forall c, r
      ensures c in Targets(s, r) <==> c in s.clients && s.clients[c].room == Some(r)
    {
      if c in s.clients && s.clients[c].room == Some(r) {
        assert r in Occupied(s.clients);
      }
    }
  }

  lemma InOccupied(clients: map<Conn, Client>, c: Conn)
    requires c in clients && clients[c].room.Some?
    ensures clients[c].room.value in Occupied(clients)
  {}

  /** The converse: these facts leave no freedom in the room index. */
  lemma AgreementIff(s: State)
    requires forall c, r :: c in Targets(s, r) <==> c in s.clients && s.clients[c].room == Some(r)
    requires forall r <- s.rooms :: s.rooms[r] != {}
    ensures Agrees(s)
  {
    var index := Index(s.clients);
    forall r
      ensures r in s.rooms <==> r in index
      ensures r in s.rooms ==> s.rooms[r] == index[r]
    {
      if r in s.rooms {
        var c :| c in s.rooms[r];
        assert c in Targets(s, r);
        InOccupied(s.clients, c);
        assert forall d :: d in s.rooms[r] <==> d in Targets(s, r);
      } else {
        assert forall c :: c !in Targets(s, r);
      }
    }
  }

  /** Connection `conn` is in `room` and every other membership is as before. */
  ghost predicate Moved(s: State, after: State, conn: Conn, room: Option<string>) {
    && Agrees(after)
    && (forall c :: c != conn ==> (c in after.clients <==> c in s.clients))
    && (forall c <- s.clients :: c != conn ==> after.clients[c] == s.clients[c])
    && (forall r :: Targets(after, r) == if room == Some(r) then Targets(s, r) + {conn} else Targets(s, r) - {conn})
  }

  lemma LeaveMoves(s: State, conn: Conn)
    requires Agrees(s) && conn in s.clients
    ensures Moved(s, LeaveLogic(s, conn), conn, None)
    ensures conn in LeaveLogic(s, conn).clients && LeaveLogic(s, conn).clients[conn] == s.clients[conn].(room := None)
  {
    AgreementMeans(s);
    var after := LeaveLogic(s, conn);
    assert s.clients[conn].room.Some? ==> conn in Targets(s, s.clients[conn].room.value);
    forall r
      ensures Targets(after, r) == Targets(s, r) - {conn}
    {
      if s.clients[conn].room != Some(r) {
        assert conn !in Targets(s, r);
      } else {
        assert conn in Targets(s, r);
      }
    }
    AgreementIff(after);
  }

  lemma PutMoves(s: State, conn: Conn, room: string)
    requires Agrees(s) && conn in s.clients && s.clients[conn].room.None?
    ensures Agrees(Put(s, conn, room))
    ensures forall r :: Targets(Put(s, conn, room), r) == if r == room then Targets(s, r) + {conn} else Targets(s, r)
  {
    AgreementMeans(s);
    AgreementIff(Put(s, conn, room));
  }

  lemma OutThenIn(s: State, left: State, after: State, conn: Conn, room: string)
    requires Moved(s, left, conn, None) && Agrees(after)
    requires forall c :: c != conn ==> (c in after.clients <==> c in left.clients)
    requires forall c <- left.clients :: c != conn ==> after.clients[c] == left.clients[c]
    requires forall r :: Targets(after, r) == if r == room then Targets(left, r) + {conn} else Targets(left, r)
    ensures Moved(s, after, conn, Some(room))
  {
    hide Agrees, Targets;
    forall r
      ensures Targets(after, r) == if Some(room) == Some(r) then Targets(s, r) + {conn} else Targets(s, r) - {conn}
    {
      assert Targets(left, r) == Targets(s, r) - {conn};
    }
  }

  lemma JoinMoves(s: State, conn: Conn, room: string)
    requires Agrees(s) && conn in s.clients && room != ""
    ensures Moved(s, Join(s, conn, room).0, conn, Some(room))
    ensures conn in Join(s, conn, room).0.clients
    ensures Join(s, conn, room).0.clients[conn] == s.clients[conn].(room := Some(room))
  {
    hide Agrees, LeaveLogic, Targets;
    LeaveMoves(s, conn);
    var left := LeaveLogic(s, conn);
    assert Agrees(left);
    hide Moved;
    PutMoves(left, conn, room);
    OutThenIn(s, left, Put(left, conn, room), conn, room);
  }

  lemma CleanupMoves(s: State, conn: Conn)
    requires Agrees(s)
    ensures Moved(s, Cleanup(s, conn), conn, None)
    ensures conn !in Cleanup(s, conn).clients
    ensures Cleanup(Cleanup(s, conn), conn) == Cleanup(s, conn)
  {
    AgreementMeans(s);
    if conn in s.clients {
      LeaveMoves(s, conn);
      var left, after := LeaveLogic(s, conn), Cleanup(s, conn);
      AgreementMeans(left);
      assert forall r :: Targets(after, r) == Targets(left, r);
      AgreementIff(after);
    } else {
      assert forall r :: conn !in Targets(s, r);
    }
  }

  /** A connection that authenticates again while in a room stays in the room set and forgets it. */
  lemma AuthenticateKeepsIff(s: State, conn: Conn, user: (int, string))
    requires Agrees(s)
    ensures Agrees(Authenticate(s, conn, true, Valid(user)).0) <==> conn !in s.clients || s.clients[conn].room.None?
  {
    AgreementMeans(s);
    var after := Authenticate(s, conn, true, Valid(user)).0;
    assert forall r :: Targets(after, r) == Targets(s, r);
    if conn !in s.clients || s.clients[conn].room.None? {
      AgreementIff(after);
    } else {
      var r := s.clients[conn].room.value;
      assert conn in Targets(after, r);
      if Agrees(after) {
        AgreementMeans(after);
        assert false;
      }
    }
  }

  // ---- runs ----

  datatype Event =
    | Auth(conn: Conn, hasToken: bool, verdict: Verdict)
    | Enter(conn: Conn, room: string)
    | Exit(conn: Conn)
    | Expel(conn: Conn, username: string, owners: map<string, int>, pick: Option<Conn>)
    | Disconnect(conn: Conn)

  function Step(s: State, e: Event): (State, Reply) {
    match e
    case Auth(conn, hasToken, verdict) => Authenticate(s, conn, hasToken, verdict)
    case Enter(conn, room) => Join(s, conn, room)
    case Exit(conn) => Leave(s, conn)
    case Expel(conn, _, owners, pick) => Kick(s, conn, owners, pick)
    case Disconnect(conn) => (Cleanup(s, conn), Done)
  }

  /** A connection authenticates only while it is in no room. */
  ghost predicate Allowed(s: State, e: Event) {
    && (e.Auth? && e.hasToken && e.verdict.Valid? ==> e.conn !in s.clients || s.clients[e.conn].room.None?)
    && (e.Expel? ==> ValidPick(s, e.conn, e.username, e.owners, e.pick))
  }

  function Run(s: State, events: seq<Event>): State {
    if events == [] then s else Step(Run(s, events[..|events| - 1]), events[|events| - 1]).0
  }

  ghost predicate AllAllowed(s: State, events: seq<Event>) {
    events == [] ||
    (AllAllowed(s, events[..|events| - 1]) && Allowed(Run(s, events[..|events| - 1]), events[|events| - 1]))
  }

  lemma StepKeepsAgreement(s: State, e: Event)
    requires Agrees(s) && Allowed(s, e)
    ensures Agrees(Step(s, e).0)
  {
    match e
    case Auth(conn, hasToken, verdict) =>
      if hasToken && verdict.Valid? {
        AuthenticateKeepsIff(s, conn, verdict.user);
      }
    case Enter(conn, room) =>
      if room != "" && conn in s.clients {
        JoinMoves(s, conn, room);
      }
    case Exit(conn) =>
      if conn in s.clients {
        LeaveMoves(s, conn);
      }
    case Expel(_, _, _, pick) =>
      if pick.Some? {
        CleanupMoves(s, pick.value);
      }
    case Disconnect(conn) => CleanupMoves(s, conn);
  }

  lemma {:induction false} RunKeepsAgreement(s: State, events: seq<Event>)
    requires Agrees(s) && AllAllowed(s, events)
    ensures Agrees(Run(s, events))
  {
    if events != [] {
      RunKeepsAgreement(s, events[..|events| - 1]);
      StepKeepsAgreement(Run(s, events[..|events| - 1]), events[|events| - 1]);
    }
  }

  /** Over every run from a fresh server, a broadcast to a room reaches exactly the connections
      whose current room it is. */
  lemma BroadcastsStayInRoom(events: seq<Event>, room: string)
    requires AllAllowed(EMPTY, events)
    ensures var s := Run(EMPTY, events);
            forall c :: c in Targets(s, room) <==> c in s.clients && s.clients[c].room == Some(room)
  {
    assert Agrees(EMPTY) by {
      assert Index(map[]) == map[];
    }
    RunKeepsAgreement(EMPTY, events);
    AgreementMeans(Run(EMPTY, events));
  }

  /** Authenticating again inside a room leaves a member behind that no disconnect removes. */
  lemma StaleMember(user: (int, string))
    ensures var s := Run(EMPTY, [Auth(1, true, Valid(user)), Enter(1, "a"), Auth(1, true, Valid(user)), Disconnect(1)]);
            1 !in s.clients && Targets(s, "a") == {1}
  {
    var auth, enter, gone := Auth(1, true, Valid(user)), Enter(1, "a"), Disconnect(1);
    var s1 := State(map[1 := Client(user.0, user.1, None)], map[]);
    var s2 := State(map[1 := Client(user.0, user.1, Some("a"))], map["a" := {1}]);
    var s3 := State(map[1 := Client(user.0, user.1, None)], map["a" := {1}]);
    assert Step(EMPTY, auth).0 == s1;
    assert Step(s1, enter).0 == s2 by {
      assert LeaveLogic(s1, 1) == s1;
      assert Put(s1, 1, "a").rooms["a"] == {1};
    }
    assert Step(s2, auth).0 == s3;
    assert Step(s3, gone).0 == State(map[], map["a" := {1}]) by {
      assert s3.clients - {1} == map[];
    }
    assert [auth, enter, auth, gone][..3] == [auth, enter, auth];
    assert [auth, enter, auth][..2] == [auth, enter];
    assert [auth, enter][..1] == [auth];
    assert Run(EMPTY, [auth]) == s1;
    assert Run(EMPTY, [auth, enter]) == s2;
    assert Run(EMPTY, [auth, enter, auth]) == s3;
  }

  class RoomTable {
    var clients: map<Conn, Client>
    var rooms: map<string, set<Conn>>

    ghost function Snapshot(): State
      reads this
    {
      State(clients, rooms)
    }

    constructor ()
      ensures Snapshot() == EMPTY
    {
      clients, rooms := map[], map[];
    }

    method HandleAuthBackend(conn: Conn, hasToken: bool, verdict: Verdict) returns (reply: Reply)
      modifies this`clients
      ensures (Snapshot(), reply) == Authenticate(old(Snapshot()), conn, hasToken, verdict)
    {
      if !hasToken {
        return MissingField;
      }
      match verdict
      case Valid(user) =>
        clients := clients[conn := Client(user.0, user.1, None)];
        return Done;
      case Invalid =>
        return InvalidToken;
      case Unreachable =>
        return InternalError;
    }

    method LeaveRoomLogic(conn: Conn)
      requires conn in clients
      modifies this
      ensures Snapshot() == LeaveLogic(old(Snapshot()), conn)
    {
      var room := clients[conn].room;
      if room.Some? && room.value in rooms {
        rooms := rooms[room.value := rooms[room.value] - {conn}];
        if rooms[room.value] == {} {
          rooms := rooms - {room.value};
        }
        clients := clients[conn := clients[conn].(room := None)];
        assert rooms == LeaveLogic(old(Snapshot()), conn).rooms;
      }
    }

    method HandleJoinRoom(conn: Conn, room: string) returns (reply: Reply)
      modifies this
      ensures (Snapshot(), reply) == Join(old(Snapshot()), conn, room)
    {
      if room == "" {
        return MissingField;
      }
      if conn !in clients {
        return InvalidToken;
      }
      if clients[conn].room.Some? {
        LeaveRoomLogic(conn);
      }
      if room !in rooms {
        rooms := rooms[room := {}];
      }
      rooms := rooms[room := rooms[room] + {conn}];
      clients := clients[conn := clients[conn].(room := Some(room))];
      assert rooms == Join(old(Snapshot()), conn, room).0.rooms;
      return Done;
    }

    method HandleLeaveRoom(conn: Conn) returns (reply: Reply)
      modifies this
      ensures (Snapshot(), reply) == Leave(old(Snapshot()), conn)
    {
      if conn !in clients {
        return InvalidToken;
      }
      if clients[conn].room.None? {
        return NotInRoom;
      }
      LeaveRoomLogic(conn);
      return Done;
    }

    method CleanupClient(conn: Conn)
      modifies this
      ensures Snapshot() == Cleanup(old(Snapshot()), conn)
    {
      if conn in clients {
        LeaveRoomLogic(conn);
        clients := clients - {conn};
      }
    }

    method HandleKickUser(conn: Conn, username: string, owners: map<string, int>)
      returns (reply: Reply, ghost pick: Option<Conn>)
      modifies this
      ensures ValidPick(old(Snapshot()), conn, username, owners, pick)
      ensures (Snapshot(), reply) == Kick(old(Snapshot()), conn, owners, pick)
    {
      pick := None;
      if conn !in clients {
        return InvalidToken, None;
      }
      var me := clients[conn];
      if me.room.None? || me.room.value !in owners || owners[me.room.value] != me.userId {
        return PermissionDenied, None;
      }
      var unseen := clients.Keys;
      while unseen != {}
        invariant unseen <= clients.Keys
        invariant forall c :: c in clients.Keys - unseen ==> !Kickable(Snapshot(), conn, username, c)
      {
        var target :| target in unseen;
        if clients[target].username == username && clients[target].room == me.room {
          CleanupClient(target);
          return Done, Some(target);
        }
        unseen := unseen - {target};
      }
      assert forall c :: Kickable(Snapshot(), conn, username, c) ==> c in clients.Keys - unseen;
      return UserNotFound, None;
    }

    /** Send to every member of the room set, in any order. */
    method BroadcastToRoom(room: string) returns (sent: seq<Conn>)
      ensures multiset(sent) == multiset(Targets(Snapshot(), room))
    {
      sent := [];
      if room !in rooms {
        return;
      }
      var left := rooms[room];
      while left != {}
        invariant multiset(sent) + multiset(left) == multiset(rooms[room])
      {
        var c :| c in left;
        sent, left := sent + [c], left - {c};
      }
    }
  }
}
