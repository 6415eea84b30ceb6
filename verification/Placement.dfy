/** Which process server a room lives on: registry, load balancer and room directory. */
module Placement {
  import opened Wrappers

  type ServerId = string

  const TIMEOUT := 15

  datatype Stats = Stats(rooms: int, clients: int, transfers: int)

  /** What a heartbeat reports; a counter it leaves out stays as it was. */
  datatype Report = Report(rooms: Option<int>, clients: Option<int>, transfers: Option<int>) {
    function Onto(stats: Stats): Stats {
      Stats(if rooms.Some? then rooms.value else stats.rooms,
            if clients.Some? then clients.value else stats.clients,
            if transfers.Some? then transfers.value else stats.transfers)
    }
  }

  datatype Backend = Backend(host: string, port: int, alive: bool, lastHeartbeat: int, stats: Stats) {
    function Score(): int {
      stats.rooms * 10 + stats.clients + stats.transfers * 2
    }
  }

  /** A `backend_servers` row, which outlives the gateway process. */
  datatype ServerRow = ServerRow(host: string, port: int, alive: bool)

  /** A `rooms` or `room_mapping` row; room names are unique in both tables. */
  datatype RoomRow = RoomRow(roomId: nat, serverId: ServerId)

  datatype State = State(
    backends: map<ServerId, Backend>, servers: map<ServerId, ServerRow>,
    rooms: map<string, RoomRow>, mapping: map<string, RoomRow>, nextRoom: nat)

  const EMPTY := State(map[], map[], map[], map[], 1)

  datatype Reply =
    | Assigned(roomId: nat, serverId: ServerId, host: string, port: int)
    | Located(roomId: nat, serverId: ServerId, host: string, port: int)
    | RoomAlreadyExists
    | RoomNotFound
    | BackendDown
    | InternalError
    | Silence

  // ---- the order the load balancer minimises ----

  /** Strings by code point, as the balancer breaks ties. */
  predicate Before(a: string, b: string) {
    b != "" && (a == "" || a[0] < b[0] || (a[0] == b[0] && Before(a[1..], b[1..])))
  }

  predicate Better(alive: map<ServerId, Backend>, a: ServerId, b: ServerId)
    requires a in alive && b in alive
  {
    alive[a].Score() < alive[b].Score() || (alive[a].Score() == alive[b].Score() && Before(a, b))
  }

  lemma {:induction false} BeforeTotal(a: string, b: string)
    ensures a != b ==> (Before(a, b) <==> !Before(b, a))
    ensures a == b ==> !Before(a, b)
  {
    if a != "" && b != "" {
      assert a == [a[0]] + a[1..] && b == [b[0]] + b[1..];
      BeforeTotal(a[1..], b[1..]);
    }
  }

  lemma {:induction false} BeforeTransitive(a: string, b: string, c: string)
    requires Before(a, b) && Before(b, c)
    ensures Before(a, c)
  {
    if a != "" && a[0] == b[0] && b[0] == c[0] {
      BeforeTransitive(a[1..], b[1..], c[1..]);
    }
  }

  function Alive(s: State): map<ServerId, Backend> {
    map i | i in s.backends && s.backends[i].alive :: s.backends[i]
  }

  /** The least (score, identifier) pair. */
  ghost predicate Best(alive: map<ServerId, Backend>, id: ServerId) {
    id in alive && forall other <- alive :: !Better(alive, other, id)
  }

  lemma BestIsUnique(alive: map<ServerId, Backend>, a: ServerId, b: ServerId)
    requires Best(alive, a) && Best(alive, b)
    ensures a == b
  {
    BeforeTotal(a, b);
  }

  // ---- steps ----

  function Register(s: State, id: ServerId, host: string, port: int, now: int): State {
    s.(backends := s.backends[id := Backend(host, port, true, now, Stats(0, 0, 0))],
       servers := s.servers[id := ServerRow(host, port, true)])
  }

  function Heartbeat(s: State, id: ServerId, report: Report, now: int): State {
    if id !in s.backends then
      s
    else
      var info := s.backends[id].(lastHeartbeat := now, alive := true);
      s.(backends := s.backends[id := info.(stats := report.Onto(info.stats))],
         servers := if id in s.servers then s.servers[id := s.servers[id].(alive := true)] else s.servers)
  }

  predicate Late(info: Backend, now: int) {
    info.alive && info.lastHeartbeat < now - TIMEOUT
  }

  /** `ids` are the servers the sweep has dealt with so far. */
  function MarkDown(s: State, ids: set<ServerId>, now: int): State {
    s.(backends := map i | i in s.backends :: if i in ids && Late(s.backends[i], now)
                                              then s.backends[i].(alive := false)
                                              else s.backends[i],
       servers := map i | i in s.servers :: if i in ids && i in s.backends && Late(s.backends[i], now)
                                            then s.servers[i].(alive := false)
                                            else s.servers[i])
  }

  function Sweep(s: State, now: int): State {
    MarkDown(s, s.backends.Keys, now)
  }

  /** `choice` is what the balancer picked. An empty identifier counts as no server. */
  function Create(s: State, name: string, choice: Option<ServerId>): (State, Reply) {
    if name in s.rooms then
      (s, RoomAlreadyExists)
    else if choice.None? || choice.value == "" then
      (s, BackendDown)
    else if choice.value !in s.backends || choice.value !in s.servers || name in s.mapping then
      (s, InternalError)
    else
      var row, info := RoomRow(s.nextRoom, choice.value), s.backends[choice.value];
      (s.(rooms := s.rooms[name := row], mapping := s.mapping[name := row], nextRoom := s.nextRoom + 1),
       Assigned(s.nextRoom, choice.value, info.host, info.port))
  }

  function Join(s: State, name: string): Reply {
    if name !in s.mapping || s.mapping[name].serverId !in s.servers then
      RoomNotFound
    else
      var row := s.mapping[name];
      var server := s.servers[row.serverId];
      if !server.alive then BackendDown else Located(row.roomId, row.serverId, server.host, server.port)
  }

  datatype Event =
    | RegisterEvent(id: ServerId, host: string, port: int, now: int)
    | HeartbeatEvent(id: ServerId, report: Report, now: int)
    | SweepEvent(now: int)
    | CreateEvent(name: string, choice: Option<ServerId>)
    | JoinEvent(name: string)
    | RestartEvent  // the registry starts empty again; the tables stay

  /** The balancer is asked when the name is free, and picks the least loaded server. */
  ghost predicate Allowed(s: State, e: Event) {
    e.CreateEvent? && e.name !in s.rooms ==>
      if e.choice.Some? then Best(Alive(s), e.choice.value) else Alive(s) == map[]
  }

  function Step(s: State, e: Event): (State, Reply) {
    match e
    case RegisterEvent(id, host, port, now) => (Register(s, id, host, port, now), Silence)
    case HeartbeatEvent(id, report, now) => (Heartbeat(s, id, report, now), Silence)
    case SweepEvent(now) => (Sweep(s, now), Silence)
    case CreateEvent(name, choice) => Create(s, name, choice)
    case JoinEvent(name) => (s, Join(s, name))
    case RestartEvent => (s.(backends := map[]), Silence)
  }

  function Run(history: seq<Event>): State {
    if history == [] then EMPTY else Step(Run(history[..|history| - 1]), history[|history| - 1]).0
  }

  ghost predicate AllAllowed(history: seq<Event>) {
    history == [] ||
    (AllAllowed(history[..|history| - 1]) && Allowed(Run(history[..|history| - 1]), history[|history| - 1]))
  }

  /** What event `k` was answered. */
  function Answer(history: seq<Event>, k: nat): Reply
    requires k < |history|
  {
    Step(Run(history[..k]), history[k]).1
  }

  // ---- one server on its own ----

  /** What the events say about one server: its last registration, whether the current gateway
      process has seen it, its last sign of life, whether a sweep has missed it since, and what it
      last reported of each counter. */
  datatype Standing = Standing(
    host: string, port: int, known: bool, lastHeartbeat: int, alive: bool, rooms: int, clients: int, transfers: int)
  {
    /** How much it has to do: a room weighs as much as ten clients, a transfer as much as two. */
    function Load(): int {
      10 * rooms + clients + 2 * transfers
    }
  }

  function Reported(counter: Option<int>, before: int): int {
    match counter
    case Some(n) => n
    case None => before
  }

  function Age(server: Option<Standing>, e: Event, id: ServerId): Option<Standing> {
    match e
    case RegisterEvent(i, host, port, now) =>
      if i == id then Some(Standing(host, port, true, now, true, 0, 0, 0)) else server
    case HeartbeatEvent(i, report, now) =>
      if i == id && server.Some? && server.value.known
      then Some(server.value.(lastHeartbeat := now, alive := true,
                              rooms := Reported(report.rooms, server.value.rooms),
                              clients := Reported(report.clients, server.value.clients),
                              transfers := Reported(report.transfers, server.value.transfers)))
      else server
    case SweepEvent(now) =>
      if server.Some? && server.value.known && now - server.value.lastHeartbeat > 15
      then Some(server.value.(alive := false))
      else server
    case RestartEvent => if server.Some? then Some(server.value.(known := false)) else None
    case _ => server
  }

  function Standings(history: seq<Event>, id: ServerId): Option<Standing> {
    if history == [] then None else Age(Standings(history[..|history| - 1], id), history[|history| - 1], id)
  }

  /** Registry and table both say about `id` what its own events say. */
  ghost predicate Reflects(s: State, id: ServerId, server: Option<Standing>) {
    match server
    case None => id !in s.backends && id !in s.servers
    case Some(x) =>
      && id in s.servers && s.servers[id] == ServerRow(x.host, x.port, x.alive)
      && (id in s.backends <==> x.known)
      && (x.known ==> s.backends[id] == Backend(x.host, x.port, x.alive, x.lastHeartbeat,
                                                Stats(x.rooms, x.clients, x.transfers)))
  }

  lemma StepReflects(s: State, e: Event, id: ServerId, server: Option<Standing>)
    requires Reflects(s, id, server)
    ensures Reflects(Step(s, e).0, id, Age(server, e, id))
  {}

  lemma {:induction false} RegistryReflectsEvents(history: seq<Event>, id: ServerId)
    ensures Reflects(Run(history), id, Standings(history, id))
  {
    if history != [] {
      var before := history[..|history| - 1];
      RegistryReflectsEvents(before, id);
      StepReflects(Run(before), history[|history| - 1], id, Standings(before, id));
    }
  }

  // ---- rooms ----

  ghost predicate Directory(s: State) {
    && s.rooms == s.mapping
    && (forall name <- s.rooms :: s.rooms[name].roomId < s.nextRoom)
  }

  lemma {:induction false} DirectoryHolds(history: seq<Event>)
    ensures Directory(Run(history))
  {
    if history != [] {
      DirectoryHolds(history[..|history| - 1]);
    }
  }

  /** A room that is in the directory stays there as it is. */
  lemma {:induction false} RoomsStay(history: seq<Event>, k: nat, name: string)
    requires k <= |history| && name in Run(history[..k]).mapping
    ensures name in Run(history).mapping && Run(history).mapping[name] == Run(history[..k]).mapping[name]
  {
    if k < |history| {
      var before := history[..|history| - 1];
      assert before[..k] == history[..k];
      RoomsStay(before, k, name);
      DirectoryHolds(before);
    } else {
      assert history[..k] == history;
    }
  }

  lemma {:induction false} AllowedAt(history: seq<Event>, k: nat)
    requires AllAllowed(history) && k < |history|
    ensures Allowed(Run(history[..k]), history[k])
  {
    if k < |history| - 1 {
      assert history[..|history| - 1][..k] == history[..k];
      AllowedAt(history[..|history| - 1], k);
    }
  }

  // ---- creating ----

  predicate Serving(history: seq<Event>, id: ServerId) {
    Standings(history, id).Some? && Standings(history, id).value.known && Standings(history, id).value.alive
  }

  /** By what the servers themselves said: `id` serves, no serving server has less to do, and none with
      as much to do comes before it. */
  ghost predicate LeastLoaded(history: seq<Event>, id: ServerId) {
    && Serving(history, id)
    && forall other :: Serving(history, other) ==>
         var mine, its := Standings(history, id).value.Load(), Standings(history, other).value.Load();
         mine < its || (mine == its && !Before(other, id))
  }

  lemma AliveIsServing(history: seq<Event>, id: ServerId)
    ensures id in Alive(Run(history)) <==> Serving(history, id)
    ensures Serving(history, id) ==> Alive(Run(history))[id].Score() == Standings(history, id).value.Load()
    ensures Serving(history, id) ==> id in Run(history).servers
  {
    RegistryReflectsEvents(history, id);
  }

  lemma BestIsLeastLoaded(history: seq<Event>, id: ServerId)
    ensures Best(Alive(Run(history)), id) <==> LeastLoaded(history, id)
  {
    var alive := Alive(Run(history));
    AliveIsServing(history, id);
    forall other
      ensures other in alive <==> Serving(history, other)
      ensures other in alive ==> alive[other].Score() == Standings(history, other).value.Load()
    {
      AliveIsServing(history, other);
    }
  }

  /** How many creates have succeeded. */
  function Created(history: seq<Event>): nat {
    if history == [] then 0
    else
      var last := |history| - 1;
      Created(history[..last]) + if Step(Run(history[..last]), history[last]).1.Assigned? then 1 else 0
  }

  lemma {:induction false} RoomsAreNumbered(history: seq<Event>)
    ensures Run(history).nextRoom == Created(history) + 1
  {
    if history != [] {
      RoomsAreNumbered(history[..|history| - 1]);
    }
  }

  ghost predicate Taken(history: seq<Event>, name: string) {
    exists i :: 0 <= i < |history| && Creates(history, i, name)
  }

  lemma TakenMeansMapped(history: seq<Event>, name: string)
    ensures Taken(history, name) <==> name in Run(history).rooms
  {
    MappingHasCreate(history, name);
    DirectoryHolds(history);
    if i :| 0 <= i < |history| && Creates(history, i, name) {
      assert history[..i + 1][..i] == history[..i];
      RoomsStay(history, i + 1, name);
    }
  }

  /** What a create is answered, by the history alone: it is refused if the name is taken, or if no
      server serves that has a name; otherwise the least loaded server gets the room, under its last
      registered address and the next number. */
  lemma CreateAnswerIff(history: seq<Event>, name: string, choice: Option<ServerId>)
    requires Allowed(Run(history), CreateEvent(name, choice))
    ensures var reply := Step(Run(history), CreateEvent(name, choice)).1;
            && (reply == RoomAlreadyExists <==> Taken(history, name))
            && (reply == BackendDown <==>
                  !Taken(history, name) && forall id :: LeastLoaded(history, id) ==> id == "")
            && (reply.Assigned? <==>
                  !Taken(history, name) && exists id :: LeastLoaded(history, id) && id != "")
            && (reply.Assigned? ==>
                  && LeastLoaded(history, reply.serverId)
                  && var server := Standings(history, reply.serverId).value;
                     reply == Assigned(Created(history) + 1, reply.serverId, server.host, server.port))
  {
    TakenMeansMapped(history, name);
    DirectoryHolds(history);
    RoomsAreNumbered(history);
    forall id
      ensures LeastLoaded(history, id) <==> Best(Alive(Run(history)), id)
      ensures LeastLoaded(history, id) ==> choice == Some(id) || Taken(history, name)
    {
      BestIsLeastLoaded(history, id);
      if LeastLoaded(history, id) && choice.Some? && !Taken(history, name) {
        BestIsUnique(Alive(Run(history)), id, choice.value);
      }
    }
    if choice.Some? {
      RegistryReflectsEvents(history, choice.value);
    }
  }

  /** A create that succeeds is given the least loaded of the servers that are alive at that moment. */
  lemma CreatedOnBest(history: seq<Event>, i: nat)
    requires i < |history| && AllAllowed(history)
    requires history[i].CreateEvent? && Answer(history, i).Assigned?
    ensures Best(Alive(Run(history[..i])), Answer(history, i).serverId)
  {
    AllowedAt(history, i);
  }

  /** Under one name at most one create succeeds. */
  lemma OneCreatePerName(history: seq<Event>, i: nat, j: nat)
    requires i < j < |history|
    requires history[i].CreateEvent? && Answer(history, i).Assigned?
    requires history[j].CreateEvent? && history[j].name == history[i].name
    ensures Answer(history, j) == RoomAlreadyExists
  {
    assert history[..i + 1][..i] == history[..i];
    assert history[..j][..i + 1] == history[..i + 1];
    RoomsStay(history[..j], i + 1, history[i].name);
    DirectoryHolds(history[..j]);
  }

  /** Every later join is sent to that server, at the address it registered last, and is refused
      exactly while the server counts as down. */
  lemma RoomAffinity(history: seq<Event>, i: nat)
    requires i < |history| && history[i].CreateEvent? && Answer(history, i).Assigned?
    ensures var home := Answer(history, i);
            var server := Standings(history, home.serverId);
            && server.Some?
            && Join(Run(history), history[i].name) ==
               if server.value.alive
               then Located(home.roomId, home.serverId, server.value.host, server.value.port)
               else BackendDown
  {
    var home := Answer(history, i);
    assert history[..i + 1][..i] == history[..i];
    RoomsStay(history, i + 1, history[i].name);
    RegistryReflectsEvents(history[..i], home.serverId);
    StandingStays(history, i, home.serverId);
    RegistryReflectsEvents(history, home.serverId);
  }

  lemma {:induction false} StandingStays(history: seq<Event>, k: nat, id: ServerId)
    requires k <= |history| && Standings(history[..k], id).Some?
    ensures Standings(history, id).Some?
  {
    if k < |history| {
      assert history[..|history| - 1][..k] == history[..k];
      StandingStays(history[..|history| - 1], k, id);
    } else {
      assert history[..k] == history;
    }
  }

  /** Event `i` creates the room `name`. */
  predicate Creates(history: seq<Event>, i: nat, name: string)
    requires i < |history|
  {
    history[i].CreateEvent? && history[i].name == name && Answer(history, i).Assigned?
  }

  /** A name nobody created is not found. */
  lemma {:induction false} UnknownRoom(history: seq<Event>, name: string)
    ensures Join(Run(history), name) == RoomNotFound <==>
            forall i :: 0 <= i < |history| ==> !Creates(history, i, name)
  {
    MappingHasCreate(history, name);
    if i :| 0 <= i < |history| && Creates(history, i, name) {
      RoomAffinity(history, i);
    }
  }

  lemma {:induction false} MappingHasCreate(history: seq<Event>, name: string)
    ensures name in Run(history).mapping ==>
              exists i :: 0 <= i < |history| && Creates(history, i, name)
  {
    if history != [] {
      var last := |history| - 1;
      var before := history[..last];
      MappingHasCreate(before, name);
      if name in Run(before).mapping {
        var i :| 0 <= i < last && Creates(before, i, name);
        assert before[..i] == history[..i];
        assert Creates(history, i, name);
      } else if name in Run(history).mapping {
        assert Creates(history, last, name);
      }
    }
  }
}
