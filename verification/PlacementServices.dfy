/** The three gateway services behind room placement, with their dictionaries and tables. */
module PlacementServices {
  import opened Wrappers
  import opened Placement

  class BackendService {
    var backends: map<ServerId, Backend>
    var servers: map<ServerId, ServerRow>

    /** The registry part of the state; it has no rooms. */
    ghost function Registry(): State
      reads this
    {
      State(backends, servers, map[], map[], 1)
    }

    constructor (servers: map<ServerId, ServerRow>)
      ensures backends == map[] && this.servers == servers
    {
      backends, this.servers := map[], servers;
    }

    method RegisterBackend(id: ServerId, host: string, port: int, now: int)
      modifies this
      ensures Registry() == Register(old(Registry()), id, host, port, now)
    {
      backends := backends[id := Backend(host, port, true, now, Stats(0, 0, 0))];
      servers := servers[id := ServerRow(host, port, true)];
    }

    /** `dict.update` with the counters that the heartbeat carries. */
    method UpdateStats(id: ServerId, report: Report)
      requires id in backends
      modifies this`backends
      ensures backends == old(backends)[id := old(backends)[id].(stats := report.Onto(old(backends)[id].stats))]
    {
      var stats := backends[id].stats;
      if report.rooms.Some? {
        stats := stats.(rooms := report.rooms.value);
      }
      if report.clients.Some? {
        stats := stats.(clients := report.clients.value);
      }
      if report.transfers.Some? {
        stats := stats.(transfers := report.transfers.value);
      }
      backends := backends[id := backends[id].(stats := stats)];
    }

    method UpdateHeartbeat(id: ServerId, report: Report, now: int)
      modifies this
      ensures Registry() == Heartbeat(old(Registry()), id, report, now)
    {
      if id !in backends {
        return;
      }
      backends := backends[id := backends[id].(lastHeartbeat := now)];
      backends := backends[id := backends[id].(alive := true)];
      UpdateStats(id, report);
      if id in servers {
        servers := servers[id := servers[id].(alive := true)];
      }
    }

    method GetAliveBackends() returns (alive: map<ServerId, Backend>)
      ensures alive == Alive(Registry())
    {
      alive := map[];
      var unseen := backends.Keys;
      while unseen != {}
        invariant unseen <= backends.Keys
        invariant alive == map i | i in backends && backends[i].alive && i !in unseen :: backends[i]
      {
        var id :| id in unseen;
        if backends[id].alive {
          alive := alive[id := backends[id]];
        }
        unseen := unseen - {id};
      }
    }

    /** The entries, under the lock. */
    method MarkLateBackends(now: int) returns (down: set<ServerId>)
      modifies this`backends
      ensures backends == Sweep(old(Registry()), now).backends
      ensures down == set i | i in old(backends) && Late(old(backends)[i], now)
    {
      ghost var before := backends;
      var unseen := backends.Keys;
      down := {};
      while unseen != {}
        invariant unseen <= before.Keys == backends.Keys
        invariant down == set i | i in before && i !in unseen && Late(before[i], now)
        invariant forall i <- before :: backends[i] == if i in down then before[i].(alive := false) else before[i]
      {
        var id :| id in unseen;
        if backends[id].alive && backends[id].lastHeartbeat < now - TIMEOUT {
          down := down + {id};
          backends := backends[id := backends[id].(alive := false)];
        }
        unseen := unseen - {id};
      }
    }

    /** The rows afterwards, one statement each. */
    method WriteDown(down: set<ServerId>)
      modifies this`servers
      ensures servers == map i | i in old(servers) :: if i in down
                                                      then old(servers)[i].(alive := false)
                                                      else old(servers)[i]
    {
      ghost var before := servers;
      var left := down;
      while left != {}
        invariant left <= down && servers.Keys == before.Keys
        invariant forall i <- before :: servers[i] == if i in down - left then before[i].(alive := false) else before[i]
      {
        var id :| id in left;
        if id in servers {
          servers := servers[id := servers[id].(alive := false)];
        }
        left := left - {id};
      }
    }

    method CheckTimeouts(now: int)
      modifies this
      ensures Registry() == Sweep(old(Registry()), now)
    {
      var down := MarkLateBackends(now);
      WriteDown(down);
      assert servers == Sweep(old(Registry()), now).servers;
    }
  }

  class LoadBalancer {
    const backendService: BackendService

    constructor (backendService: BackendService)
      ensures this.backendService == backendService
    {
      this.backendService := backendService;
    }

    /** Whatever order the dictionary lists the servers in, the least (score, identifier) wins. */
    method SelectBackend() returns (choice: Option<ServerId>)
      ensures choice.None? <==> Alive(backendService.Registry()) == map[]
      ensures choice.Some? ==> Best(Alive(backendService.Registry()), choice.value)
    {
      var alive := backendService.GetAliveBackends();
      choice := None;
      var minScore := 0;
      var unseen := alive.Keys;
      while unseen != {}
        invariant unseen <= alive.Keys
        invariant choice.None? <==> unseen == alive.Keys
        invariant choice.Some? ==> choice.value in alive.Keys - unseen && minScore == alive[choice.value].Score()
        invariant choice.Some? ==> forall other <- alive.Keys - unseen :: !Better(alive, other, choice.value)
      {
        var id :| id in unseen;
        var score := alive[id].Score();
        ghost var best := choice;
        if choice.None? || score < minScore {
          minScore, choice := score, Some(id);
        } else if score == minScore && Before(id, choice.value) {
          choice := Some(id);
        }
        BestSoFar(alive, alive.Keys - unseen, best, id, choice);
        unseen := unseen - {id};
        assert alive.Keys - unseen == alive.Keys - (unseen + {id}) + {id};
      }
      assert alive.Keys - unseen == alive.Keys;
    }
  }

  lemma BestSoFar(alive: map<ServerId, Backend>, seen: set<ServerId>, best: Option<ServerId>, id: ServerId,
                  chosen: Option<ServerId>)
    requires seen <= alive.Keys && id in alive && (best.None? ==> seen == {})
    requires best.Some? ==> best.value in seen && forall other <- seen :: !Better(alive, other, best.value)
    requires chosen == if best.None? || Better(alive, id, best.value) then Some(id) else best
    ensures forall other <- seen + {id} :: !Better(alive, other, chosen.value)
  {
    forall other | other in seen + {id}
      ensures !Better(alive, other, chosen.value)
    {
      BeforeTotal(id, id);
      if best.Some? && other in seen && Better(alive, id, best.value) && Better(alive, other, id) {
        if Before(other, id) && Before(id, best.value) {
          BeforeTransitive(other, id, best.value);
        }
      }
    }
  }

  class RoomDirectoryService {
    const backendService: BackendService
    const loadBalancer: LoadBalancer
    var rooms: map<string, RoomRow>
    var mapping: map<string, RoomRow>
    var nextRoom: nat

    ghost function Snapshot(): State
      reads this, backendService
    {
      State(backendService.backends, backendService.servers, rooms, mapping, nextRoom)
    }

    constructor (backendService: BackendService, loadBalancer: LoadBalancer)
      ensures this.backendService == backendService && this.loadBalancer == loadBalancer
      ensures rooms == map[] && mapping == map[] && nextRoom == 1
    {
      this.backendService, this.loadBalancer := backendService, loadBalancer;
      rooms, mapping, nextRoom := map[], map[], 1;
    }

    method CreateRoom(name: string) returns (reply: Reply, ghost choice: Option<ServerId>)
      requires loadBalancer.backendService == backendService
      modifies this
      ensures Allowed(old(Snapshot()), CreateEvent(name, choice))
      ensures (Snapshot(), reply) == Step(old(Snapshot()), CreateEvent(name, choice))
    {
      choice := None;
      if name in rooms {
        return RoomAlreadyExists, None;
      }
      var picked := loadBalancer.SelectBackend();
      assert Alive(backendService.Registry()) == Alive(Snapshot());
      choice := picked;
      if picked.None? || picked.value == "" {
        return BackendDown, choice;
      }
      var id := picked.value;
      if id !in backendService.servers || name in mapping {
        return InternalError, choice;
      }
      rooms := rooms[name := RoomRow(nextRoom, id)];
      mapping := mapping[name := RoomRow(nextRoom, id)];
      var info := backendService.backends[id];
      reply := Assigned(nextRoom, id, info.host, info.port);
      nextRoom := nextRoom + 1;
    }

    method JoinRoom(name: string) returns (reply: Reply)
      ensures reply == Join(Snapshot(), name)
    {
      if name !in mapping || mapping[name].serverId !in backendService.servers {
        return RoomNotFound;
      }
      var row := mapping[name];
      var server := backendService.servers[row.serverId];
      if !server.alive {
        return BackendDown;
      }
      return Located(row.roomId, row.serverId, server.host, server.port);
    }
  }
}
