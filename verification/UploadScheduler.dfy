/** The `UploadQueue` object of the browser. What awaits inside `process` is split at the await:
    `Process` runs up to it, `CallSettled` is the rest. */
module UploadScheduler {
  import opened UploadQueue

  class Scheduler {
    var queue: seq<Id>
    var status: map<Id, Status>
    var transfers: set<Id>
    var activeCount: int
    const maxConcurrent: nat
    ghost var running: multiset<Id>

    ghost function Snapshot(): State
      reads this
    {
      State(queue, status, transfers, activeCount, maxConcurrent, running)
    }

    constructor (maxConcurrent: nat)
      ensures this.maxConcurrent == maxConcurrent
      ensures Snapshot() == Fresh(maxConcurrent) && Inv(Snapshot()) && Single(Snapshot())
    {
      queue, status, transfers, activeCount, running := [], map[], {}, 0, multiset{};
      this.maxConcurrent := maxConcurrent;
    }

    method FindIndex() returns (k: nat)
      ensures k == FindQueued(queue, status)
    {
      k := 0;
      while k < |queue| && !(queue[k] in status && status[queue[k]] == Queued)
        invariant k <= |queue|
        invariant FindQueued(queue, status) == k + FindQueued(queue[k..], status)
      {
        k := k + 1;
      }
      assert k == |queue| ==> queue[k..] == [];
    }

    method ProcessNext()
      modifies this
      ensures Snapshot() == Process(old(Snapshot()))
    {
      if activeCount >= maxConcurrent || queue == [] {
        return;
      }
      var next := FindIndex();
      if next == |queue| {
        return;
      }
      var id := queue[next];
      queue := queue[..next] + queue[next + 1..];
      status := status[id := Uploading];
      activeCount := activeCount + 1;
      running := running + multiset{id};
    }

    method AddFile(id: Id)
      modifies this
      ensures Snapshot() == Add(old(Snapshot()), id)
    {
      status := status[id := Queued];
      queue := queue + [id];
      transfers := transfers + {id};
      ProcessNext();
    }

    method PauseItem(id: Id)
      modifies this`status
      ensures Snapshot() == Pause(old(Snapshot()), id)
    {
      if id !in transfers || id !in status {
        return;
      }
      if status[id] == Uploading {
        status := status[id := Paused];
      } else if status[id] == Queued {
        status := status[id := Paused];
      }
    }

    method ResumeItem(id: Id)
      modifies this
      ensures Snapshot() == Resume(old(Snapshot()), id)
    {
      if id !in transfers || id !in status || status[id] != Paused {
        return;
      }
      status := status[id := Queued];
      queue := queue + [id];
      ProcessNext();
    }

    /** `queue.filter` */
    method RemoveFromQueue(id: Id)
      modifies this`queue
      ensures queue == Without(old(queue), id)
    {
      var kept: seq<Id> := [];
      var k := 0;
      while k < |queue|
        invariant k <= |queue| && queue == old(queue)
        invariant Without(queue, id) == kept + Without(queue[k..], id)
      {
        if queue[k] != id {
          kept := kept + [queue[k]];
        }
        k := k + 1;
      }
      assert Without(queue[k..], id) == [];
      queue := kept;
    }

    method CancelItem(id: Id)
      modifies this
      ensures Snapshot() == Cancel(old(Snapshot()), id)
    {
      if id !in transfers || id !in status {
        return;
      }
      var oldStatus := status[id];
      status := status[id := Cancelled];
      if oldStatus != Uploading {
        RemoveFromQueue(id);
      }
    }

    /** The `catch` and `finally` clauses, up to the next `process` call. */
    method EndCall(id: Id, ok: bool)
      requires id in status
      modifies this
      ensures Snapshot() == Ended(old(Snapshot()), id, ok)
    {
      if ok {
        status := status[id := Completed];
      } else if status[id] == Cancelled {
      } else if status[id] == Paused {
        queue := [id] + queue;
      } else {
        status := status[id := Failed];
      }
      activeCount := activeCount - 1;
      running := running - multiset{id};
      assert status == old(status)[id := status[id]];
    }

    method CallSettled(id: Id, ok: bool)
      requires id in status
      modifies this
      ensures Snapshot() == Settle(old(Snapshot()), id, ok)
    {
      hide Process, Ended;
      EndCall(id, ok);
      ProcessNext();
    }

    method ForgetItem(id: Id)
      modifies this`transfers
      ensures Snapshot() == Forget(old(Snapshot()), id)
    {
      transfers := transfers - {id};
    }
  }
}
