/** The browser's upload scheduler: single-threaded events on a queue of items. An item is named by
    its identifier, so two queue entries with one identifier are the same object. */
module UploadQueue {

  type Id = string

  datatype Status = Queued | Uploading | Paused | Cancelled | Completed | Failed

  /** `running` holds one entry per `uploadFile` call that has neither returned nor thrown. */
  datatype State = State(
    queue: seq<Id>, status: map<Id, Status>, transfers: set<Id>, active: int, max: nat, running: multiset<Id>)

  function Fresh(max: nat): State {
    State([], map[], {}, 0, max, multiset{})
  }

  /** The position of the first entry whose item is queued, or the length of the queue. */
  function FindQueued(queue: seq<Id>, status: map<Id, Status>): (k: nat)
    ensures k <= |queue|
    ensures k < |queue| ==> queue[k] in status && status[queue[k]] == Queued
    ensures forall j :: 0 <= j < k ==> !(queue[j] in status && status[queue[j]] == Queued)
  {
    if queue == [] || (queue[0] in status && status[queue[0]] == Queued) then 0 else 1 + FindQueued(queue[1..], status)
  }

  /** Start at most one queued item. */
  function Process(s: State): State {
    var k := FindQueued(s.queue, s.status);
    if s.active >= s.max || k == |s.queue| then
      s
    else
      var id := s.queue[k];
      s.(queue := s.queue[..k] + s.queue[k + 1..],
         status := s.status[id := Uploading],
         active := s.active + 1,
         running := s.running + multiset{id})
  }

  function Enqueued(s: State, id: Id): State {
    s.(queue := s.queue + [id], status := s.status[id := Queued], transfers := s.transfers + {id})
  }

  function Add(s: State, id: Id): State {
    Process(Enqueued(s, id))
  }

  predicate Known(s: State, id: Id) {
    id in s.transfers && id in s.status
  }

  function Pause(s: State, id: Id): State {
    if Known(s, id) && (s.status[id] == Uploading || s.status[id] == Queued)
    then s.(status := s.status[id := Paused])
    else s
  }

  function Requeued(s: State, id: Id): State {
    s.(status := s.status[id := Queued], queue := s.queue + [id])
  }

  function Resume(s: State, id: Id): State {
    if Known(s, id) && s.status[id] == Paused then Process(Requeued(s, id)) else s
  }

  function Without(queue: seq<Id>, id: Id): (r: seq<Id>)
    ensures forall x :: x in r <==> x in queue && x != id
  {
    if queue == [] then [] else (if queue[0] == id then [] else [queue[0]]) + Without(queue[1..], id)
  }

  /** An item whose upload runs keeps its other queue entries; any other item loses all of them. */
  function Cancel(s: State, id: Id): State {
    if !Known(s, id) then
      s
    else
      s.(status := s.status[id := Cancelled],
         queue := if s.status[id] == Uploading then s.queue else Without(s.queue, id))
  }

  /** What a call leaves its item as; `ok` says whether it returned or threw. */
  function Outcome(was: Status, ok: bool): Status {
    if ok then Completed else if was == Cancelled || was == Paused then was else Failed
  }

  function Ended(s: State, id: Id, ok: bool): State
    requires id in s.status
  {
    var now := Outcome(s.status[id], ok);
    s.(status := s.status[id := now],
       queue := if now == Paused then [id] + s.queue else s.queue,
       active := s.active - 1,
       running := s.running - multiset{id})
  }

  /** One `uploadFile` call of `id` ends. */
  function Settle(s: State, id: Id, ok: bool): State
    requires id in s.status
  {
    Process(Ended(s, id, ok))
  }

  /** The clean-up timers. */
  function Forget(s: State, id: Id): State {
    s.(transfers := s.transfers - {id})
  }

  datatype Event =
    | AddEvent(id: Id)
    | PauseEvent(id: Id)
    | ResumeEvent(id: Id)
    | CancelEvent(id: Id)
    | SettleEvent(id: Id, ok: bool)
    | ForgetEvent(id: Id)

  /** Identifiers are drawn at random, and only a running call can settle. */
  predicate Allowed(s: State, e: Event) {
    && (e.AddEvent? ==> e.id !in s.status)
    && (e.SettleEvent? ==> e.id in s.running && e.id in s.status)
  }

  function Step(s: State, e: Event): State
    requires Allowed(s, e)
  {
    match e
    case AddEvent(id) => Add(s, id)
    case PauseEvent(id) => Pause(s, id)
    case ResumeEvent(id) => Resume(s, id)
    case CancelEvent(id) => Cancel(s, id)
    case SettleEvent(id, ok) => Settle(s, id, ok)
    case ForgetEvent(id) => Forget(s, id)
  }

  // ---- the concurrency bound and work conservation ----

  ghost predicate Counted(s: State) {
    && s.active == |s.running| && s.active <= s.max
    && (forall id <- s.running :: id in s.status)
    && (forall id <- s.status :: s.status[id] == Uploading ==> id in s.running)
  }

  /** A queued item is in the queue. */
  ghost predicate Waiting(s: State) {
    forall id <- s.status :: s.status[id] == Queued ==> id in s.queue
  }

  /** Nothing waits while a slot is free. */
  ghost predicate Busy(s: State) {
    forall id <- s.status :: s.status[id] == Queued ==> s.active == s.max
  }

  ghost predicate Inv(s: State) {
    Counted(s) && Waiting(s) && Busy(s)
  }

  /** One `process` call is enough when the slots were full, or all that waits is `id`. */
  lemma ProcessRestoresBusy(s: State, id: Id)
    requires Counted(s) && Waiting(s)
    requires s.active + 1 >= s.max || forall other <- s.status :: other != id ==> s.status[other] != Queued
    ensures Inv(Process(s))
  {
    var k := FindQueued(s.queue, s.status);
    var after := Process(s);
    if k < |s.queue| && s.active < s.max {
      var taken := s.queue[k];
      assert |after.running| == |s.running| + 1;
      forall other | other in after.status && after.status[other] == Queued
        ensures other in after.queue
      {
        var j :| 0 <= j < |s.queue| && s.queue[j] == other;
        assert j > k && other == after.queue[j - 1];
      }
    } else if k == |s.queue| {
      forall other | other in s.status
        ensures s.status[other] != Queued
      {
        assert other in s.queue ==> s.status[other] != Queued;
      }
    }
  }

  lemma EndedKeeps(s: State, id: Id, ok: bool)
    requires Inv(s) && id in s.running
    ensures Counted(Ended(s, id, ok)) && Waiting(Ended(s, id, ok))
  {
    var ended := Ended(s, id, ok);
    assert s.running == ended.running + multiset{id};
    assert forall other <- ended.running :: other in s.running;
    forall other | other in ended.status && ended.status[other] == Queued
      ensures other in ended.queue
    {
      assert other in s.queue;
    }
  }

  lemma SettleKeepsInv(s: State, id: Id, ok: bool)
    requires Inv(s) && id in s.running
    ensures Inv(Settle(s, id, ok))
  {
    EndedKeeps(s, id, ok);
    hide Process;
    ProcessRestoresBusy(Ended(s, id, ok), id);
  }

  lemma AddKeepsInv(s: State, id: Id)
    requires Inv(s) && id !in s.status
    ensures Inv(Add(s, id))
  {
    hide Process;
    ProcessRestoresBusy(Enqueued(s, id), id);
  }

  lemma ResumeKeepsInv(s: State, id: Id)
    requires Inv(s)
    ensures Inv(Resume(s, id))
  {
    hide Process;
    if Known(s, id) && s.status[id] == Paused {
      ProcessRestoresBusy(Requeued(s, id), id);
    }
  }

  lemma StepKeepsInv(s: State, e: Event)
    requires Inv(s) && Allowed(s, e)
    ensures Inv(Step(s, e))
  {
    hide Process;
    match e
    case AddEvent(id) => AddKeepsInv(s, id);
    case ResumeEvent(id) => ResumeKeepsInv(s, id);
    case SettleEvent(id, ok) => SettleKeepsInv(s, id, ok);
    case _ =>
  }

  function Run(s: State, events: seq<Event>): State
    requires AllAllowed(s, events)
    decreases |events|
  {
    if events == [] then s else Run(Step(s, events[0]), events[1..])
  }

  predicate AllAllowed(s: State, events: seq<Event>)
    decreases |events|
  {
    events == [] || (Allowed(s, events[0]) && AllAllowed(Step(s, events[0]), events[1..]))
  }

  /** After every event the count is the number of running calls, within the bound, and no item
      waits while a slot is free. */
  lemma {:induction false} SchedulerInvariant(s: State, events: seq<Event>)
    requires Inv(s) && AllAllowed(s, events)
    ensures Inv(Run(s, events))
    decreases |events|
  {
    if events != [] {
      StepKeepsInv(s, events[0]);
      SchedulerInvariant(Step(s, events[0]), events[1..]);
    }
  }

  // ---- the queue drains ----

  function QueuedEntries(queue: seq<Id>, status: map<Id, Status>): nat {
    if queue == [] then 0
    else (if queue[0] in status && status[queue[0]] == Queued then 1 else 0) + QueuedEntries(queue[1..], status)
  }

  function Backlog(s: State): int {
    2 * QueuedEntries(s.queue, s.status) + s.active
  }

  lemma {:induction false} FewerQueued(queue: seq<Id>, before: map<Id, Status>, after: map<Id, Status>)
    requires forall id <- after :: after[id] == Queued ==> id in before && before[id] == Queued
    ensures QueuedEntries(queue, after) <= QueuedEntries(queue, before)
  {
    if queue != [] {
      FewerQueued(queue[1..], before, after);
    }
  }

  lemma {:induction false} EntriesSplit(left: seq<Id>, right: seq<Id>, status: map<Id, Status>)
    ensures QueuedEntries(left + right, status) == QueuedEntries(left, status) + QueuedEntries(right, status)
  {
    if left == [] {
      assert left + right == right;
    } else {
      assert (left + right)[1..] == left[1..] + right;
      EntriesSplit(left[1..], right, status);
    }
  }

  lemma ProcessShrinks(s: State)
    ensures Backlog(Process(s)) <= Backlog(s)
  {
    var k := FindQueued(s.queue, s.status);
    var after := Process(s);
    if s.active < s.max && k < |s.queue| {
      assert s.queue == s.queue[..k] + [s.queue[k]] + s.queue[k + 1..];
      EntriesSplit(s.queue[..k] + [s.queue[k]], s.queue[k + 1..], s.status);
      EntriesSplit(s.queue[..k], [s.queue[k]], s.status);
      EntriesSplit(s.queue[..k], s.queue[k + 1..], s.status);
      assert QueuedEntries([s.queue[k]], s.status) == 1;
      FewerQueued(after.queue, s.status, after.status);
    }
  }

  lemma SettleShrinks(s: State, id: Id, ok: bool)
    requires id in s.status
    ensures Backlog(Settle(s, id, ok)) < Backlog(s)
  {
    var settled := Ended(s, id, ok);
    FewerQueued(s.queue, s.status, settled.status);
    EntriesSplit([id], s.queue, settled.status);
    assert QueuedEntries([id], settled.status) == 0;
    ProcessShrinks(settled);
  }

  ghost predicate Idle(s: State) {
    forall id <- s.status :: s.status[id] != Queued && s.status[id] != Uploading
  }

  lemma AtRest(s: State)
    requires Inv(s) && s.max > 0 && s.running == multiset{}
    ensures Idle(s)
  {}

  predicate OnlySettles(events: seq<Event>) {
    forall k :: 0 <= k < |events| ==> events[k].SettleEvent?
  }

  /** Left alone, calls settle at most `Backlog` times; when none is left, nothing is waiting or uploading. */
  lemma {:induction false} QueueDrains(s: State, events: seq<Event>)
    requires Inv(s) && s.max > 0 && AllAllowed(s, events) && OnlySettles(events)
    ensures |events| <= Backlog(s)
    ensures Run(s, events).running == multiset{} ==> Idle(Run(s, events))
    decreases |events|
  {
    hide Inv, Process, Backlog, QueuedEntries, Idle;
    if events == [] {
      BacklogIsNat(s);
      if s.running == multiset{} {
        AtRest(s);
      }
    } else {
      var e := events[0];
      SettleShrinks(s, e.id, e.ok);
      StepKeepsInv(s, e);
      SameBound(s, e.id, e.ok);
      QueueDrains(Step(s, e), events[1..]);
    }
  }

  lemma BacklogIsNat(s: State)
    requires Inv(s)
    ensures Backlog(s) >= 0
  {}

  lemma SameBound(s: State, id: Id, ok: bool)
    requires id in s.status
    ensures Settle(s, id, ok).max == s.max
  {}

  // ---- one call per item ----

  /** No item has two calls at once, and none waits for a slot while a call of its own still runs. */
  ghost predicate Single(s: State) {
    && (forall id :: s.running[id] <= 1)
    && (forall id <- s.status :: s.status[id] == Queued ==> id !in s.running)
  }

  lemma ProcessKeepsSingle(s: State)
    requires Single(s)
    ensures Single(Process(s))
  {}

  /** Resuming keeps it exactly when the item's earlier call has settled by then. */
  lemma ResumeKeepsSingleIff(s: State, id: Id)
    requires Single(s) && Known(s, id) && s.status[id] == Paused
    ensures Single(Resume(s, id)) <==> id !in s.running
  {
    var queued := Requeued(s, id);
    if id !in s.running {
      ProcessKeepsSingle(queued);
    } else {
      var after := Process(queued);
      assert after.status[id] == Queued || after.running[id] == s.running[id] + 1;
      assert id in after.status && id in after.running;
    }
  }

  /** A paused item is resumed only after its earlier call has settled. */
  predicate Patient(s: State, e: Event) {
    e.ResumeEvent? && Known(s, e.id) && s.status[e.id] == Paused ==> e.id !in s.running
  }

  predicate AllPatient(s: State, events: seq<Event>)
    requires AllAllowed(s, events)
    decreases |events|
  {
    events == [] || (Patient(s, events[0]) && AllPatient(Step(s, events[0]), events[1..]))
  }

  lemma StepKeepsSingle(s: State, e: Event)
    requires Inv(s) && Single(s) && Allowed(s, e)
    requires Patient(s, e)
    ensures Single(Step(s, e))
  {
    match e
    case AddEvent(id) =>
      ProcessKeepsSingle(Enqueued(s, id));
    case ResumeEvent(id) =>
      if Known(s, id) && s.status[id] == Paused {
        ResumeKeepsSingleIff(s, id);
      }
    case SettleEvent(id, ok) =>
      ProcessKeepsSingle(Ended(s, id, ok));
    case _ =>
  }

  /** Over whole runs: patient resumes never give an item two calls at once. */
  lemma {:induction false} OneCallPerItem(s: State, events: seq<Event>)
    requires Inv(s) && Single(s) && AllAllowed(s, events) && AllPatient(s, events)
    ensures Inv(Run(s, events)) && Single(Run(s, events))
    decreases |events|
  {
    if events != [] {
      StepKeepsInv(s, events[0]);
      StepKeepsSingle(s, events[0]);
      OneCallPerItem(Step(s, events[0]), events[1..]);
    }
  }

  const ONE: State := State([], map["a" := Uploading], {"a"}, 1, 1, multiset{"a"})

  lemma QuickAdd()
    ensures Add(Fresh(1), "a") == ONE
  {
    assert FindQueued(["a"], map["a" := Queued]) == 0;
  }

  lemma QuickPause()
    ensures Pause(ONE, "a") == ONE.(status := map["a" := Paused])
  {}

  lemma QuickResume()
    ensures Resume(ONE.(status := map["a" := Paused]), "a") == ONE.(status := map["a" := Queued], queue := ["a"])
  {}

  lemma QuickAbort()
    ensures Settle(ONE.(status := map["a" := Queued], queue := ["a"]), "a", false) ==
            State(["a"], map["a" := Failed], {"a"}, 0, 1, multiset{})
  {
    assert FindQueued(["a"], map["a" := Failed]) == 1;
  }

  /** Pause and resume at once: the abort of the first call then marks the resumed item failed. */
  lemma QuickResumeFails()
    ensures var events := [AddEvent("a"), PauseEvent("a"), ResumeEvent("a"), SettleEvent("a", false)];
            && AllAllowed(Fresh(1), events)
            && Run(Fresh(1), events) == State(["a"], map["a" := Failed], {"a"}, 0, 1, multiset{})
  {
    var add, pause, resume, settle := AddEvent("a"), PauseEvent("a"), ResumeEvent("a"), SettleEvent("a", false);
    QuickAdd();
    QuickPause();
    QuickResume();
    QuickAbort();
    hide Add, Pause, Resume, Settle;
    var s2 := ONE.(status := map["a" := Paused]);
    var s3 := ONE.(status := map["a" := Queued], queue := ["a"]);
    assert [add, pause, resume, settle][1..] == [pause, resume, settle];
    assert [pause, resume, settle][1..] == [resume, settle];
    assert [resume, settle][1..] == [settle];
    assert AllAllowed(s3, [settle]) && Run(s3, [settle]) == Step(s3, settle);
    assert AllAllowed(s2, [resume, settle]) && Run(s2, [resume, settle]) == Run(s3, [settle]);
    assert AllAllowed(ONE, [pause, resume, settle]);
  }
}
