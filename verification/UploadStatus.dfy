/** What becomes of one item, told from the events that name it, without the queue and the slots; and
    in which order items get their turn. */
module UploadStatus {
  import opened Wrappers
  import opened UploadQueue

  /** `Queued` stands for every item that wants to be uploaded, whether it waits or runs already;
      `known` says that its clean-up timer has not gone off yet. */
  datatype Item = Item(status: Status, known: bool)

  /** A call that returns completes its item; one that throws fails it, unless it was paused or cancelled
      since. Pausing needs an item that is wanted, resuming one that is paused. */
  function Tell(item: Item, e: Event): Item {
    match e
    case AddEvent(_) => Item(Queued, true)
    case PauseEvent(_) => if item.known && item.status == Queued then item.(status := Paused) else item
    case ResumeEvent(_) => if item.known && item.status == Paused then item.(status := Queued) else item
    case CancelEvent(_) => if item.known then item.(status := Cancelled) else item
    case SettleEvent(_, returned) =>
      if returned then item.(status := Completed)
      else if item.status == Paused || item.status == Cancelled then item
      else item.(status := Failed)
    case ForgetEvent(_) => item.(known := false)
  }

  function Story(item: Option<Item>, events: seq<Event>, id: Id): Option<Item>
    decreases |events|
  {
    if events == [] then item
    else
      var e := events[0];
      var next := if e.id != id then item
                  else if e.AddEvent? then Some(Item(Queued, true))
                  else if item.Some? then Some(Tell(item.value, e))
                  else None;
      Story(next, events[1..], id)
  }

  function ItemIn(s: State, id: Id): Option<Item> {
    if id in s.status
    then Some(Item(if s.status[id] == Uploading then Queued else s.status[id], id in s.transfers))
    else None
  }

  lemma ProcessTells(s: State, id: Id)
    ensures ItemIn(Process(s), id) == ItemIn(s, id)
  {}

  lemma StepTells(s: State, e: Event, id: Id)
    requires Allowed(s, e)
    ensures ItemIn(Step(s, e), id) == if e.id != id then ItemIn(s, id)
                                      else if e.AddEvent? then Some(Item(Queued, true))
                                      else if id in s.status then Some(Tell(ItemIn(s, id).value, e))
                                      else None
  {
    hide Process;
    match e
    case AddEvent(i) => ProcessTells(Enqueued(s, i), id);
    case ResumeEvent(i) =>
      if Known(s, i) {
        ProcessTells(Requeued(s, i), id);
      }
    case SettleEvent(i, ok) => ProcessTells(Ended(s, i, ok), id);
    case _ =>
  }

  /** Over every run, every item has the status its own events give it. */
  lemma {:induction false} StatusIsItsStory(s: State, events: seq<Event>, id: Id)
    requires AllAllowed(s, events)
    ensures ItemIn(Run(s, events), id) == Story(ItemIn(s, id), events, id)
    decreases |events|
  {
    if events != [] {
      StepTells(s, events[0], id);
      StatusIsItsStory(Step(s, events[0]), events[1..], id);
    }
  }

  /** Which of the wanted items are running: with patient resumes, those that have a call. */
  lemma WantedItemRunsIff(s: State, events: seq<Event>, id: Id)
    requires Inv(s) && Single(s) && AllAllowed(s, events) && AllPatient(s, events)
    ensures var end, item := Run(s, events), Story(ItemIn(s, id), events, id);
            item.Some? && item.value.status == Queued ==>
              id in end.status && end.status[id] == if id in end.running then Uploading else Queued
  {
    OneCallPerItem(s, events);
    StatusIsItsStory(s, events, id);
  }

  /** A call that throws after its item was paused puts the item at the front of the queue. */
  lemma PausedGoesFirst(s: State, id: Id)
    requires id in s.status && s.status[id] == Paused
    ensures var after := Settle(s, id, false);
            after.queue != [] && after.queue[0] == id && after.status[id] == Paused
  {
    var ended := Ended(s, id, false);
    assert FindQueued(ended.queue, ended.status) > 0;
  }

  /** A resumed item goes to the end of the queue, unless it is its turn at once. */
  lemma ResumedGoesLast(s: State, id: Id)
    requires Known(s, id) && s.status[id] == Paused && Resume(s, id).status[id] == Queued
    ensures s.active < s.max || Resume(s, id).queue == s.queue + [id]
  {}

  /** Cancelling takes an item that is not uploading out of the queue, wherever it stands, and nothing
      else; the entries of an item that is uploading stay. */
  lemma CancelCleansQueue(s: State, id: Id)
    requires Known(s, id)
    ensures var after := Cancel(s, id);
            if s.status[id] == Uploading then after.queue == s.queue
            else id !in after.queue && multiset(after.queue) == multiset(s.queue)[id := 0]
  {
    WithoutCounts(s.queue, id);
  }

  lemma {:induction false} WithoutCounts(queue: seq<Id>, id: Id)
    ensures multiset(Without(queue, id)) == multiset(queue)[id := 0]
  {
    if queue != [] {
      WithoutCounts(queue[1..], id);
      assert queue == [queue[0]] + queue[1..];
    }
  }

  /** The items before another one stay before it, and those behind it behind. */
  lemma {:induction false} CancelKeepsOrder(left: seq<Id>, other: Id, right: seq<Id>, id: Id)
    requires other != id
    ensures Without(left + [other] + right, id) == Without(left, id) + [other] + Without(right, id)
  {
    var queue := left + [other] + right;
    if left == [] {
      assert queue == [other] + right && queue[1..] == right;
    } else {
      assert queue[1..] == left[1..] + [other] + right;
      CancelKeepsOrder(left[1..], other, right, id);
    }
  }

  ghost predicate Gone(s: State, id: Id) {
    id in s.status && s.status[id] == Cancelled && id !in s.running
  }

  lemma ProcessKeepsGone(s: State, id: Id)
    requires Gone(s, id)
    ensures Gone(Process(s), id)
  {}

  lemma StepKeepsGone(s: State, e: Event, id: Id)
    requires Allowed(s, e) && Gone(s, id)
    ensures Gone(Step(s, e), id)
  {
    hide Process;
    match e
    case AddEvent(i) => ProcessKeepsGone(Enqueued(s, i), id);
    case ResumeEvent(i) =>
      if Known(s, i) && s.status[i] == Paused {
        ProcessKeepsGone(Requeued(s, i), id);
      }
    case SettleEvent(i, ok) => ProcessKeepsGone(Ended(s, i, ok), id);
    case _ =>
  }

  /** An item that was cancelled before it got a call never gets one. */
  lemma {:induction false} CancelledNeverStarts(s: State, events: seq<Event>, id: Id)
    requires AllAllowed(s, events) && Gone(s, id)
    ensures Gone(Run(s, events), id)
    decreases |events|
  {
    if events != [] {
      StepKeepsGone(s, events[0], id);
      CancelledNeverStarts(Step(s, events[0]), events[1..], id);
    }
  }

  // ---- first come, first served ----

  predicate OnlyArrivals(events: seq<Event>) {
    forall k :: 0 <= k < |events| ==> events[k].AddEvent? || events[k].SettleEvent?
  }

  /** The items in the order in which they were added. */
  function Arrived(events: seq<Event>): seq<Id>
    decreases |events|
  {
    if events == [] then []
    else (if events[0].AddEvent? then [events[0].id] else []) + Arrived(events[1..])
  }

  predicate Distinct(ids: seq<Id>) {
    forall j, k :: 0 <= j < k < |ids| ==> ids[j] != ids[k]
  }

  /** The items of `served` have had their turn, and exactly the others wait in the queue. */
  ghost predicate InTurn(s: State, served: seq<Id>) {
    && Distinct(served + s.queue)
    && (forall id <- s.queue :: id in s.status && s.status[id] == Queued)
    && (forall id <- served :: id in s.status && s.status[id] != Queued && s.status[id] != Paused)
    && (forall id <- s.status :: id in served || id in s.queue)
  }

  /** Who is served next: the head of the queue, if a slot is free. */
  function Next(s: State): seq<Id> {
    if s.active < s.max && s.queue != [] then [s.queue[0]] else []
  }

  lemma ApartFromHead(s: State, served: seq<Id>)
    requires Distinct(served + s.queue) && s.queue != []
    ensures served + [s.queue[0]] + s.queue[1..] == served + s.queue
    ensures s.queue[0] !in s.queue[1..] && s.queue[0] !in served
  {
    var all := served + s.queue;
    assert all[|served|] == s.queue[0];
    assert forall k :: 0 < k < |s.queue| ==> all[|served| + k] == s.queue[k];
    assert forall k :: 0 <= k < |served| ==> all[k] == served[k];
  }

  lemma HeadStarts(s: State)
    requires s.active < s.max && s.queue != []
    requires s.queue[0] in s.status && s.status[s.queue[0]] == Queued
    ensures Process(s).queue == s.queue[1..] && Process(s).status == s.status[s.queue[0] := Uploading]
  {
    assert FindQueued(s.queue, s.status) == 0;
  }

  lemma ProcessInTurn(s: State, served: seq<Id>)
    requires InTurn(s, served)
    ensures InTurn(Process(s), served + Next(s))
    ensures Next(s) + Process(s).queue == s.queue
  {
    if Next(s) != [] {
      HeadStarts(s);
      ApartFromHead(s, served);
      hide Process, Distinct, FindQueued;
      assert s.queue == [s.queue[0]] + s.queue[1..];
    } else {
      assert Process(s) == s;
      assert served + [] == served;
    }
  }

  lemma EnqueuedInTurn(s: State, id: Id, served: seq<Id>)
    requires InTurn(s, served) && id !in s.status
    ensures InTurn(Enqueued(s, id), served)
  {
    assert served + (s.queue + [id]) == (served + s.queue) + [id];
  }

  lemma EndedInTurn(s: State, id: Id, ok: bool, served: seq<Id>)
    requires InTurn(s, served) && Inv(s) && id in s.running && s.status[id] != Queued
    ensures InTurn(Ended(s, id, ok), served)
  {}

  lemma StepInTurn(s: State, e: Event, served: seq<Id>) returns (more: seq<Id>)
    requires InTurn(s, served) && Inv(s) && Single(s) && Allowed(s, e) && (e.AddEvent? || e.SettleEvent?)
    ensures InTurn(Step(s, e), served + more)
    ensures more + Step(s, e).queue == s.queue + Arrived([e])
  {
    assert Arrived([e]) == if e.AddEvent? then [e.id] else [];
    assert s.queue + [] == s.queue;
    hide Process, InTurn, Arrived;
    match e
    case AddEvent(id) =>
      EnqueuedInTurn(s, id, served);
      ProcessInTurn(Enqueued(s, id), served);
      more := Next(Enqueued(s, id));
    case SettleEvent(id, ok) =>
      EndedInTurn(s, id, ok, served);
      ProcessInTurn(Ended(s, id, ok), served);
      more := Next(Ended(s, id, ok));
      assert Ended(s, id, ok).queue == s.queue by {
        NothingPaused(s, id, served);
      }
  }

  lemma NothingPaused(s: State, id: Id, served: seq<Id>)
    requires InTurn(s, served) && id in s.status
    ensures s.status[id] != Paused
  {}

  /** As long as nobody pauses or cancels, items get their turn in the order in which they came: those
      served, followed by those still waiting, are all that came, in that order. */
  lemma {:induction false} FirstComeFirstServed(s: State, events: seq<Event>, served: seq<Id>)
    returns (more: seq<Id>)
    requires Inv(s) && Single(s) && InTurn(s, served) && AllAllowed(s, events) && OnlyArrivals(events)
    ensures InTurn(Run(s, events), served + more)
    ensures more + Run(s, events).queue == s.queue + Arrived(events)
    decreases |events|
  {
    hide *;
    if events == [] {
      more := [];
      NobodyCame(s, events, served);
    } else {
      OneThenRest(s, events);
      var first := StepInTurn(s, events[0], served);
      StepKeepsInv(s, events[0]);
      StepKeepsSingle(s, events[0]);
      var rest := FirstComeFirstServed(Step(s, events[0]), events[1..], served + first);
      more := first + rest;
      assert served + more == served + first + rest;
      Chain(first, Step(s, events[0]).queue, rest, Run(s, events).queue, s.queue, Arrived([events[0]]),
            Arrived(events[1..]));
    }
  }

  lemma NobodyCame(s: State, events: seq<Event>, served: seq<Id>)
    requires events == []
    ensures served + [] == served && AllAllowed(s, events) && Run(s, events) == s
    ensures [] + s.queue == s.queue + Arrived(events)
  {}

  lemma OneThenRest(s: State, events: seq<Event>)
    requires events != [] && AllAllowed(s, events) && OnlyArrivals(events)
    ensures var e, rest := events[0], events[1..];
            && Allowed(s, e) && AllAllowed(Step(s, e), rest) && Run(s, events) == Run(Step(s, e), rest)
            && (e.AddEvent? || e.SettleEvent?) && Patient(s, e) && OnlyArrivals(rest)
            && Arrived(events) == Arrived([e]) + Arrived(rest)
  {}

  lemma Chain(first: seq<Id>, mid: seq<Id>, rest: seq<Id>, end: seq<Id>, q: seq<Id>, a: seq<Id>, b: seq<Id>)
    requires first + mid == q + a && rest + end == mid + b
    ensures first + rest + end == q + (a + b)
  {
    assert first + rest + end == first + (rest + end);
    assert first + (mid + b) == (first + mid) + b;
    assert (q + a) + b == q + (a + b);
  }
}
