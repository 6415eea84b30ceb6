/** `_flush_transfer_progress` split where it gives up the lock, with any number of threads inside it
    while chunks keep arriving. One transfer; transfers share no cache entry and no row. */
module FlushRace {
  import opened Wrappers
  import opened Bytes
  import opened Transfers

  datatype Counters = Counters(chunks: nat, bytes: nat) {
    predicate AtMost(other: Counters) {
      chunks <= other.chunks && bytes <= other.bytes
    }
  }

  datatype Entry = Entry(counters: Counters, dirty: bool)

  /** Where a flushing thread is: not inside, holding a copy, or done writing it to the row. */
  datatype Flusher = Outside | Holding(copy: Counters) | Wrote(copy: Counters)

  datatype Race = Race(cache: Option<Entry>, stored: Counters, status: TransferStatus, flushers: map<nat, Flusher>) {
    function At(thread: nat): Flusher {
      if thread in flushers then flushers[thread] else Outside
    }
  }

  datatype Action =
    | Load                      // first lock block of a chunk: read the row into the cache
    | Count(length: nat)        // last lock block of a chunk
    | Copy(thread: nat)         // first lock block of a flush
    | Write(thread: nat)        // the UPDATE, outside the lock
    | Fail(thread: nat)         // the UPDATE raised
    | Clear(thread: nat)        // second lock block of a flush
    | Commit                    // a finish request found the hash to match
    | Evict                     // and removes the entry
    | Expire                    // the timeout sweep

  const START := Race(None, Counters(0, 0), InProgress, map[])

  function Step(r: Race, a: Action): Race {
    match a
    case Load =>
      if r.cache.None? && r.status == InProgress then r.(cache := Some(Entry(r.stored, false))) else r
    case Count(length) =>
      if r.cache.Some? then
        var now := r.cache.value.counters;
        r.(cache := Some(Entry(Counters(now.chunks + 1, now.bytes + length), true)))
      else
        r
    case Copy(t) =>
      if r.At(t).Outside? && r.cache.Some? && r.cache.value.dirty then
        r.(flushers := r.flushers[t := Holding(r.cache.value.counters)])
      else
        r
    case Write(t) =>
      if r.At(t).Holding? then r.(stored := r.At(t).copy, flushers := r.flushers[t := Wrote(r.At(t).copy)]) else r
    case Fail(t) =>
      if r.At(t).Holding? then r.(flushers := r.flushers[t := Outside]) else r
    case Clear(t) =>
      if r.At(t).Wrote? then
        r.(cache := if r.cache.Some? then Some(r.cache.value.(dirty := false)) else None,
           flushers := r.flushers[t := Outside])
      else
        r
    case Commit => r.(status := Completed)
    case Evict => if r.status == Completed then r.(cache := None) else r
    case Expire => if r.status == InProgress then r.(status := Failed) else r
  }

  function Run(r: Race, actions: seq<Action>): Race
    decreases |actions|
  {
    if actions == [] then r else Run(Step(r, actions[0]), actions[1..])
  }

  /** While the entry lives, neither the row nor any copy on its way there is ahead of it; an entry
      that was evicted is never loaded again. */
  ghost predicate Behind(r: Race) {
    && (r.cache.Some? ==>
          && r.stored.AtMost(r.cache.value.counters)
          && forall t :: !r.At(t).Outside? ==> r.At(t).copy.AtMost(r.cache.value.counters))
    && (r.cache.None? && r.status != Completed ==> forall t :: r.At(t).Outside?)
  }

  lemma StepKeepsBehind(r: Race, a: Action)
    requires Behind(r)
    ensures Behind(Step(r, a))
  {
    var after := Step(r, a);
    forall t | !after.At(t).Outside? && after.cache.Some?
      ensures after.At(t).copy.AtMost(after.cache.value.counters)
    {
      var was := r.At(t);
      assert r.cache.None? && r.status != Completed ==> was.Outside?;
    }
    forall t | after.cache.None? && after.status != Completed
      ensures after.At(t).Outside?
    {
      assert r.At(t).Outside?;
    }
  }

  lemma {:induction false} StoredNeverAhead(r: Race, actions: seq<Action>)
    requires Behind(r)
    ensures Behind(Run(r, actions))
    decreases |actions|
  {
    if actions != [] {
      StepKeepsBehind(r, actions[0]);
      StoredNeverAhead(Step(r, actions[0]), actions[1..]);
    }
  }

  /** Every interleaving of any number of threads, from a transfer that was just announced. */
  lemma NeverAheadFromStart(history: seq<Action>)
    ensures var r := Run(START, history); r.cache.Some? ==> r.stored.AtMost(r.cache.value.counters)
  {
    StoredNeverAhead(START, history);
  }

  lemma {:induction false} RunSplit(r: Race, left: seq<Action>, right: seq<Action>)
    ensures Run(r, left + right) == Run(Run(r, left), right)
    decreases |left|
  {
    if left == [] {
      assert left + right == right;
    } else {
      assert (left + right)[1..] == left[1..] + right;
      RunSplit(Step(r, left[0]), left[1..], right);
    }
  }

  lemma RunStep(history: seq<Action>)
    requires history != []
    ensures Run(START, history) == Step(Run(START, history[..|history| - 1]), history[|history| - 1])
  {
    var last := |history| - 1;
    assert history == history[..last] + [history[last]];
    RunSplit(START, history[..last], [history[last]]);
    assert Run(Run(START, history[..last]), [history[last]]) == Step(Run(START, history[..last]), history[last]);
  }

  // ---- what the row holds, exactly ----

  /** When the row, and each copy on its way to it, was last read from the cache or put there: the
      number of actions before that moment. */
  datatype Moments = Moments(row: nat, copies: map<nat, nat>)

  /** A write moves its thread's copy into the row, however old the copy is by then. */
  function Note(m: Moments, r: Race, a: Action, now: nat): Moments {
    match a
    case Load => if r.cache.None? && r.status == InProgress then m.(row := now) else m
    case Copy(t) =>
      if r.At(t).Outside? && r.cache.Some? && r.cache.value.dirty then m.(copies := m.copies[t := now]) else m
    case Write(t) => if r.At(t).Holding? && t in m.copies then m.(row := m.copies[t]) else m
    case _ => m
  }

  function Taken(history: seq<Action>): Moments {
    if history == [] then
      Moments(0, map[])
    else
      var now := |history| - 1;
      Note(Taken(history[..now]), Run(START, history[..now]), history[now], now)
  }

  /** The chunks counted from action number `from` on. */
  function Arrivals(history: seq<Action>, from: nat): nat {
    if |history| <= from then 0
    else Arrivals(history[..|history| - 1], from) + if history[|history| - 1].Count? then 1 else 0
  }

  /** `counters` were taken from a cache that has counted `missed` chunks since. */
  predicate Misses(counters: Counters, cached: Counters, missed: nat) {
    cached.chunks == counters.chunks + missed && (missed == 0 ==> counters == cached)
  }

  ghost predicate Explained(r: Race, m: Moments, history: seq<Action>) {
    r.cache.Some? ==>
      && m.row <= |history| && Misses(r.stored, r.cache.value.counters, Arrivals(history, m.row))
      && forall t :: !r.At(t).Outside? ==>
           t in m.copies && m.copies[t] <= |history|
           && Misses(r.At(t).copy, r.cache.value.counters, Arrivals(history, m.copies[t]))
  }

  lemma OneMoreAction(history: seq<Action>, a: Action, from: nat)
    requires from <= |history|
    ensures Arrivals(history + [a], from) == Arrivals(history, from) + if a.Count? then 1 else 0
    ensures Arrivals(history, |history|) == 0
  {
    assert (history + [a])[..|history|] == history;
  }

  lemma StepExplained(r: Race, m: Moments, history: seq<Action>, a: Action)
    requires Behind(r) && Explained(r, m, history)
    ensures Explained(Step(r, a), Note(m, r, a, |history|), history + [a])
  {
    var after, more := Step(r, a), Note(m, r, a, |history|);
    hide Arrivals;
    if after.cache.Some? {
      OneMoreAction(history, a, more.row);
      if r.cache.Some? && m.row != more.row {
        assert !r.At(a.thread).Outside?;
      }
      forall t | !after.At(t).Outside?
        ensures t in more.copies && more.copies[t] <= |history|
        ensures Misses(after.At(t).copy, after.cache.value.counters, Arrivals(history + [a], more.copies[t]))
      {
        assert r.cache.None? ==> r.At(t).Outside?;
        OneMoreAction(history, a, more.copies[t]);
      }
    }
  }

  lemma {:induction false} HistoryExplains(history: seq<Action>)
    ensures Explained(Run(START, history), Taken(history), history)
  {
    if history != [] {
      var now := |history| - 1;
      HistoryExplains(history[..now]);
      RunStep(history);
      StoredNeverAhead(START, history[..now]);
      StepExplained(Run(START, history[..now]), Taken(history[..now]), history[..now], history[now]);
      assert history[..now] + [history[now]] == history;
    }
  }

  /** Whatever the threads did: while the entry lives, the row lacks exactly the chunks counted since
      the copy was made whose write came last, and equals the entry if and only if there are none. */
  lemma StoredIsCachedIff(history: seq<Action>)
    ensures var r := Run(START, history);
            r.cache.Some? ==>
              var missed := Arrivals(history, Taken(history).row);
              && r.cache.value.counters.chunks == r.stored.chunks + missed
              && (r.stored == r.cache.value.counters <==> missed == 0)
  {
    HistoryExplains(history);
  }

  /** No thread is inside a flush, and none has a reason to enter one. */
  ghost predicate Quiet(r: Race) {
    && (forall t :: r.At(t).Outside?)
    && (if r.cache.Some? then !r.cache.value.dirty else r.status == Completed)
  }

  lemma StepKeepsQuiet(r: Race, a: Action)
    requires Quiet(r) && !a.Count?
    ensures Quiet(Step(r, a)) && Step(r, a).stored == r.stored
  {
    if a.Copy? || a.Write? || a.Fail? || a.Clear? {
      assert r.At(a.thread).Outside?;
    }
    forall t
      ensures Step(r, a).At(t).Outside?
    {
      assert r.At(t).Outside?;
    }
  }

  /** From then on nothing but another chunk makes the row change: what it lacks stays unwritten. */
  lemma {:induction false} QuietRowStays(r: Race, actions: seq<Action>)
    requires Quiet(r) && forall k :: 0 <= k < |actions| ==> !actions[k].Count?
    ensures Run(r, actions).stored == r.stored
    decreases |actions|
  {
    if actions != [] {
      StepKeepsQuiet(r, actions[0]);
      QuietRowStays(Step(r, actions[0]), actions[1..]);
    }
  }

  const OLD := Counters(1, 5)
  const NEW := Counters(2, 10)

  /** The state when the thread with the new copy is about to be overtaken. */
  const OVERTAKEN := Race(Some(Entry(NEW, true)), Counters(0, 0), InProgress, map[1 := Holding(OLD)])

  lemma ToOvertaken()
    ensures Run(START, [Load, Count(5)] + [Copy(1), Count(5)]) == OVERTAKEN
  {
    TwoSteps(START, Load, Count(5));
    var counted := Race(Some(Entry(OLD, true)), Counters(0, 0), InProgress, map[]);
    assert Step(Step(START, Load), Count(5)) == counted;
    TwoSteps(counted, Copy(1), Count(5));
    RunSplit(START, [Load, Count(5)], [Copy(1), Count(5)]);
  }

  lemma FromOvertaken()
    ensures var r := Run(OVERTAKEN, [Copy(2), Write(2)] + [Write(1), Clear(2)]);
            r.cache == Some(Entry(NEW, false)) && r.stored == OLD
  {
    TwoSteps(OVERTAKEN, Copy(2), Write(2));
    var written := OVERTAKEN.(stored := NEW, flushers := map[1 := Holding(OLD), 2 := Wrote(NEW)]);
    assert Step(Step(OVERTAKEN, Copy(2)), Write(2)) == written;
    TwoSteps(written, Write(1), Clear(2));
    RunSplit(OVERTAKEN, [Copy(2), Write(2)], [Write(1), Clear(2)]);
  }

  /** A second thread may write an older copy over a newer one: no chunk is counted while thread 2
      flushes, and still its flush leaves a clean entry whose last chunk is not in the row. */
  lemma StaleWriter()
    ensures var r := Run(START, [Load, Count(5), Copy(1), Count(5), Copy(2), Write(2), Write(1), Clear(2)]);
            r.cache == Some(Entry(Counters(2, 10), false)) && r.stored == Counters(1, 5)
  {
    hide Run;
    ToOvertaken();
    FromOvertaken();
    var first, second := [Load, Count(5)] + [Copy(1), Count(5)], [Copy(2), Write(2)] + [Write(1), Clear(2)];
    RunSplit(START, first, second);
    assert first + second == [Load, Count(5), Copy(1), Count(5), Copy(2), Write(2), Write(1), Clear(2)];
  }

  lemma TwoSteps(r: Race, a: Action, b: Action)
    ensures Run(r, [a, b]) == Step(Step(r, a), b)
  {
    assert [a, b][1..] == [b];
    assert Run(Step(r, a), [b]) == Step(Step(r, a), b);
  }

  function Counts(lengths: seq<nat>): (r: seq<Action>)
    ensures |r| == |lengths|
  {
    seq(|lengths|, i requires 0 <= i < |lengths| => Count(lengths[i]))
  }

  /** One flush by `thread`, with chunks counted while it held its copy and after it wrote it. */
  function Flushing(thread: nat, holding: seq<nat>, writing: seq<nat>): seq<Action> {
    [Copy(thread)] + Counts(holding) + [Write(thread)] + Counts(writing) + [Clear(thread)]
  }

  lemma {:induction false} CountsAddUp(r: Race, lengths: seq<nat>)
    requires r.cache.Some?
    ensures var after := Run(r, Counts(lengths));
            && after.cache.Some? && after == r.(cache := after.cache)
            && (lengths == [] ==> after == r)
            && after.cache.value.counters.chunks == r.cache.value.counters.chunks + |lengths|
    decreases |lengths|
  {
    if lengths != [] {
      assert Counts(lengths)[1..] == Counts(lengths[1..]);
      CountsAddUp(Step(r, Count(lengths[0])), lengths[1..]);
    }
  }

  /** The flush of a thread that is alone marks the entry clean; the row then agrees with it exactly when
      no chunk was counted between the copy and the clear, and no new copy is made of what it lacks. */
  lemma CleanMeansStoredIff(r: Race, thread: nat, holding: seq<nat>, writing: seq<nat>)
    requires r.cache.Some? && r.cache.value.dirty && r.At(thread).Outside?
    ensures var after := Run(r, Flushing(thread, holding, writing));
            && after.cache.Some? && !after.cache.value.dirty
            && (after.stored == after.cache.value.counters <==> holding == [] && writing == [])
            && (forall t :: Step(after, Copy(t)) == after)
  {
    var copied := Step(r, Copy(thread));
    var held := Run(copied, Counts(holding));
    CountsAddUp(copied, holding);
    var wrote := Step(held, Write(thread));
    var counted := Run(wrote, Counts(writing));
    CountsAddUp(wrote, writing);
    var c, h, w, d := [Copy(thread)], Counts(holding), [Write(thread)], Counts(writing);
    RunSplit(r, c + h + w + d, [Clear(thread)]);
    RunSplit(r, c + h + w, d);
    RunSplit(r, c + h, w);
    RunSplit(r, c, h);
    assert Run(r, c) == copied && Run(held, w) == wrote;
    assert Run(counted, [Clear(thread)]) == Step(counted, Clear(thread));
  }

  // ---- the handlers, seen as runs of these actions ----

  /** What the tables and the cache of a server hold about one transfer, with no thread inside a flush. */
  function Project(s: State, id: nat): Race
    requires id in s.transfers
  {
    var row := s.transfers[id];
    Race(if id in s.progress
         then Some(Entry(Counters(s.progress[id].completedChunks, s.progress[id].bytesTransferred),
                         s.progress[id].dirty))
         else None,
         Counters(row.completedChunks, row.bytesTransferred), row.status, map[])
  }

  ghost predicate Same(a: Race, b: Race) {
    a.cache == b.cache && a.stored == b.stored && a.status == b.status && forall t :: a.At(t) == b.At(t)
  }

  /** A flush that nothing interrupts is the atomic one. */
  lemma FlushRefines(s: State, id: nat, thread: nat)
    requires id in s.transfers
    ensures Same(Run(Project(s, id), [Copy(thread), Write(thread), Clear(thread)]), Project(Flush(s, id), id))
  {
    var r := Project(s, id);
    var actions := [Copy(thread), Write(thread), Clear(thread)];
    assert actions[1..] == [Write(thread), Clear(thread)];
    TwoSteps(Step(r, Copy(thread)), Write(thread), Clear(thread));
  }

  /** A flush whose update fails leaves everything as it was. */
  lemma FailedFlush(r: Race, thread: nat)
    requires forall t :: r.At(t).Outside?
    ensures Same(Run(r, [Copy(thread), Fail(thread)]), r)
  {
    TwoSteps(r, Copy(thread), Fail(thread));
  }

  /** Loading the entry, counting a chunk, publishing and expiring are the actions of those names. */
  lemma HandlersRefine(s: State, id: nat, offset: nat, data: Data, now: int, threshold: int)
    requires id in s.transfers
    ensures Accepts(s, id) ==> Step(Project(s, id), Load) == Project(OpenEntry(s, id, now), id)
    ensures id in s.progress && s.progress[id].path in s.disk ==>
              Step(Project(s, id), Count(|data|)) == Project(StoreChunk(s, id, offset, data, now), id)
    ensures Joined(s, id) ==> Run(Project(s, id), [Commit, Evict]) == Project(Publish(s, id), id)
    ensures Project(ExpireTransfers(s, threshold), id) ==
            if s.transfers[id].lastActivity < threshold
            then Step(Project(s, id), Action.Expire)
            else Project(s, id)
  {
    TwoSteps(Project(s, id), Commit, Evict);
  }
}
