/** The rate limiter both servers use: one time stamp per user. */
module RateLimiter {
  import opened Wrappers

  datatype Call = Call(user: int, now: real)

  function LastAction(last: map<int, real>, user: int): real {
    if user in last then last[user] else 0.0
  }

  predicate Permits(last: map<int, real>, limit: real, call: Call) {
    call.now - LastAction(last, call.user) >= limit
  }

  function Step(last: map<int, real>, limit: real, call: Call): map<int, real> {
    if Permits(last, limit, call) then last[call.user := call.now] else last
  }

  function After(limit: real, history: seq<Call>): map<int, real> {
    if history == [] then map[] else Step(After(limit, history[..|history| - 1]), limit, history[|history| - 1])
  }

  /** Call `k` of the history was let through. */
  predicate Passed(limit: real, history: seq<Call>, k: nat)
    requires k < |history|
  {
    Permits(After(limit, history[..k]), limit, history[k])
  }

  predicate ClockRuns(history: seq<Call>) {
    forall j, k :: 0 <= j < k < |history| ==> history[j].now <= history[k].now
  }

  /** The latest call of `user` that was let through, found without any dictionary and without a
      look at other users. */
  function Latest(limit: real, history: seq<Call>, user: int): Option<real> {
    if history == [] then
      None
    else
      var before, call := Latest(limit, history[..|history| - 1], user), history[|history| - 1];
      if call.user == user && call.now - (if before.Some? then before.value else 0.0) >= limit
      then Some(call.now)
      else before
  }

  /** Users do not affect each other, and refused calls leave no trace. */
  lemma {:induction false} UsersAreIndependent(limit: real, history: seq<Call>, user: int)
    ensures var after := After(limit, history);
            Latest(limit, history, user) == if user in after then Some(after[user]) else None
  {
    if history != [] {
      UsersAreIndependent(limit, history[..|history| - 1], user);
    }
  }

  /** A call that passed is remembered until the next one that passes. */
  lemma {:induction false} PassedIsRemembered(limit: real, history: seq<Call>, i: nat)
    requires i < |history| && ClockRuns(history) && Passed(limit, history, i)
    ensures history[i].user in After(limit, history)
    ensures After(limit, history)[history[i].user] >= history[i].now
  {
    var last := |history| - 1;
    var before := history[..last];
    if i < last {
      assert before[..i] == history[..i];
      PassedIsRemembered(limit, before, i);
    }
  }

  lemma Spacing(limit: real, history: seq<Call>, i: nat, j: nat)
    requires i < j < |history| && ClockRuns(history) && history[i].user == history[j].user
    requires Passed(limit, history, i) && Passed(limit, history, j)
    ensures history[j].now - history[i].now >= limit
  {
    assert history[..j][..i] == history[..i];
    PassedIsRemembered(limit, history[..j], i);
  }

  /** `now` is at least the limit after the start of time and after every earlier call of the user that
      passed. */
  ghost predicate Due(limit: real, history: seq<Call>, k: nat)
    requires k < |history|
  {
    var now := history[k].now;
    && (forall i :: 0 <= i < k && history[i].user == history[k].user && Passed(limit, history, i) ==>
          now - history[i].now >= limit)
    && (now >= limit || exists i :: 0 <= i < k && history[i].user == history[k].user && Passed(limit, history, i))
  }

  /** What the dictionary holds for a user is the time of a call that passed. */
  lemma {:induction false} RememberedPassed(limit: real, history: seq<Call>, user: int) returns (i: nat)
    requires user in After(limit, history)
    ensures i < |history| && history[i].user == user && Passed(limit, history, i)
    ensures history[i].now == After(limit, history)[user]
  {
    var last := |history| - 1;
    if history[last].user == user && Passed(limit, history, last) {
      i := last;
    } else {
      i := RememberedPassed(limit, history[..last], user);
      assert history[..last][..i] == history[..i];
    }
  }

  /** A call passes if and only if it is due: refused calls never delay it, nor do other users. */
  lemma PassesIffDue(limit: real, history: seq<Call>, k: nat)
    requires k < |history| && ClockRuns(history)
    ensures Passed(limit, history, k) <==> Due(limit, history, k)
  {
    var before, user := history[..k], history[k].user;
    forall i | 0 <= i < k && history[i].user == user && Passed(limit, history, i)
      ensures user in After(limit, before) && After(limit, before)[user] >= history[i].now
    {
      assert before[..i] == history[..i];
      PassedIsRemembered(limit, before, i);
    }
    if user in After(limit, before) {
      var i := RememberedPassed(limit, before, user);
      assert before[..i] == history[..i];
    }
  }

  /** `picks` are calls of one user that passed, in order, inside a closed window. */
  ghost predicate InWindow(limit: real, history: seq<Call>, user: int, picks: seq<nat>, from: real, length: real) {
    && (forall a :: 0 <= a < |picks| ==>
          picks[a] < |history| && history[picks[a]].user == user && Passed(limit, history, picks[a]))
    && (forall a :: 0 <= a < |picks| ==> from <= history[picks[a]].now <= from + length)
    && (forall a, b :: 0 <= a < b < |picks| ==> picks[a] < picks[b])
  }

  lemma {:induction false} Spread(limit: real, history: seq<Call>, user: int, picks: seq<nat>, from: real, length: real)
    requires ClockRuns(history) && InWindow(limit, history, user, picks, from, length) && picks != []
    ensures history[picks[|picks| - 1]].now - history[picks[0]].now >= Times(|picks| - 1, limit)
    decreases |picks|
  {
    hide ClockRuns, Passed, Times;
    TimesSteps(|picks| - 2, limit);
    if |picks| > 1 {
      var n := |picks|;
      Spread(limit, history, user, picks[..n - 1], from, length);
      Spacing(limit, history, picks[n - 2], picks[n - 1]);
    }
  }

  function Times(n: int, limit: real): real {
    n as real * limit
  }

  lemma TimesSteps(n: int, limit: real)
    ensures Times(n + 1, limit) == Times(n, limit) + limit
    ensures Times(0, limit) == 0.0
  {
    assert (n + 1) as real == n as real + 1.0;
  }

  lemma FitsFloor(n: int, limit: real, length: real)
    requires limit > 0.0 && Times(n, limit) <= length
    ensures n <= (length / limit).Floor
  {
    var q := length / limit;
    var excess := n as real - q;
    assert excess * limit == Times(n, limit) - length;
    Sign(excess, limit);
  }

  lemma Sign(x: real, y: real)
    requires y > 0.0 && x * y <= 0.0
    ensures x <= 0.0
  {}

  /** No closed window of this length lets more calls of a user through. */
  lemma WindowBound(limit: real, history: seq<Call>, user: int, picks: seq<nat>, from: real, length: real)
    requires limit > 0.0 && length >= 0.0 && ClockRuns(history)
    requires InWindow(limit, history, user, picks, from, length)
    ensures |picks| <= (length / limit).Floor + 1
  {
    if picks == [] {
      FitsFloor(0, limit, length);
    } else {
      Spread(limit, history, user, picks, from, length);
      FitsFloor(|picks| - 1, limit, length);
    }
  }

  class Limiter {
    const limit: real
    var lastAction: map<int, real>

    constructor (limit: real)
      ensures this.limit == limit && lastAction == After(limit, [])
    {
      this.limit, lastAction := limit, map[];
    }

    method IsAllowed(user: int, now: real) returns (allowed: bool)
      modifies this`lastAction
      ensures allowed == Permits(old(lastAction), limit, Call(user, now))
      ensures lastAction == Step(old(lastAction), limit, Call(user, now))
    {
      var last := if user in lastAction then lastAction[user] else 0.0;
      if now - last < limit {
        return false;
      }
      lastAction := lastAction[user := now];
      return true;
    }
  }
}
