// api/cron/job_script_execution.go: running a script on a list of endpoints, again on those
// that could not be pinged.
module ScriptExecution {
  import opened Collections

  datatype Outcome = Succeeded | PingFailed | OtherFailure

  // A target is a position of the schedule's endpoint list, with the endpoint found there.
  datatype Target = Target(position: nat, endpointId: int)

  datatype Attempt = Attempt(target: Target, outcome: Outcome)

  function TargetsOf(round: seq<Attempt>): (ts: seq<Target>)
    ensures |ts| == |round|
    ensures forall i :: 0 <= i < |ts| ==> ts[i] == round[i].target
  {
    seq(|round|, i requires 0 <= i < |round| => round[i].target)
  }

  function Positions(ts: seq<Target>): (ps: seq<int>)
    ensures |ps| == |ts|
    ensures forall i :: 0 <= i < |ps| ==> ps[i] == ts[i].position
  {
    seq(|ts|, i requires 0 <= i < |ts| => ts[i].position)
  }

  // The targets of a round that could not be pinged, in order.
  function Failed(round: seq<Attempt>): (ts: seq<Target>)
    ensures |ts| <= |round|
  {
    if round == [] then [] else
      var last := round[|round| - 1];
      Failed(round[..|round| - 1]) + if last.outcome.PingFailed? then [last.target] else []
  }

  // One attempt per target; `environment` says how the n-th attempt ever made turns out.
  function Round(environment: nat -> Outcome, start: nat, targets: seq<Target>): (round: seq<Attempt>)
    ensures |round| == |targets|
    ensures forall i :: 0 <= i < |round| ==> round[i] == Attempt(targets[i], environment(start + i))
  {
    seq(|targets|, i requires 0 <= i < |targets| => Attempt(targets[i], environment(start + i)))
  }

  // The rounds of a run that has completed `retryCount` rounds already.
  function Rounds(
    environment: nat -> Outcome, start: nat, targets: seq<Target>, retryCount: int, limit: int): seq<seq<Attempt>>
    decreases limit - retryCount
  {
    var round := Round(environment, start, targets);
    if retryCount + 1 >= limit then [round]
    else [round] + Rounds(environment, start + |targets|, Failed(round), retryCount + 1, limit)
  }

  function Total(rounds: seq<seq<Attempt>>): nat {
    if rounds == [] then 0 else |rounds[0]| + Total(rounds[1..])
  }

  // A log with those rounds added, one after the other.
  function Logged(
    log: seq<seq<Attempt>>, environment: nat -> Outcome, start: nat, targets: seq<Target>, retryCount: int, limit: int)
    : seq<seq<Attempt>>
    decreases limit - retryCount
  {
    var round := Round(environment, start, targets);
    if retryCount + 1 >= limit then log + [round]
    else Logged(log + [round], environment, start + |targets|, Failed(round), retryCount + 1, limit)
  }

  lemma {:induction false} LoggedAddsRounds(
    log: seq<seq<Attempt>>, environment: nat -> Outcome, start: nat, targets: seq<Target>, retryCount: int, limit: int)
    ensures Logged(log, environment, start, targets, retryCount, limit) ==
            log + Rounds(environment, start, targets, retryCount, limit)
    decreases limit - retryCount
  {
    if retryCount + 1 < limit {
      var round := Round(environment, start, targets);
      var rest := Rounds(environment, start + |targets|, Failed(round), retryCount + 1, limit);
      LoggedAddsRounds(log + [round], environment, start + |targets|, Failed(round), retryCount + 1, limit);
      assert (log + [round]) + rest == log + ([round] + rest);
    }
  }

  // The number of attempts in those rounds.
  function AttemptsMade(environment: nat -> Outcome, start: nat, targets: seq<Target>, retryCount: int, limit: int): nat
    decreases limit - retryCount
  {
    if retryCount + 1 >= limit then |targets|
    else
      |targets| +
      AttemptsMade(
        environment, start + |targets|, Failed(Round(environment, start, targets)), retryCount + 1, limit)
  }

  lemma {:induction false} AttemptsMadeIsTotal(
    environment: nat -> Outcome, start: nat, targets: seq<Target>, retryCount: int, limit: int)
    ensures AttemptsMade(environment, start, targets, retryCount, limit) ==
            Total(Rounds(environment, start, targets, retryCount, limit))
    decreases limit - retryCount
  {
    var rounds := Rounds(environment, start, targets, retryCount, limit);
    if retryCount + 1 >= limit {
      assert rounds[1..] == [];
    } else {
      var round := Round(environment, start, targets);
      AttemptsMadeIsTotal(environment, start + |targets|, Failed(round), retryCount + 1, limit);
      assert rounds[1..] == Rounds(environment, start + |targets|, Failed(round), retryCount + 1, limit);
    }
  }

  class ScriptExecutionJobRunner {
    const retryLimit: int
    const environment: nat -> Outcome
    // The rounds so far, and the number of attempts in them.
    var log: seq<seq<Attempt>>
    var attempts: nat

    constructor (retryLimit: int, environment: nat -> Outcome)
      ensures this.retryLimit == retryLimit && this.environment == environment
      ensures log == [] && attempts == 0
    {
      this.retryLimit, this.environment := retryLimit, environment;
      this.log, this.attempts := [], 0;
    }

    method ExecuteScript(target: Target) returns (outcome: Outcome)
      modifies `attempts
      ensures outcome == environment(old(attempts)) && attempts == old(attempts) + 1
    {
      outcome := environment(attempts);
      attempts := attempts + 1;
    }

    // The script is read and every endpoint is loaded first: a script that cannot be read or an
    // endpoint that is missing cancels the whole run.
    method Run(script: Option<string>, endpointIds: seq<int>, stored: set<int>)
      modifies this
      ensures script.None? || (exists i :: 0 <= i < |endpointIds| && endpointIds[i] !in stored) ==>
                log == old(log) && attempts == old(attempts)
      ensures script.Some? && (forall i :: 0 <= i < |endpointIds| ==> endpointIds[i] in stored) ==>
                var rounds := Rounds(environment, old(attempts), Targets(endpointIds), 0, retryLimit);
                && log == old(log) + rounds && attempts == old(attempts) + Total(rounds)
                && WholeRun(rounds, endpointIds, retryLimit)
    {
      if script.None? {
        return;
      }
      var targets := [];
      for i := 0 to |endpointIds|
        invariant targets == Targets(endpointIds)[..i]
        invariant forall j :: 0 <= j < i ==> endpointIds[j] in stored
      {
        if endpointIds[i] !in stored {
          return;
        }
        targets := targets + [Target(i, endpointIds[i])];
      }
      assert Targets(endpointIds)[..|endpointIds|] == Targets(endpointIds);
      LoggedAddsRounds(log, environment, attempts, targets, 0, retryLimit);
      AttemptsMadeIsTotal(environment, attempts, targets, 0, retryLimit);
      EveryRunIsWhole(environment, attempts, endpointIds, retryLimit);
      ExecuteAndRetry(targets, 0);
    }

    method ExecuteAndRetry(endpoints: seq<Target>, completed: int)
      modifies this
      ensures log == Logged(old(log), environment, old(attempts), endpoints, completed, retryLimit)
      ensures attempts == old(attempts) + AttemptsMade(environment, old(attempts), endpoints, completed, retryLimit)
      decreases retryLimit - completed
    {
      var made, retryTargets := ExecuteRound(endpoints);
      log := log + [made];
      var retryCount := completed + 1;
      if retryCount >= retryLimit {
        return;
      }
      ExecuteAndRetry(retryTargets, retryCount);
    }

    // One pass over the targets.
    method ExecuteRound(endpoints: seq<Target>) returns (made: seq<Attempt>, retryTargets: seq<Target>)
      modifies `attempts
      ensures attempts == old(attempts) + |endpoints|
      ensures made == Round(environment, old(attempts), endpoints) && retryTargets == Failed(made)
    {
      made, retryTargets := [], [];
      ghost var round := Round(environment, attempts, endpoints);
      for i := 0 to |endpoints|
        invariant attempts == old(attempts) + i
        invariant made == round[..i]
        invariant retryTargets == Failed(round[..i])
      {
        assert round[..i + 1][..i] == round[..i];
        var outcome := ExecuteScript(endpoints[i]);
        made := made + [Attempt(endpoints[i], outcome)];
        if outcome.PingFailed? {
          retryTargets := retryTargets + [endpoints[i]];
        }
      }
      assert round[..|endpoints|] == round;
    }
  }

  function Targets(endpointIds: seq<int>): (ts: seq<Target>)
    ensures |ts| == |endpointIds|
    ensures forall i :: 0 <= i < |ts| ==> ts[i] == Target(i, endpointIds[i])
  {
    seq(|endpointIds|, i requires 0 <= i < |endpointIds| => Target(i, endpointIds[i]))
  }

  // ----- What the rounds have in common -----

  // Every failed target comes from an attempt that could not ping, and their order is kept.
  lemma {:induction false} FailedSource(round: seq<Attempt>, p: nat) returns (i: nat)
    requires p < |Failed(round)|
    ensures p <= i < |round| && round[i] == Attempt(Failed(round)[p], PingFailed)
  {
    var n := |round| - 1;
    if p < |Failed(round[..n])| {
      i := FailedSource(round[..n], p);
    } else {
      i := n;
    }
  }

  lemma {:induction false} FailedAscends(round: seq<Attempt>)
    requires Ascending(Positions(TargetsOf(round)))
    ensures Ascending(Positions(Failed(round)))
  {
    if round != [] {
      var n := |round| - 1;
      var ps := Positions(TargetsOf(round));
      assert forall i :: 0 <= i < n ==> Positions(TargetsOf(round[..n]))[i] == ps[i];
      FailedAscends(round[..n]);
      forall p | 0 <= p < |Failed(round[..n])|
        ensures Failed(round[..n])[p].position < round[n].target.position
      {
        var i := FailedSource(round[..n], p);
        assert ps[i] < ps[n];
      }
    }
  }

  // The shape of a run: each round goes over the failures of the one before, in their order.
  ghost predicate Chained(rounds: seq<seq<Attempt>>, targets: seq<Target>) {
    && rounds != []
    && TargetsOf(rounds[0]) == targets
    && (forall r :: 0 <= r < |rounds| ==> Ascending(Positions(TargetsOf(rounds[r]))))
    && (forall r :: 0 <= r < |rounds| - 1 ==> TargetsOf(rounds[r + 1]) == Failed(rounds[r]))
  }

  // The number of rounds depends on the limit alone, at least one and no retry without a round.
  lemma {:induction false} RoundsAreChained(
    environment: nat -> Outcome, start: nat, targets: seq<Target>, retryCount: int, limit: int)
    requires Ascending(Positions(targets))
    ensures Chained(Rounds(environment, start, targets, retryCount, limit), targets)
    ensures |Rounds(environment, start, targets, retryCount, limit)| ==
            if retryCount + 1 >= limit then 1 else limit - retryCount
    decreases limit - retryCount
  {
    var round := Round(environment, start, targets);
    var rounds := Rounds(environment, start, targets, retryCount, limit);
    assert TargetsOf(round) == targets;
    if retryCount + 1 < limit {
      FailedAscends(round);
      RoundsAreChained(environment, start + |targets|, Failed(round), retryCount + 1, limit);
      var rest := Rounds(environment, start + |targets|, Failed(round), retryCount + 1, limit);
      ChainExtends(round, rest);
    }
  }

  lemma ChainExtends(round: seq<Attempt>, rest: seq<seq<Attempt>>)
    requires Ascending(Positions(TargetsOf(round))) && Chained(rest, Failed(round))
    ensures Chained([round] + rest, TargetsOf(round))
  {
  }

  // No target is tried more than once in a round.
  lemma {:induction false} AttemptsAreBounded(
    environment: nat -> Outcome, start: nat, targets: seq<Target>, retryCount: int, limit: int)
    ensures Total(Rounds(environment, start, targets, retryCount, limit)) <=
            |targets| * if retryCount + 1 >= limit then 1 else limit - retryCount
    decreases limit - retryCount
  {
    var round := Round(environment, start, targets);
    var rounds := Rounds(environment, start, targets, retryCount, limit);
    if retryCount + 1 < limit {
      AttemptsAreBounded(environment, start + |targets|, Failed(round), retryCount + 1, limit);
      assert rounds[1..] == Rounds(environment, start + |targets|, Failed(round), retryCount + 1, limit);
      Scale(|Failed(round)|, |targets|, limit - retryCount - 1);
    } else {
      assert rounds[1..] == [];
    }
  }

  lemma Scale(a: nat, b: nat, n: nat)
    requires a <= b
    ensures b + a * n <= b * (n + 1)
  {
  }

  // A target of some round was tried, and could not be pinged, in every round before.
  lemma {:induction false} TriedBefore(rounds: seq<seq<Attempt>>, targets: seq<Target>, r: nat, s: nat, j: nat)
    returns (i: nat)
    requires Chained(rounds, targets) && r < s < |rounds| && j < |rounds[s]|
    ensures i < |rounds[r]| && rounds[r][i] == Attempt(rounds[s][j].target, PingFailed)
    decreases s
  {
    assert TargetsOf(rounds[(s - 1) + 1]) == Failed(rounds[s - 1]);
    i := FailedSource(rounds[s - 1], j);
    assert rounds[s][j].target == rounds[s - 1][i].target;
    if r < s - 1 {
      i := TriedBefore(rounds, targets, r, s - 1, i);
    }
  }

  // A position that once ran, or failed for another reason than the ping, is never run again.
  lemma NeverRunAgain(
    environment: nat -> Outcome, start: nat, endpointIds: seq<int>, limit: int, r: nat, i: nat, s: nat, j: nat)
    requires var rounds := Rounds(environment, start, Targets(endpointIds), 0, limit);
             r < s < |rounds| && i < |rounds[r]| && j < |rounds[s]|
    ensures var rounds := Rounds(environment, start, Targets(endpointIds), 0, limit);
            rounds[r][i].target.position == rounds[s][j].target.position ==> rounds[r][i].outcome.PingFailed?
  {
    var targets := Targets(endpointIds);
    RoundsAreChained(environment, start, targets, 0, limit);
    var rounds := Rounds(environment, start, targets, 0, limit);
    var k := TriedBefore(rounds, targets, r, s, j);
    var ps := Positions(TargetsOf(rounds[r]));
    if rounds[r][i].target.position == rounds[s][j].target.position {
      assert ps[i] == ps[k];
      assert i == k;
    }
  }

  // ----- A whole run, in terms of what was tried -----

  function FailedPings(round: seq<Attempt>): set<int> {
    set i | 0 <= i < |round| && round[i].outcome == PingFailed :: i
  }

  ghost predicate Tried(round: seq<Attempt>, target: Target) {
    exists j :: 0 <= j < |round| && round[j].target == target
  }

  ghost predicate FailedItsPing(round: seq<Attempt>, target: Target) {
    exists i :: 0 <= i < |round| && round[i].target == target && round[i].outcome == PingFailed
  }

  // A round goes over exactly the targets that could not be pinged in the one before: all of
  // them, nothing else, as many, and in the order of the list.
  ghost predicate Retries(round: seq<Attempt>, next: seq<Attempt>) {
    && |next| == |FailedPings(round)|
    && (forall i :: 0 <= i < |round| && round[i].outcome == PingFailed ==> Tried(next, round[i].target))
    && (forall j :: 0 <= j < |next| ==> FailedItsPing(round, next[j].target))
    && (forall i, j :: 0 <= i < j < |next| ==> next[i].target.position < next[j].target.position)
  }

  // The first round goes over the whole list, and every later one retries.
  ghost predicate WholeRun(rounds: seq<seq<Attempt>>, endpointIds: seq<int>, limit: int) {
    && |rounds| == (if limit > 1 then limit else 1)
    && |rounds[0]| == |endpointIds|
    && (forall i :: 0 <= i < |endpointIds| ==> rounds[0][i].target == Target(i, endpointIds[i]))
    && (forall r :: 0 <= r < |rounds| - 1 ==> Retries(rounds[r], rounds[r + 1]))
  }

  lemma {:induction false} FailedTarget(round: seq<Attempt>, i: nat) returns (p: nat)
    requires i < |round| && round[i].outcome == PingFailed
    ensures p < |Failed(round)| && Failed(round)[p] == round[i].target
  {
    var n := |round| - 1;
    if i < n {
      p := FailedTarget(round[..n], i);
    } else {
      p := |Failed(round[..n])|;
    }
  }

  lemma {:induction false} FailedCount(round: seq<Attempt>)
    ensures |Failed(round)| == |FailedPings(round)|
  {
    if round != [] {
      var n := |round| - 1;
      FailedCount(round[..n]);
      if round[n].outcome == PingFailed {
        assert FailedPings(round) == FailedPings(round[..n]) + {n};
      } else {
        assert FailedPings(round) == FailedPings(round[..n]);
      }
    } else {
      assert FailedPings(round) == {};
    }
  }

  lemma NextRetries(round: seq<Attempt>, next: seq<Attempt>)
    requires TargetsOf(next) == Failed(round) && Ascending(Positions(TargetsOf(next)))
    ensures Retries(round, next)
  {
    FailedCount(round);
    forall i | 0 <= i < |round| && round[i].outcome == PingFailed
      ensures Tried(next, round[i].target)
    {
      var p: nat := FailedTarget(round, i);
      assert next[p].target == TargetsOf(next)[p];
    }
    forall j | 0 <= j < |next|
      ensures FailedItsPing(round, next[j].target)
    {
      var i: nat := FailedSource(round, j);
      assert round[i].target == TargetsOf(next)[j];
    }
    forall i, j | 0 <= i < j < |next|
      ensures next[i].target.position < next[j].target.position
    {
      assert Positions(TargetsOf(next))[i] < Positions(TargetsOf(next))[j];
    }
  }

  lemma EveryRunIsWhole(environment: nat -> Outcome, start: nat, endpointIds: seq<int>, limit: int)
    ensures WholeRun(Rounds(environment, start, Targets(endpointIds), 0, limit), endpointIds, limit)
  {
    var targets := Targets(endpointIds);
    var rounds: seq<seq<Attempt>> := Rounds(environment, start, targets, 0, limit);
    RoundsAreChained(environment, start, targets, 0, limit);
    forall i | 0 <= i < |endpointIds|
      ensures rounds[0][i].target == Target(i, endpointIds[i])
    {
      assert TargetsOf(rounds[0])[i] == targets[i];
    }
    forall r | 0 <= r < |rounds| - 1
      ensures Retries(rounds[r], rounds[r + 1])
    {
      NextRetries(rounds[r], rounds[r + 1]);
    }
  }
}
