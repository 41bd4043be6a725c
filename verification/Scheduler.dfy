// api/cron/scheduler.go: a job table that is rebuilt on every change.
module Scheduler {
  import opened Collections

  const SNAPSHOT_JOB := 2

  datatype ScriptJob = ScriptJob(
    endpoints: seq<int>, image: string, scriptPath: string, retryCount: int, retryInterval: int)

  // A runner, that is the schedule it carries; only script schedules have a script.
  datatype Job = Job(scheduleId: int, name: string, jobType: int, expression: string, script: Option<ScriptJob>)

  // An entry of the table: when to run (a parsed cron expression) and what.
  datatype Entry<S> = Entry(schedule: S, job: Job)

  function CountIf<T>(xs: seq<T>, p: T -> bool): nat {
    |Filter(xs, p)|
  }

  // The rebuilt table of an update: every entry stays, and each selected one is preceded by
  // its renewal.
  function Doubled<T>(xs: seq<T>, selected: T -> bool, renew: T -> T): seq<T> {
    if xs == [] then [] else
      var last := xs[|xs| - 1];
      Doubled(xs[..|xs| - 1], selected, renew) + if selected(last) then [renew(last), last] else [last]
  }

  // The elements of a filtered sequence, counted one by one.
  lemma {:induction false} FilterMultiset<T>(xs: seq<T>, p: T -> bool, x: T)
    ensures multiset(Filter(xs, p))[x] == if p(x) then multiset(xs)[x] else 0
  {
    if xs != [] {
      var n := |xs| - 1;
      FilterMultiset(xs[..n], p, x);
      assert xs == xs[..n] + [xs[n]];
    }
  }

  // What a filter keeps of a table does not depend on the order of the table.
  lemma FilterOfPermutation<T(!new)>(xs: seq<T>, ys: seq<T>, p: T -> bool)
    requires multiset(xs) == multiset(ys)
    ensures multiset(Filter(xs, p)) == multiset(Filter(ys, p))
    ensures CountIf(xs, p) == CountIf(ys, p)
  {
    var a, b := multiset(Filter(xs, p)), multiset(Filter(ys, p));
    forall x: T
      ensures a[x] == b[x]
    {
      FilterMultiset(xs, p, x);
      FilterMultiset(ys, p, x);
    }
    assert a == b;
    assert |a| == |Filter(xs, p)| && |b| == |Filter(ys, p)|;
  }

  // An update conserves the whole old table, doubles the selected entries, and leaves the
  // others as they are.
  lemma DoubledKeeps<T(!new)>(xs: seq<T>, selected: T -> bool, renew: T -> T)
    requires forall x :: selected(x) ==> selected(renew(x))
    ensures multiset(xs) <= multiset(Doubled(xs, selected, renew))
    ensures CountIf(Doubled(xs, selected, renew), selected) == 2 * CountIf(xs, selected)
    ensures Filter(Doubled(xs, selected, renew), x => !selected(x)) == Filter(xs, x => !selected(x))
  {
    DoubledConserves(xs, selected, renew);
    DoubledSelected(xs, selected, renew);
    DoubledOthers(xs, selected, renew, x => !selected(x));
  }

  lemma DoubledConserves<T(!new)>(xs: seq<T>, selected: T -> bool, renew: T -> T)
    ensures multiset(xs) <= multiset(Doubled(xs, selected, renew))
  {
    forall x: T
      ensures multiset(xs)[x] <= multiset(Doubled(xs, selected, renew))[x]
    {
      DoubledKeepsEach(xs, selected, renew, x);
    }
  }

  lemma {:induction false} DoubledKeepsEach<T(!new)>(xs: seq<T>, selected: T -> bool, renew: T -> T, x: T)
    ensures multiset(xs)[x] <= multiset(Doubled(xs, selected, renew))[x]
  {
    if xs != [] {
      var n := |xs| - 1;
      DoubledKeepsEach(xs[..n], selected, renew, x);
      assert xs == xs[..n] + [xs[n]];
    }
  }

  lemma {:induction false} DoubledSelected<T(!new)>(xs: seq<T>, selected: T -> bool, renew: T -> T)
    requires forall x :: selected(x) ==> selected(renew(x))
    ensures CountIf(Doubled(xs, selected, renew), selected) == 2 * CountIf(xs, selected)
  {
    if xs != [] {
      var n := |xs| - 1;
      DoubledSelected(xs[..n], selected, renew);
      if selected(xs[n]) {
        FilterTwo(Doubled(xs[..n], selected, renew), renew(xs[n]), xs[n], selected);
      } else {
        FilterSnoc(Doubled(xs[..n], selected, renew), xs[n], selected);
      }
    }
  }

  lemma {:induction false} DoubledOthers<T(!new)>(xs: seq<T>, selected: T -> bool, renew: T -> T, other: T -> bool)
    requires forall x :: selected(x) ==> selected(renew(x))
    requires forall x :: other(x) == !selected(x)
    ensures Filter(Doubled(xs, selected, renew), other) == Filter(xs, other)
  {
    if xs != [] {
      var n := |xs| - 1;
      DoubledOthers(xs[..n], selected, renew, other);
      if selected(xs[n]) {
        FilterTwo(Doubled(xs[..n], selected, renew), renew(xs[n]), xs[n], other);
      } else {
        FilterSnoc(Doubled(xs[..n], selected, renew), xs[n], other);
      }
    }
  }

  lemma FilterTwo<T>(xs: seq<T>, x: T, y: T, p: T -> bool)
    ensures Filter(xs + [x, y], p) == Filter(xs, p) + (if p(x) then [x] else []) + if p(y) then [y] else []
  {
    FilterSnoc(xs, x, p);
    FilterSnoc(xs + [x], y, p);
    assert xs + [x, y] == (xs + [x]) + [y];
  }

  // How many of the first n elements satisfy p.
  function CountTo<T>(xs: seq<T>, p: T -> bool, n: nat): (count: nat)
    requires n <= |xs|
    ensures count <= n
  {
    if n == 0 then 0 else CountTo(xs, p, n - 1) + if p(xs[n - 1]) then 1 else 0
  }

  function Power2(n: nat): (r: nat)
    ensures r > 0
  {
    if n == 0 then 1 else 2 * Power2(n - 1)
  }

  // How many of the first n updates succeed, and how many entries there are then.
  function Trace(count: nat, runners: seq<Job>, parses: Job -> bool, n: nat): (nat, nat)
    requires n <= |runners|
  {
    if n == 0 then (0, count) else
      var (successes, entries) := Trace(count, runners, parses, n - 1);
      if entries == 0 || parses(runners[n - 1]) then (successes + 1, entries + entries) else (successes, entries)
  }

  lemma {:induction false} TraceMeaning(count: nat, runners: seq<Job>, parses: Job -> bool, n: nat)
    requires n <= |runners|
    ensures var (successes, entries) := Trace(count, runners, parses, n);
            && successes <= n
            && entries == Power2(successes) * count
            && (count > 0 ==> entries > 0 && successes == CountTo(runners, parses, n))
  {
    if n > 0 {
      TraceMeaning(count, runners, parses, n - 1);
    }
  }

  class JobScheduler<S(==,!new)> {
    // How a cron expression is understood: any function at all.
    const parse: string -> Option<S>
    var cron: seq<Entry<S>>

    constructor (parse: string -> Option<S>)
      ensures this.parse == parse && cron == []
    {
      this.parse, this.cron := parse, [];
    }

    // The entries of the table, in whatever order the cron library keeps them.
    method Entries() returns (entries: seq<Entry<S>>)
      ensures multiset(entries) == multiset(cron)
    {
      var rest := multiset(cron);
      entries := [];
      while |rest| > 0
        invariant multiset(entries) + rest == multiset(cron)
        decreases |rest|
      {
        var e :| e in rest;
        entries := entries + [e];
        rest := rest - multiset{e};
      }
    }

    method ScheduleJob(runner: Job) returns (ok: bool)
      modifies this
      ensures ok <==> parse(runner.expression).Some?
      ensures cron == if ok then old(cron) + [Entry(parse(runner.expression).value, runner)] else old(cron)
    {
      var schedule := parse(runner.expression);
      if schedule.None? {
        return false;
      }
      cron := cron + [Entry(schedule.value, runner)];
      ok := true;
    }

    // Every entry of the job is joined by one under the new expression; none is replaced. The
    // ghost result is the order in which the entries were visited.
    method UpdateJobSchedule(runner: Job) returns (ok: bool, ghost order: seq<Entry<S>>)
      modifies this
      ensures multiset(order) == multiset(old(cron))
      ensures ok <==> CountIf(old(cron), ById(runner.scheduleId)) == 0 || parse(runner.expression).Some?
      ensures cron ==
              if ok then Doubled(order, ById(runner.scheduleId), Renewal(parse(runner.expression), runner))
              else old(cron)
      ensures ok ==> Updated(old(cron), cron, ById(runner.scheduleId))
      ensures ok <==> Absent(old(cron), runner.scheduleId) || parse(runner.expression).Some?
      ensures ok ==> JobRenewed(old(cron), cron, runner, parse(runner.expression))
    {
      var cronEntries := Entries();
      order := cronEntries;
      FilterOfPermutation(order, cron, ById(runner.scheduleId));
      AbsentMeans(cron, runner.scheduleId);
      var newCron: seq<Entry<S>>;
      ok, newCron := RebuildForJob(cronEntries, runner);
      if !ok {
        return;
      }
      UpdateMeaning(cron, order, ById(runner.scheduleId), Renewal(parse(runner.expression), runner));
      JobIsRenewed(cron, order, runner, parse(runner.expression));
      cron := newCron;
    }

    // The loop that fills the new table; a failing AddJob ends it.
    method RebuildForJob(cronEntries: seq<Entry<S>>, runner: Job) returns (ok: bool, newCron: seq<Entry<S>>)
      ensures ok <==> CountIf(cronEntries, ById(runner.scheduleId)) == 0 || parse(runner.expression).Some?
      ensures ok ==> newCron == Doubled(cronEntries, ById(runner.scheduleId), Renewal(parse(runner.expression), runner))
    {
      newCron := [];
      ghost var selected, renew := ById<S>(runner.scheduleId), Renewal(parse(runner.expression), runner);
      for i := 0 to |cronEntries|
        invariant newCron == Doubled(cronEntries[..i], selected, renew)
        invariant parse(runner.expression).None? ==> CountIf(cronEntries[..i], selected) == 0
      {
        var entry := cronEntries[i];
        assert cronEntries[..i + 1][..i] == cronEntries[..i];
        if entry.job.scheduleId == runner.scheduleId {
          var jobRunner := runner;
          if entry.job.jobType == SNAPSHOT_JOB {
            jobRunner := entry.job;
          }
          var schedule := parse(runner.expression);
          if schedule.None? {
            SelectedIsCounted(cronEntries, i, selected);
            return false, newCron;
          }
          newCron := newCron + [Entry(schedule.value, jobRunner)];
        }
        newCron := newCron + [entry];
      }
      assert cronEntries[..|cronEntries|] == cronEntries;
      ok := true;
    }

    // The same for every entry of a job type, which keeps its job.
    method UpdateSystemJobSchedule(jobType: int, newExpression: string) returns (ok: bool, ghost order: seq<Entry<S>>)
      modifies this
      ensures multiset(order) == multiset(old(cron))
      ensures ok <==> CountIf(old(cron), ByType(jobType)) == 0 || parse(newExpression).Some?
      ensures cron == if ok then Doubled(order, ByType(jobType), Rescheduling(parse(newExpression))) else old(cron)
      ensures ok ==> Updated(old(cron), cron, ByType(jobType))
      ensures ok <==> AbsentType(old(cron), jobType) || parse(newExpression).Some?
      ensures ok ==> TypeRenewed(old(cron), cron, jobType, parse(newExpression))
    {
      var cronEntries := Entries();
      order := cronEntries;
      FilterOfPermutation(order, cron, ByType(jobType));
      AbsentTypeMeans(cron, jobType);
      var newCron: seq<Entry<S>>;
      ok, newCron := RebuildForType(cronEntries, jobType, newExpression);
      if !ok {
        return;
      }
      UpdateMeaning(cron, order, ByType(jobType), Rescheduling(parse(newExpression)));
      TypeIsRenewed(cron, order, jobType, parse(newExpression));
      cron := newCron;
    }

    method RebuildForType(cronEntries: seq<Entry<S>>, jobType: int, newExpression: string)
      returns (ok: bool, newCron: seq<Entry<S>>)
      ensures ok <==> CountIf(cronEntries, ByType(jobType)) == 0 || parse(newExpression).Some?
      ensures ok ==> newCron == Doubled(cronEntries, ByType(jobType), Rescheduling(parse(newExpression)))
    {
      newCron := [];
      ghost var selected, renew := ByType<S>(jobType), Rescheduling(parse(newExpression));
      for i := 0 to |cronEntries|
        invariant newCron == Doubled(cronEntries[..i], selected, renew)
        invariant parse(newExpression).None? ==> CountIf(cronEntries[..i], selected) == 0
      {
        var entry := cronEntries[i];
        assert cronEntries[..i + 1][..i] == cronEntries[..i];
        if entry.job.jobType == jobType {
          var schedule := parse(newExpression);
          if schedule.None? {
            SelectedIsCounted(cronEntries, i, selected);
            return false, newCron;
          }
          newCron := newCron + [Entry(schedule.value, entry.job)];
        }
        newCron := newCron + [entry];
      }
      assert cronEntries[..|cronEntries|] == cronEntries;
      ok := true;
    }

    // The job is gone and every other entry stays.
    method UnscheduleJob(scheduleId: int)
      modifies this
      ensures multiset(cron) == multiset(Filter(old(cron), Not(ById(scheduleId))))
      ensures CountIf(cron, ById(scheduleId)) == 0
      ensures forall e :: e in cron <==> e in old(cron) && e.job.scheduleId != scheduleId
    {
      var cronEntries := Entries();
      forall e
        ensures e in cronEntries <==> e in cron
      {
        SameMembers(cronEntries, cron, e);
      }
      FilterMembers(cronEntries, Not(ById<S>(scheduleId)));
      FilterOfPermutation(cronEntries, cron, Not(ById<S>(scheduleId)));
      cron := RebuildWithout(cronEntries, scheduleId);
    }

    // The loop that fills the new table with the entries of other jobs.
    method RebuildWithout(cronEntries: seq<Entry<S>>, scheduleId: int) returns (newCron: seq<Entry<S>>)
      ensures newCron == Filter(cronEntries, Not(ById(scheduleId)))
      ensures CountIf(newCron, ById(scheduleId)) == 0
    {
      newCron := [];
      ghost var others := Not(ById<S>(scheduleId));
      for i := 0 to |cronEntries|
        invariant newCron == Filter(cronEntries[..i], others)
        invariant CountIf(newCron, ById(scheduleId)) == 0
      {
        var entry := cronEntries[i];
        assert cronEntries[..i + 1][..i] == cronEntries[..i];
        if entry.job.scheduleId == scheduleId {
          continue;
        }
        FilterSnoc(newCron, entry, ById<S>(scheduleId));
        newCron := newCron + [entry];
      }
      assert cronEntries[..|cronEntries|] == cronEntries;
    }

    // Updating one job again and again: its entries double with every update that succeeds.
    method UpdateAgainAndAgain(scheduleId: int, runners: seq<Job>) returns (successes: nat)
      requires forall i :: 0 <= i < |runners| ==> runners[i].scheduleId == scheduleId
      modifies this
      ensures successes <= |runners|
      ensures CountIf(old(cron), ById(scheduleId)) > 0 ==>
                successes == CountTo(runners, Parsing(parse), |runners|)
      ensures CountIf(cron, ById(scheduleId)) == Power2(successes) * CountIf(old(cron), ById(scheduleId))
      ensures multiset(Filter(cron, Not(ById(scheduleId)))) == multiset(Filter(old(cron), Not(ById(scheduleId))))
    {
      successes := UpdateEach(scheduleId, runners);
      TraceMeaning(CountIf(old(cron), ById(scheduleId)), runners, Parsing(parse), |runners|);
    }

    method UpdateEach(scheduleId: int, runners: seq<Job>) returns (successes: nat)
      requires forall i :: 0 <= i < |runners| ==> runners[i].scheduleId == scheduleId
      modifies this
      ensures successes == Trace(CountIf(old(cron), ById(scheduleId)), runners, Parsing(parse), |runners|).0
      ensures CountIf(cron, ById(scheduleId)) ==
              Trace(CountIf(old(cron), ById(scheduleId)), runners, Parsing(parse), |runners|).1
      ensures multiset(Filter(cron, Not(ById(scheduleId)))) == multiset(Filter(old(cron), Not(ById(scheduleId))))
    {
      successes := 0;
      ghost var count := CountIf(cron, ById(scheduleId));
      ghost var others := multiset(Filter(cron, Not(ById(scheduleId))));
      for i := 0 to |runners|
        invariant successes == Trace(count, runners, Parsing(parse), i).0
        invariant CountIf(cron, ById(scheduleId)) == Trace(count, runners, Parsing(parse), i).1
        invariant multiset(Filter(cron, Not(ById(scheduleId)))) == others
      {
        var ok := UpdateOnce(runners[i], scheduleId);
        if ok {
          successes := successes + 1;
        }
      }
    }

    method UpdateOnce(runner: Job, ghost scheduleId: int) returns (ok: bool)
      requires runner.scheduleId == scheduleId
      modifies this
      ensures ok <==> CountIf(old(cron), ById(scheduleId)) == 0 || Parsing(parse)(runner)
      ensures CountIf(cron, ById(scheduleId)) ==
              CountIf(old(cron), ById(scheduleId)) + if ok then CountIf(old(cron), ById(scheduleId)) else 0
      ensures multiset(Filter(cron, Not(ById(scheduleId)))) == multiset(Filter(old(cron), Not(ById(scheduleId))))
    {
      var updated, _ := UpdateJobSchedule(runner);
      ok := updated;
    }

    // Any history of operations none of which concerns a given job: its entries are conserved.
    method Operate(operations: seq<Operation>, ghost scheduleId: int, ghost jobType: int)
      requires forall i :: 0 <= i < |operations| ==> !Concerns(operations[i], scheduleId, jobType)
      modifies this
      ensures multiset(Filter(cron, Of(scheduleId, jobType))) == multiset(Filter(old(cron), Of(scheduleId, jobType)))
    {
      for i := 0 to |operations|
        invariant multiset(Filter(cron, Of(scheduleId, jobType))) ==
                  multiset(Filter(old(cron), Of(scheduleId, jobType)))
      {
        OperateOnce(operations[i], scheduleId, jobType);
      }
    }

    method OperateOnce(operation: Operation, ghost scheduleId: int, ghost jobType: int)
      requires !Concerns(operation, scheduleId, jobType)
      modifies this
      ensures multiset(Filter(cron, Of(scheduleId, jobType))) == multiset(Filter(old(cron), Of(scheduleId, jobType)))
    {
      ghost var before := cron;
      match operation {
        case Schedule(runner) =>
          var ok := ScheduleJob(runner);
          if ok {
            FilterSnoc(before, cron[|before|], Of(scheduleId, jobType));
          }
        case Update(runner) =>
          var ok, _ := UpdateJobSchedule(runner);
          FilterWithin(before, cron, Not(ById(runner.scheduleId)), Of(scheduleId, jobType), ok);
        case UpdateSystem(t, expression) =>
          var ok, _ := UpdateSystemJobSchedule(t, expression);
          FilterWithin(before, cron, Not(ByType(t)), Of(scheduleId, jobType), ok);
        case Unschedule(id) =>
          UnscheduleJob(id);
          FilterOfPermutation(cron, Filter(before, Not(ById(id))), Of(scheduleId, jobType));
          FilterFilter(before, Not(ById(id)), Of(scheduleId, jobType));
      }
    }
  }

  datatype Operation =
    | Schedule(runner: Job)
    | Update(runner: Job)
    | UpdateSystem(jobType: int, expression: string)
    | Unschedule(scheduleId: int)

  // The operation adds, renews or removes entries of the job.
  predicate Concerns(op: Operation, scheduleId: int, jobType: int) {
    match op
    case Schedule(runner) => runner.scheduleId == scheduleId && runner.jobType == jobType
    case Update(runner) => runner.scheduleId == scheduleId
    case UpdateSystem(t, _) => t == jobType
    case Unschedule(id) => id == scheduleId
  }

  function ById<S>(id: int): Entry<S> -> bool {
    (e: Entry<S>) => e.job.scheduleId == id
  }

  function ByType<S>(jobType: int): Entry<S> -> bool {
    (e: Entry<S>) => e.job.jobType == jobType
  }

  function Of<S>(id: int, jobType: int): Entry<S> -> bool {
    (e: Entry<S>) => e.job.scheduleId == id && e.job.jobType == jobType
  }

  function Not<T>(p: T -> bool): T -> bool {
    (x: T) => !p(x)
  }

  // The expression of the job is understood.
  function Parsing<S>(parse: string -> Option<S>): Job -> bool {
    (r: Job) => parse(r.expression).Some?
  }

  // A snapshot job keeps its runner when its schedule changes.
  function Renewal<S>(schedule: Option<S>, runner: Job): Entry<S> -> Entry<S> {
    (e: Entry<S>) =>
      if schedule.None? then e
      else Entry(schedule.value, if e.job.jobType == SNAPSHOT_JOB then e.job else runner)
  }

  function Rescheduling<S>(schedule: Option<S>): Entry<S> -> Entry<S> {
    (e: Entry<S>) => if schedule.None? then e else Entry(schedule.value, e.job)
  }

  // What a successful update does to the table as a whole.
  ghost predicate Updated<S>(before: seq<Entry<S>>, now: seq<Entry<S>>, selected: Entry<S> -> bool) {
    && multiset(before) <= multiset(now)
    && CountIf(now, selected) == 2 * CountIf(before, selected)
    && multiset(Filter(now, Not(selected))) == multiset(Filter(before, Not(selected)))
  }

  lemma UpdateMeaning<S(!new)>(
    before: seq<Entry<S>>, order: seq<Entry<S>>, selected: Entry<S> -> bool, renew: Entry<S> -> Entry<S>)
    requires multiset(order) == multiset(before)
    requires forall e :: selected(e) ==> selected(renew(e))
    ensures Updated(before, Doubled(order, selected, renew), selected)
  {
    DoubledKeeps(order, selected, renew);
    FilterOfPermutation(order, before, selected);
    FilterOfPermutation(order, before, Not(selected));
    SameFilter(order, Not(selected), x => !selected(x));
    SameFilter(Doubled(order, selected, renew), Not(selected), x => !selected(x));
  }

  lemma {:induction false} SameFilter<T(!new)>(xs: seq<T>, p: T -> bool, q: T -> bool)
    requires forall x :: p(x) == q(x)
    ensures Filter(xs, p) == Filter(xs, q)
  {
    if xs != [] {
      SameFilter(xs[..|xs| - 1], p, q);
    }
  }

  lemma SelectedIsCounted<T>(xs: seq<T>, i: nat, p: T -> bool)
    requires i < |xs| && p(xs[i])
    ensures CountIf(xs, p) > 0
  {
    FilterMembers(xs, p);
  }

  // Filtering by q after filtering by p, when q implies p, is filtering by q.
  lemma {:induction false} FilterFilter<T(!new)>(xs: seq<T>, p: T -> bool, q: T -> bool)
    requires forall x :: q(x) ==> p(x)
    ensures Filter(Filter(xs, p), q) == Filter(xs, q)
  {
    if xs != [] {
      var n := |xs| - 1;
      FilterFilter(xs[..n], p, q);
      if p(xs[n]) {
        FilterSnoc(Filter(xs[..n], p), xs[n], q);
      }
    }
  }

  lemma FilterWithin<T(!new)>(before: seq<T>, now: seq<T>, p: T -> bool, q: T -> bool, changed: bool)
    requires forall x :: q(x) ==> p(x)
    requires if changed then multiset(Filter(now, p)) == multiset(Filter(before, p)) else now == before
    ensures multiset(Filter(now, q)) == multiset(Filter(before, q))
  {
    if changed {
      FilterFilter(before, p, q);
      FilterFilter(now, p, q);
      FilterOfPermutation(Filter(now, p), Filter(before, p), q);
    }
  }

  // ----- What an update does to the table, entry by entry -----

  // The entries of a rebuilt table are the old ones and the renewals of the selected ones.
  lemma {:induction false} DoubledMembers<T(!new)>(xs: seq<T>, selected: T -> bool, renew: T -> T, y: T)
    ensures y in Doubled(xs, selected, renew) <==>
            y in xs || exists x :: x in xs && selected(x) && renew(x) == y
  {
    if xs != [] {
      var n := |xs| - 1;
      DoubledMembers(xs[..n], selected, renew, y);
      assert xs == xs[..n] + [xs[n]];
    }
  }

  lemma SameMembers<T>(xs: seq<T>, ys: seq<T>, x: T)
    requires multiset(xs) == multiset(ys)
    ensures x in xs <==> x in ys
  {
    assert x in xs <==> x in multiset(xs);
    assert x in ys <==> x in multiset(ys);
  }

  // An update keeps every entry and adds renewals of selected ones only.
  lemma UpdatedMembers<S(!new)>(
    before: seq<Entry<S>>, order: seq<Entry<S>>,
    selected: Entry<S> -> bool, renew: Entry<S> -> Entry<S>, e: Entry<S>)
    requires multiset(order) == multiset(before)
    ensures e in Doubled(order, selected, renew) <==>
            e in before || exists x :: x in before && selected(x) && renew(x) == e
  {
    DoubledMembers(order, selected, renew, e);
    SameMembers(order, before, e);
    if x :| x in before && selected(x) && renew(x) == e {
      SameMembers(order, before, x);
    }
    if x :| x in order && selected(x) && renew(x) == e {
      SameMembers(order, before, x);
    }
  }

  // Every entry stays; each entry of the job is joined by one at the new times, with the new
  // runner unless it takes snapshots; and nothing else appears.
  ghost predicate JobRenewed<S(!new)>(before: seq<Entry<S>>, now: seq<Entry<S>>, runner: Job, times: Option<S>) {
    && (forall e :: e in before ==> e in now)
    && (forall e :: e in before && e.job.scheduleId == runner.scheduleId ==>
          times.Some? && Entry(times.value, if e.job.jobType == 2 then e.job else runner) in now)
    && (forall e :: e in now ==> e in before || RenewsJob(e, before, runner, times))
  }

  ghost predicate RenewsJob<S(!new)>(e: Entry<S>, before: seq<Entry<S>>, runner: Job, times: Option<S>) {
    exists x :: x in before && x.job.scheduleId == runner.scheduleId && times == Some(e.schedule) &&
      e.job == if x.job.jobType == 2 then x.job else runner
  }

  // The same for the entries of a type, which keep their runners.
  ghost predicate TypeRenewed<S(!new)>(before: seq<Entry<S>>, now: seq<Entry<S>>, jobType: int, times: Option<S>) {
    && (forall e :: e in before ==> e in now)
    && (forall e :: e in before && e.job.jobType == jobType ==> times.Some? && Entry(times.value, e.job) in now)
    && (forall e :: e in now ==> e in before || RenewsType(e, before, jobType, times))
  }

  ghost predicate RenewsType<S(!new)>(e: Entry<S>, before: seq<Entry<S>>, jobType: int, times: Option<S>) {
    exists x :: x in before && x.job.jobType == jobType && times == Some(e.schedule) && e.job == x.job
  }

  // No entry belongs to the job.
  ghost predicate Absent<S(!new)>(cron: seq<Entry<S>>, scheduleId: int) {
    forall e :: e in cron ==> e.job.scheduleId != scheduleId
  }

  lemma AbsentMeans<S(!new)>(cron: seq<Entry<S>>, scheduleId: int)
    ensures Absent(cron, scheduleId) <==> CountIf(cron, ById(scheduleId)) == 0
  {
    var found := Filter(cron, ById(scheduleId));
    FilterMembers(cron, ById(scheduleId));
    if found != [] {
      assert found[0] in found;
    }
  }

  ghost predicate AbsentType<S(!new)>(cron: seq<Entry<S>>, jobType: int) {
    forall e :: e in cron ==> e.job.jobType != jobType
  }

  lemma AbsentTypeMeans<S(!new)>(cron: seq<Entry<S>>, jobType: int)
    ensures AbsentType(cron, jobType) <==> CountIf(cron, ByType(jobType)) == 0
  {
    var found := Filter(cron, ByType(jobType));
    FilterMembers(cron, ByType(jobType));
    if found != [] {
      assert found[0] in found;
    }
  }

  lemma JobIsRenewed<S(!new)>(before: seq<Entry<S>>, order: seq<Entry<S>>, runner: Job, times: Option<S>)
    requires multiset(order) == multiset(before)
    requires CountIf(before, ById(runner.scheduleId)) == 0 || times.Some?
    ensures JobRenewed(before, Doubled(order, ById(runner.scheduleId), Renewal(times, runner)), runner, times)
  {
    var selected, renew := ById<S>(runner.scheduleId), Renewal(times, runner);
    var now := Doubled(order, selected, renew);
    AbsentMeans(before, runner.scheduleId);
    forall e | e in before
      ensures e in now && (selected(e) ==> renew(e) in now)
    {
      UpdatedMembers(before, order, selected, renew, e);
      UpdatedMembers(before, order, selected, renew, renew(e));
    }
    forall e | e in now && e !in before
      ensures RenewsJob(e, before, runner, times)
    {
      UpdatedMembers(before, order, selected, renew, e);
    }
  }

  lemma TypeIsRenewed<S(!new)>(before: seq<Entry<S>>, order: seq<Entry<S>>, jobType: int, times: Option<S>)
    requires multiset(order) == multiset(before)
    requires CountIf(before, ByType(jobType)) == 0 || times.Some?
    ensures TypeRenewed(before, Doubled(order, ByType(jobType), Rescheduling(times)), jobType, times)
  {
    var selected, renew := ByType<S>(jobType), Rescheduling(times);
    var now := Doubled(order, selected, renew);
    FilterMembers(before, selected);
    forall e | e in before
      ensures e in now && (selected(e) ==> times.Some? && renew(e) in now)
    {
      UpdatedMembers(before, order, selected, renew, e);
      UpdatedMembers(before, order, selected, renew, renew(e));
      if selected(e) {
        assert e in Filter(before, selected);
      }
    }
    forall e | e in now && e !in before
      ensures RenewsType(e, before, jobType, times)
    {
      UpdatedMembers(before, order, selected, renew, e);
    }
  }
}
