// The stored schedules and the job table: api/http/handler/schedules, the snapshot interval of
// api/http/handler/settings, and the start of the server (api/cmd/portainer/main.go).
module Schedules {
  import opened Collections
  import opened Bucket
  import opened Scheduler

  const SCRIPT_EXECUTION_JOB := 1
  const ENDPOINT_SYNC_JOB := 3

  // ----- What the table owes to the store -----

  predicate Keyed(data: map<int, Job>, sequence: nat) {
    forall k :: k in data ==> data[k].scheduleId == k && 0 < k <= sequence
  }

  // Every entry belongs to a stored schedule of its type. In particular a schedule that has been
  // deleted has no entry.
  ghost predicate Sound<S(!new)>(data: map<int, Job>, cron: seq<Entry<S>>) {
    forall e :: e in cron ==> e.job.scheduleId in data && data[e.job.scheduleId].jobType == e.job.jobType
  }

  // Some entry runs the schedule, at the times and with the script that are stored. The name is
  // left aside: a schedule can be renamed without its job.
  ghost predicate RunsAsStored<S(!new)>(cron: seq<Entry<S>>, parse: string -> Option<S>, job: Job) {
    exists e :: Executes(e, cron, parse, job)
  }

  predicate Executes<S(==)>(e: Entry<S>, cron: seq<Entry<S>>, parse: string -> Option<S>, job: Job) {
    e in cron && e.job == job.(name := e.job.name) && parse(job.expression) == Some(e.schedule)
  }

  ghost predicate Complete<S(!new)>(data: map<int, Job>, cron: seq<Entry<S>>, parse: string -> Option<S>) {
    forall k :: k in data && data[k].jobType == SCRIPT_EXECUTION_JOB ==> RunsAsStored(cron, parse, data[k])
  }

  // ----- Requests -----

  datatype CreatePayload = CreatePayload(
    name: string, expression: string, endpoints: seq<int>, image: string, retryCount: int, retryInterval: int)

  datatype UpdatePayload = UpdatePayload(
    name: Option<string>, image: Option<string>, expression: Option<string>, endpoints: Option<seq<int>>,
    fileContent: Option<string>, retryCount: Option<int>, retryInterval: Option<int>)

  // Changes to what only script schedules have.
  predicate TouchesScript(p: UpdatePayload) {
    p.endpoints.Some? || p.image.Some? || p.retryCount.Some? || p.retryInterval.Some?
  }

  predicate TouchesJob(p: UpdatePayload) {
    TouchesScript(p) || p.expression.Some? || p.fileContent.Some?
  }

  function ChangedScript(s: ScriptJob, p: UpdatePayload): ScriptJob {
    s.(endpoints := p.endpoints.GetOr(s.endpoints),
    image := p.image.GetOr(s.image),
    retryCount := p.retryCount.GetOr(s.retryCount),
    retryInterval := p.retryInterval.GetOr(s.retryInterval))
  }

  function Changed(job: Job, p: UpdatePayload): Job {
    job.(name := p.name.GetOr(job.name),
    expression := p.expression.GetOr(job.expression),
    script := if job.script.Some? then Some(ChangedScript(job.script.value, p)) else None)
  }

  // `valid` says whether the payload passes its checks, `scriptPath` and `stored` what the file
  // service answers, `removed` whether it could remove the files.
  datatype Request =
    | Create(creation: CreatePayload, valid: bool, scriptPath: Option<string>)
    | Update(id: int, change: UpdatePayload, valid: bool, stored: bool)
    | Delete(id: int, removed: bool)
    | SnapshotInterval(interval: string)

  datatype Response = BadRequest | NotFound | ServerError | Panicked | Done | Saved(job: Job)

  class Handler<S(==,!new)> {
    const schedules: Bucket<Job>
    const scheduler: JobScheduler<S>

    constructor (schedules: Bucket<Job>, scheduler: JobScheduler<S>)
      ensures this.schedules == schedules && this.scheduler == scheduler
    {
      this.schedules, this.scheduler := schedules, scheduler;
    }

    ghost predicate Valid()
      reads schedules, scheduler
    {
      Keyed(schedules.data, schedules.sequence) && Sound(schedules.data, scheduler.cron)
    }

    ghost predicate AllRun()
      reads schedules, scheduler
    {
      Complete(schedules.data, scheduler.cron, scheduler.parse)
    }

    // POST /schedules: the job is scheduled first, the record stored after it.
    method ScheduleCreate(payload: CreatePayload, valid: bool, scriptPath: Option<string>) returns (response: Response)
      requires Valid()
      modifies schedules, scheduler
      ensures Valid() && (old(AllRun()) ==> AllRun())
      ensures response.BadRequest? <==> !valid
      ensures response.Saved? <==> valid && scriptPath.Some? && scheduler.parse(payload.expression).Some?
      ensures response.BadRequest? || response.ServerError? || response.Saved?
      ensures !response.Saved? ==> schedules.data == old(schedules.data) && scheduler.cron == old(scheduler.cron)
      ensures !response.Saved? ==> schedules.sequence == old(schedules.sequence)
      ensures response.Saved? ==>
                && schedules.sequence == old(schedules.sequence) + 1
                && response.job.scheduleId == schedules.sequence
                && response.job.jobType == SCRIPT_EXECUTION_JOB
                && schedules.data == old(schedules.data)[schedules.sequence := response.job]
                && response.job.expression == payload.expression
                && RunsAsStored(scheduler.cron, scheduler.parse, response.job)
      ensures response.Saved? ==>
                && response.job == Job(schedules.sequence, payload.name, 1, payload.expression, Some(ScriptJob(
                payload.endpoints, payload.image, scriptPath.value, payload.retryCount, payload.retryInterval)))
                && scheduler.cron == old(scheduler.cron) + [
                Entry(scheduler.parse(payload.expression).value, response.job)]
    {
      if !valid {
        return BadRequest;
      }
      var id := schedules.GetNextIdentifier();
      if scriptPath.None? {
        return ServerError;
      }
      var script := ScriptJob(
        payload.endpoints, payload.image, scriptPath.value, payload.retryCount, payload.retryInterval);
      var job := Job(id, payload.name, SCRIPT_EXECUTION_JOB, payload.expression, Some(script));
      var ok := Register(job);
      if !ok {
        return ServerError;
      }
      response := Saved(job);
    }

    // Schedules a job and stores its record under the next identifier.
    method Register(job: Job) returns (ok: bool)
      requires Valid() && job.scheduleId == schedules.sequence + 1
      modifies schedules, scheduler
      ensures Valid() && (old(AllRun()) ==> AllRun())
      ensures ok <==> scheduler.parse(job.expression).Some?
      ensures !ok ==> schedules.data == old(schedules.data) && scheduler.cron == old(scheduler.cron)
      ensures !ok ==> schedules.sequence == old(schedules.sequence)
      ensures ok ==>
                && schedules.sequence == job.scheduleId
                && schedules.data == old(schedules.data)[job.scheduleId := job]
                && scheduler.cron == old(scheduler.cron) + [Entry(scheduler.parse(job.expression).value, job)]
                && RunsAsStored(scheduler.cron, scheduler.parse, job)
    {
      ghost var before, data := scheduler.cron, schedules.data;
      ok := scheduler.ScheduleJob(job);
      if !ok {
        return;
      }
      schedules.SetSequence(job.scheduleId);
      schedules.Put(job.scheduleId, job);
      ghost var entry := Entry(scheduler.parse(job.expression).value, job);
      assert Executes(entry, scheduler.cron, scheduler.parse, job);
      if Complete(data, before, scheduler.parse) {
        StillComplete(data, before, scheduler.cron, scheduler.parse, job);
      }
    }

    // PUT /schedules/{id}: the job is updated first, and only when something but the name changes.
    method ScheduleUpdate(id: int, payload: UpdatePayload, valid: bool, stored: bool) returns (response: Response)
      requires Valid()
      modifies schedules`data, scheduler
      ensures Valid() && (old(AllRun()) ==> AllRun())
      ensures response.BadRequest? <==> !valid
      ensures response.NotFound? <==> valid && id !in old(schedules.data)
      ensures response.Panicked? <==>
                valid && id in old(schedules.data) && old(schedules.data)[id].script.None? && TouchesScript(payload)
      ensures !response.Done?
      ensures response.Saved? <==>
                && valid && id in old(schedules.data)
                && !(old(schedules.data)[id].script.None? && TouchesScript(payload))
                && (payload.fileContent.Some? ==> stored)
                && (OnlyRenames(payload) || Absent(old(scheduler.cron), id) ||
                    scheduler.parse(payload.expression.GetOr(old(schedules.data)[id].expression)).Some?)
      ensures response.Saved? ==> ChangedBy(old(schedules.data)[id], response.job, payload)
      ensures response.Saved? && !OnlyRenames(payload) ==>
                JobRenewed(
                  old(scheduler.cron), scheduler.cron, response.job, scheduler.parse(response.job.expression))
      ensures !response.Saved? ==> schedules.data == old(schedules.data) && scheduler.cron == old(scheduler.cron)
      ensures response.Saved? ==>
                && response.job == Changed(old(schedules.data)[id], payload)
                && schedules.data == old(schedules.data)[id := response.job]
                && multiset(old(scheduler.cron)) <= multiset(scheduler.cron)
                && (!TouchesJob(payload) ==> scheduler.cron == old(scheduler.cron))
    {
      if !valid {
        return BadRequest;
      }
      var found := schedules.Get(id);
      if found.None? {
        return NotFound;
      }
      var job := found.value;
      ChangeMeans(job, payload);
      var updateJobSchedule := payload.expression.Some?;
      job := job.(name := payload.name.GetOr(job.name));
      if TouchesScript(payload) {
        if job.script.None? {
          return Panicked;
        }
        var script := ChangeScript(job.script.value, payload);
        job := job.(script := Some(script));
        updateJobSchedule := true;
      }
      job := job.(expression := payload.expression.GetOr(job.expression));
      if payload.fileContent.Some? {
        if !stored {
          return ServerError;
        }
        updateJobSchedule := true;
      }
      if updateJobSchedule {
        var ok := Reschedule(job);
        if !ok {
          return ServerError;
        }
      } else {
        RenamedStillRuns(schedules.data, scheduler.cron, scheduler.parse, job);
        schedules.Put(id, job);
      }
      response := Saved(job);
    }

    method ChangeScript(stored: ScriptJob, payload: UpdatePayload) returns (script: ScriptJob)
      ensures script == ChangedScript(stored, payload)
    {
      script := stored;
      if payload.endpoints.Some? {
        script := script.(endpoints := payload.endpoints.value);
      }
      if payload.image.Some? {
        script := script.(image := payload.image.value);
      }
      if payload.retryCount.Some? {
        script := script.(retryCount := payload.retryCount.value);
      }
      if payload.retryInterval.Some? {
        script := script.(retryInterval := payload.retryInterval.value);
      }
    }

    // The job of a stored schedule is updated in the table and, if that succeeds, in the store.
    method Reschedule(job: Job) returns (ok: bool)
      requires Valid() && job.scheduleId in schedules.data && schedules.data[job.scheduleId].jobType == job.jobType
      modifies schedules`data, scheduler
      ensures Valid() && (old(AllRun()) ==> AllRun())
      ensures ok <==> Absent(old(scheduler.cron), job.scheduleId) || scheduler.parse(job.expression).Some?
      ensures ok ==> JobRenewed(old(scheduler.cron), scheduler.cron, job, scheduler.parse(job.expression))
      ensures !ok ==> schedules.data == old(schedules.data) && scheduler.cron == old(scheduler.cron)
      ensures ok ==>
                && schedules.data == old(schedules.data)[job.scheduleId := job]
                && multiset(old(scheduler.cron)) <= multiset(scheduler.cron)
    {
      ghost var before, data := scheduler.cron, schedules.data;
      ok := UpdateTable(job);
      if !ok {
        return;
      }
      schedules.Put(job.scheduleId, job);
      RescheduledStaysSound(data, before, scheduler.cron, scheduler.parse, job);
      RescheduledStaysComplete(data, before, scheduler.cron, scheduler.parse, job);
    }

    method UpdateTable(job: Job) returns (ok: bool)
      modifies scheduler
      ensures ok <==> Absent(old(scheduler.cron), job.scheduleId) || scheduler.parse(job.expression).Some?
      ensures ok ==> JobRenewed(old(scheduler.cron), scheduler.cron, job, scheduler.parse(job.expression))
      ensures ok ==> multiset(old(scheduler.cron)) <= multiset(scheduler.cron)
      ensures !ok ==> scheduler.cron == old(scheduler.cron)
    {
      var updated, _ := scheduler.UpdateJobSchedule(job);
      ok := updated;
    }

    // DELETE /schedules/{id}
    method ScheduleDelete(id: int, removed: bool) returns (response: Response)
      requires Valid()
      modifies schedules`data, scheduler
      ensures Valid() && (old(AllRun()) ==> AllRun())
      ensures response.NotFound? <==> id !in old(schedules.data)
      ensures response.BadRequest? <==>
                && id in old(schedules.data)
                && old(schedules.data)[id].jobType in {SNAPSHOT_JOB, ENDPOINT_SYNC_JOB}
      ensures response.NotFound? || response.BadRequest? || response.ServerError? || response.Done?
      ensures response.Done? <==>
                id in old(schedules.data) && old(schedules.data)[id].jobType != 2 &&
                old(schedules.data)[id].jobType != 3 && removed
      ensures !response.Done? ==> schedules.data == old(schedules.data) && scheduler.cron == old(scheduler.cron)
      ensures response.Done? ==>
                && schedules.data == old(schedules.data) - {id}
                && multiset(scheduler.cron) == multiset(Filter(old(scheduler.cron), Not(ById(id))))
                && (forall e :: e in scheduler.cron <==> e in old(scheduler.cron) && e.job.scheduleId != id)
    {
      var found := schedules.Get(id);
      if found.None? {
        return NotFound;
      }
      if found.value.jobType == SNAPSHOT_JOB || found.value.jobType == ENDPOINT_SYNC_JOB {
        return BadRequest;
      }
      if !removed {
        return ServerError;
      }
      ghost var before, data := scheduler.cron, schedules.data;
      scheduler.UnscheduleJob(found.value.scheduleId);
      schedules.Delete(id);
      AfterUnscheduling(data, before, scheduler.cron, scheduler.parse, id);
      response := Done;
    }

    // PUT /settings with another snapshot interval: every snapshot entry and the first stored
    // snapshot schedule.
    method UpdateSnapshotInterval(interval: string) returns (ok: bool)
      requires Valid()
      modifies schedules`data, scheduler
      ensures Valid() && (old(AllRun()) ==> AllRun())
      ensures schedules.data.Keys == old(schedules.data).Keys
      ensures !ok ==> schedules.data == old(schedules.data) && scheduler.cron == old(scheduler.cron)
      ensures ok <==>
                || !HasType(old(schedules.data), 2)
                || AbsentType(old(scheduler.cron), 2)
                || scheduler.parse("@every " + interval).Some?
      ensures !HasType(old(schedules.data), 2) ==>
                schedules.data == old(schedules.data) && scheduler.cron == old(scheduler.cron)
      ensures ok && HasType(old(schedules.data), 2) ==>
                && TypeRenewed(old(scheduler.cron), scheduler.cron, 2, scheduler.parse("@every " + interval))
                && forall k :: IsFirstOfType(old(schedules.data), 2, k) ==>
                     schedules.data == old(schedules.data)[k :=
                       old(schedules.data)[k].(expression := "@every " + interval)]
      ensures ok ==> forall k :: k in schedules.data ==>
                schedules.data[k] == old(schedules.data)[k] ||
                (schedules.data[k] == old(schedules.data)[k].(expression := "@every " + interval) &&
                 schedules.data[k].jobType == SNAPSHOT_JOB)
    {
      var snapshotSchedule := FirstOfType(SNAPSHOT_JOB);
      if snapshotSchedule.None? {
        return true;
      }
      ok := RescheduleSnapshots(snapshotSchedule.value.(expression := "@every " + interval));
    }

    method RescheduleSnapshots(job: Job) returns (ok: bool)
      requires Valid() && job.scheduleId in schedules.data
      requires job.jobType == schedules.data[job.scheduleId].jobType == SNAPSHOT_JOB
      modifies schedules`data, scheduler
      ensures Valid() && (old(AllRun()) ==> AllRun())
      ensures ok <==> AbsentType(old(scheduler.cron), SNAPSHOT_JOB) || scheduler.parse(job.expression).Some?
      ensures ok ==> TypeRenewed(old(scheduler.cron), scheduler.cron, SNAPSHOT_JOB, scheduler.parse(job.expression))
      ensures schedules.data == if ok then old(schedules.data)[job.scheduleId := job] else old(schedules.data)
      ensures !ok ==> scheduler.cron == old(scheduler.cron)
    {
      ghost var before, data := scheduler.cron, schedules.data;
      ghost var order;
      ok, order := scheduler.UpdateSystemJobSchedule(SNAPSHOT_JOB, job.expression);
      if !ok {
        return;
      }
      schedules.Put(job.scheduleId, job);
      AfterSystemUpdate(data, before, scheduler.cron, scheduler.parse, job);
    }

    // The first stored schedule of a type, in key order.
    method FirstOfType(jobType: int) returns (job: Option<Job>)
      requires Keyed(schedules.data, schedules.sequence)
      ensures job.Some? ==>
                && job.value.scheduleId in schedules.data
                && schedules.data[job.value.scheduleId] == job.value
                && job.value.jobType == jobType
                && IsFirstOfType(schedules.data, jobType, job.value.scheduleId)
      ensures job.None? ==> forall k :: k in schedules.data ==> schedules.data[k].jobType != jobType
      ensures job.Some? <==> HasType(schedules.data, jobType)
    {
      var records := schedules.Records();
      ghost var ids := Ordered(schedules.data.Keys);
      for i := 0 to |records|
        invariant forall j :: 0 <= j < i ==> records[j].jobType != jobType
      {
        assert ids[i] in schedules.data && records[i] == schedules.data[ids[i]] && records[i].scheduleId == ids[i];
        if records[i].jobType == jobType {
          job := Some(records[i]);
          FirstInOrder(schedules.data, jobType, i);
          return;
        }
      }
      job := None;
      forall k | k in schedules.data
        ensures schedules.data[k].jobType != jobType
      {
        var j := Position(schedules.data.Keys, k);
        assert records[j] == schedules.data[k];
      }
    }

    // ----- The start of the server -----

    // Every stored script is scheduled, by a runner that points to the one variable of the loop:
    // what a runner is asked for later is the value that variable had last.
    method LoadSchedulesFromDatabase() returns (ok: bool)
      requires scheduler.cron == []
      modifies scheduler
      ensures ok <==> AllParse(Scan(schedules.data), scheduler.parse)
      ensures ok ==> scheduler.cron == Loaded(Scan(schedules.data), scheduler.parse)
    {
      var records := schedules.Records();
      var schedule := new LoopVariable();
      var runners;
      ok, runners := CollectRunners(records, schedule);
      if !ok {
        return;
      }
      var cron := Entered(runners);
      assert cron == Loaded(records, scheduler.parse);
      scheduler.cron := cron;
    }

    // The loop: one variable, assigned in every round.
    method CollectRunners(records: seq<Job>, schedule: LoopVariable) returns (ok: bool, runners: seq<(S, LoopVariable)>)
      modifies schedule
      ensures ok <==> AllParse(records, scheduler.parse)
      ensures ok ==> RunnerTimes(runners) == Parsed(records, scheduler.parse)
      ensures forall r :: 0 <= r < |runners| ==> runners[r].1 == schedule
      ensures ok && records != [] ==> schedule.value == records[|records| - 1]
    {
      runners := [];
      for i := 0 to |records|
        invariant forall j :: 0 <= j < i && records[j].jobType == SCRIPT_EXECUTION_JOB ==>
                    scheduler.parse(records[j].expression).Some?
        invariant i > 0 ==> schedule.value == records[i - 1]
        invariant RunnerTimes(runners) == Present(Times(records, scheduler.parse), i)
        invariant forall r :: 0 <= r < |runners| ==> runners[r].1 == schedule
      {
        schedule.value := records[i];
        if schedule.value.jobType == SCRIPT_EXECUTION_JOB {
          var parsed := scheduler.parse(schedule.value.expression);
          if parsed.None? {
            assert records[i].jobType == SCRIPT_EXECUTION_JOB;
            return false, runners;
          }
          OneMoreRunner(runners, parsed.value, schedule);
          runners := runners + [(parsed.value, schedule)];
        }
      }
      ok := true;
    }

    static lemma OneMoreRunner(runners: seq<(S, LoopVariable)>, times: S, schedule: LoopVariable)
      ensures RunnerTimes(runners + [(times, schedule)]) == RunnerTimes(runners) + [times]
    {
    }

    static function RunnerTimes(runners: seq<(S, LoopVariable)>): (times: seq<S>)
      ensures |times| == |runners|
      ensures forall r :: 0 <= r < |times| ==> times[r] == runners[r].0
    {
      seq(|runners|, r requires 0 <= r < |runners| => runners[r].0)
    }

    // The table as it is read once the loop is over.
    method Entered(runners: seq<(S, LoopVariable)>) returns (cron: seq<Entry<S>>)
      ensures |cron| == |runners|
      ensures forall r :: 0 <= r < |cron| ==> cron[r] == Entry(runners[r].0, runners[r].1.value)
    {
      cron := [];
      for i := 0 to |runners|
        invariant |cron| == i
        invariant forall r :: 0 <= r < i ==> cron[r] == Entry(runners[r].0, runners[r].1.value)
      {
        cron := cron + [Entry(runners[i].0, runners[i].1.value)];
      }
    }

    // A system schedule is registered the first time only: once it is stored it is not even
    // scheduled again.
    method LoadSystemSchedule(jobType: int, name: string, interval: Option<string>) returns (ok: bool)
      requires Valid() && jobType != SCRIPT_EXECUTION_JOB
      modifies schedules, scheduler
      ensures Valid()
      ensures schedules.data.Keys >= old(schedules.data).Keys
      ensures forall k :: k in old(schedules.data) ==> schedules.data[k] == old(schedules.data)[k]
      ensures AllRun() <==> old(AllRun())
      ensures interval.None? || (exists k :: k in old(schedules.data) && old(schedules.data)[k].jobType == jobType) ==>
                ok && schedules.data == old(schedules.data) && scheduler.cron == old(scheduler.cron)
      ensures !ok ==> schedules.data == old(schedules.data) && scheduler.cron == old(scheduler.cron)
      ensures ok <==> Registers(old(schedules.data), jobType, interval, scheduler.parse)
      ensures forall t :: t != jobType ==> (HasType(schedules.data, t) <==> HasType(old(schedules.data), t))
      ensures ok && interval.Some? && !HasType(old(schedules.data), jobType) ==>
                var job := Job(old(schedules.sequence) + 1, name, jobType, "@every " + interval.value, None);
                && schedules.data == old(schedules.data)[job.scheduleId := job]
                && scheduler.cron == old(scheduler.cron) + [Entry(scheduler.parse(job.expression).value, job)]
    {
      if interval.None? {
        return true;
      }
      var existing := FirstOfType(jobType);
      if existing.Some? {
        return true;
      }
      var id := schedules.GetNextIdentifier();
      ghost var data, before := schedules.data, scheduler.cron;
      var job := Job(id, name, jobType, "@every " + interval.value, None);
      ok := Register(job);
      if ok {
        SystemEntryRunsNoScript(data, before, scheduler.cron[|before|], scheduler.parse, job);
        OtherTypes(data, job);
      }
    }

    // A new process: an empty table, filled from the database. The scripts then all run exactly
    // when none of them is stored before another schedule.
    method Start(syncInterval: Option<string>, snapshotInterval: Option<string>) returns (ok: bool)
      requires Keyed(schedules.data, schedules.sequence)
      modifies schedules, scheduler
      ensures Keyed(schedules.data, schedules.sequence)
      ensures ok ==> Valid()
      ensures ok ==> (AllRun() <==> ScriptsAreLast(old(schedules.data)))
      ensures ok <==>
                && AllParse(Scan(old(schedules.data)), scheduler.parse)
                && Registers(old(schedules.data), 3, syncInterval, scheduler.parse)
                && Registers(old(schedules.data), 2, snapshotInterval, scheduler.parse)
      ensures syncInterval.None? && snapshotInterval.None? ==>
                && schedules.data == old(schedules.data)
                && (ok <==> AllParse(Scan(schedules.data), scheduler.parse))
                && (ok ==> scheduler.cron == Loaded(Scan(schedules.data), scheduler.parse))
    {
      ok := FillTable();
      if !ok {
        return;
      }
      ok := LoadSystemSchedule(ENDPOINT_SYNC_JOB, "system_endpointsync", syncInterval);
      if !ok {
        return;
      }
      ok := LoadSystemSchedule(SNAPSHOT_JOB, "system_snapshot", snapshotInterval);
    }

    // An empty table is filled with the stored scripts.
    method FillTable() returns (ok: bool)
      requires Keyed(schedules.data, schedules.sequence)
      modifies scheduler
      ensures ok <==> AllParse(Scan(schedules.data), scheduler.parse)
      ensures ok ==> Valid() && scheduler.cron == Loaded(Scan(schedules.data), scheduler.parse)
      ensures ok ==> (AllRun() <==> ScriptsAreLast(schedules.data))
    {
      scheduler.cron := [];
      ok := LoadSchedulesFromDatabase();
      if ok {
        LoadedIsSound(schedules.data, schedules.sequence, scheduler.parse);
        LoadedIsComplete(schedules.data, schedules.sequence, scheduler.parse);
      }
    }

    // Any number of processes one after the other, each with a history of requests: no entry
    // ever outlives its schedule.
    method Live(sessions: seq<(Option<string>, Option<string>, seq<Request>)>) returns (ok: bool)
      requires Keyed(schedules.data, schedules.sequence)
      modifies schedules, scheduler
      ensures ok && sessions != [] ==> Valid()
    {
      ok := true;
      for i := 0 to |sessions|
        invariant Keyed(schedules.data, schedules.sequence)
        invariant i > 0 ==> Valid()
      {
        ok := Start(sessions[i].0, sessions[i].1);
        if !ok {
          return;
        }
        Serve(sessions[i].2);
      }
    }

    // Any history of requests to one running server: no entry outlives its schedule, and if
    // every stored script ran as stored before, every one does after.
    method Serve(requests: seq<Request>)
      requires Valid()
      modifies schedules, scheduler
      ensures Valid() && (old(AllRun()) ==> AllRun())
    {
      for i := 0 to |requests|
        invariant Valid() && (old(AllRun()) ==> AllRun())
      {
        match requests[i] {
          case Create(payload, valid, scriptPath) =>
            var _ := ScheduleCreate(payload, valid, scriptPath);
          case Update(id, payload, valid, stored) =>
            var _ := ScheduleUpdate(id, payload, valid, stored);
          case Delete(id, removed) =>
            var _ := ScheduleDelete(id, removed);
          case SnapshotInterval(interval) =>
            var _ := UpdateSnapshotInterval(interval);
        }
      }
    }
  }

  // A payload that gives at most a new name.
  predicate OnlyRenames(p: UpdatePayload) {
    p == UpdatePayload(p.name, None, None, None, None, None, None)
  }

  // Each field of the payload that is there replaces the field of the schedule; all others stay.
  predicate ChangedBy(job: Job, now: Job, p: UpdatePayload) {
    && now == job.(name := now.name, expression := now.expression, script := now.script)
    && Replaced(job.name, now.name, p.name) && Replaced(job.expression, now.expression, p.expression)
    && now.script.Some? == job.script.Some?
    && (job.script.Some? ==>
          var s, t := job.script.value, now.script.value;
          && t.scriptPath == s.scriptPath
          && Replaced(s.endpoints, t.endpoints, p.endpoints) && Replaced(s.image, t.image, p.image)
          && Replaced(s.retryCount, t.retryCount, p.retryCount)
          && Replaced(s.retryInterval, t.retryInterval, p.retryInterval))
  }

  predicate Replaced<T(==)>(before: T, now: T, wanted: Option<T>) {
    (wanted.Some? ==> now == wanted.value) && (wanted.None? ==> now == before)
  }

  lemma ChangeMeans(job: Job, p: UpdatePayload)
    ensures ChangedBy(job, Changed(job, p), p)
    ensures TouchesJob(p) <==> !OnlyRenames(p)
  {
  }

  ghost predicate HasType(data: map<int, Job>, jobType: int) {
    exists k :: k in data && data[k].jobType == jobType
  }

  lemma OtherTypes(data: map<int, Job>, job: Job)
    requires job.scheduleId !in data
    ensures forall t :: t != job.jobType ==> (HasType(data[job.scheduleId := job], t) <==> HasType(data, t))
  {
    var now := data[job.scheduleId := job];
    forall t | t != job.jobType
      ensures HasType(now, t) <==> HasType(data, t)
    {
      if k :| k in now && now[k].jobType == t {
        assert k in data && data[k].jobType == t;
      }
      if k :| k in data && data[k].jobType == t {
        assert k in now && now[k].jobType == t;
      }
    }
  }

  predicate IsFirstOfType(data: map<int, Job>, jobType: int, k: int) {
    && k in data && data[k].jobType == jobType
    && forall j :: j in data && data[j].jobType == jobType ==> k <= j
  }

  // The first record of a type in cursor order has the smallest identifier of that type.
  lemma FirstInOrder(data: map<int, Job>, jobType: int, i: nat)
    requires i < |Scan(data)| && Scan(data)[i].jobType == jobType
    requires forall j :: 0 <= j < i ==> Scan(data)[j].jobType != jobType
    ensures IsFirstOfType(data, jobType, Ordered(data.Keys)[i])
  {
    assert Ordered(data.Keys)[i] in data;
    forall k | k in data && data[k].jobType == jobType
      ensures Ordered(data.Keys)[i] <= k
    {
      var j := Position(data.Keys, k);
      assert Scan(data)[j] == data[k];
    }
  }

  // ----- Why the table stays tied to the store -----

  // Another record, running, under a key of its own.
  lemma StillComplete<S(!new)>(
    data: map<int, Job>, before: seq<Entry<S>>, now: seq<Entry<S>>, parse: string -> Option<S>, job: Job)
    requires Complete(data, before, parse) && RunsAsStored(now, parse, job)
    requires forall e :: e in before ==> e in now
    ensures Complete(data[job.scheduleId := job], now, parse)
  {
    forall k | k in data && data[k].jobType == SCRIPT_EXECUTION_JOB
      ensures RunsAsStored(now, parse, data[k])
    {
      var e :| Executes(e, before, parse, data[k]);
      assert Executes(e, now, parse, data[k]);
    }
  }

  lemma RenamedStillRuns<S(!new)>(data: map<int, Job>, cron: seq<Entry<S>>, parse: string -> Option<S>, job: Job)
    requires job.scheduleId in data && job == data[job.scheduleId].(name := job.name)
    ensures Sound(data, cron) ==> Sound(data[job.scheduleId := job], cron)
    ensures Complete(data, cron, parse) ==> Complete(data[job.scheduleId := job], cron, parse)
  {
    if Complete(data, cron, parse) && job.jobType == SCRIPT_EXECUTION_JOB {
      var e :| Executes(e, cron, parse, data[job.scheduleId]);
      assert Executes(e, cron, parse, job);
    }
  }

  lemma RescheduledStaysSound<S(!new)>(
    data: map<int, Job>, before: seq<Entry<S>>, now: seq<Entry<S>>, parse: string -> Option<S>, job: Job)
    requires Sound(data, before) && JobRenewed(before, now, job, parse(job.expression))
    requires job.scheduleId in data && data[job.scheduleId].jobType == job.jobType
    ensures Sound(data[job.scheduleId := job], now)
  {
  }

  lemma RescheduledStaysComplete<S(!new)>(
    data: map<int, Job>, before: seq<Entry<S>>, now: seq<Entry<S>>, parse: string -> Option<S>, job: Job)
    requires Sound(data, before) && JobRenewed(before, now, job, parse(job.expression))
    requires job.scheduleId in data && data[job.scheduleId].jobType == job.jobType
    requires data[job.scheduleId].scheduleId == job.scheduleId
    ensures Complete(data, before, parse) ==> Complete(data[job.scheduleId := job], now, parse)
  {
    if Complete(data, before, parse) {
      if job.jobType == SCRIPT_EXECUTION_JOB {
        var e :| Executes(e, before, parse, data[job.scheduleId]);
        assert Executes(Entry(parse(job.expression).value, job), now, parse, job);
        StillComplete(data, before, now, parse, job);
      } else {
        OtherStillComplete(data, before, now, parse, job);
      }
    }
  }

  // A record that is not of a script asks for nothing.
  lemma OtherStillComplete<S(!new)>(
    data: map<int, Job>, before: seq<Entry<S>>, now: seq<Entry<S>>, parse: string -> Option<S>, job: Job)
    requires Complete(data, before, parse) && job.jobType != SCRIPT_EXECUTION_JOB
    requires forall e :: e in before ==> e in now
    ensures Complete(data[job.scheduleId := job], now, parse)
  {
    forall k | k in data && data[k].jobType == SCRIPT_EXECUTION_JOB
      ensures RunsAsStored(now, parse, data[k])
    {
      var e :| Executes(e, before, parse, data[k]);
      assert Executes(e, now, parse, data[k]);
    }
  }

  lemma AfterUnscheduling<S(!new)>(
    data: map<int, Job>, before: seq<Entry<S>>, now: seq<Entry<S>>, parse: string -> Option<S>, id: int)
    requires multiset(now) == multiset(Filter(before, Not(ById(id))))
    requires forall k :: k in data ==> data[k].scheduleId == k
    ensures Sound(data, before) ==> Sound(data - {id}, now)
    ensures Complete(data, before, parse) ==> Complete(data - {id}, now, parse)
  {
    var others := Not(ById<S>(id));
    FilterMembers(before, others);
    forall e
      ensures e in now <==> e in before && e.job.scheduleId != id
    {
      SameMembers(now, Filter(before, others), e);
    }
    if Complete(data, before, parse) {
      forall k | k in data && k != id && data[k].jobType == SCRIPT_EXECUTION_JOB
        ensures RunsAsStored(now, parse, data[k])
      {
        var e :| Executes(e, before, parse, data[k]);
        assert Executes(e, now, parse, data[k]);
      }
    }
  }

  lemma AfterSystemUpdate<S(!new)>(
    data: map<int, Job>, before: seq<Entry<S>>, now: seq<Entry<S>>, parse: string -> Option<S>, job: Job)
    requires TypeRenewed(before, now, SNAPSHOT_JOB, parse(job.expression))
    requires job.scheduleId in data && job.jobType == data[job.scheduleId].jobType == SNAPSHOT_JOB
    ensures Sound(data, before) ==> Sound(data[job.scheduleId := job], now)
    ensures Complete(data, before, parse) ==> Complete(data[job.scheduleId := job], now, parse)
  {
    if Complete(data, before, parse) {
      OtherStillComplete(data, before, now, parse, job);
    }
  }

  // ----- What the start of the server makes of the stored schedules -----

  class LoopVariable {
    var value: Job

    constructor ()
    {
      value := Job(0, "", 0, "", None);
    }
  }

  predicate AllParse<S>(schedules: seq<Job>, parse: string -> Option<S>) {
    forall i :: 0 <= i < |schedules| && schedules[i].jobType == SCRIPT_EXECUTION_JOB ==>
      parse(schedules[i].expression).Some?
  }

  // The times of each stored script, in order.
  function Times<S>(schedules: seq<Job>, parse: string -> Option<S>): (times: seq<Option<S>>)
    ensures |times| == |schedules|
    ensures forall i :: 0 <= i < |schedules| ==>
              times[i] == if schedules[i].jobType == 1 then parse(schedules[i].expression) else None
  {
    seq(|schedules|, i requires 0 <= i < |schedules| =>
      if schedules[i].jobType == SCRIPT_EXECUTION_JOB then parse(schedules[i].expression) else None)
  }

  function Parsed<S>(schedules: seq<Job>, parse: string -> Option<S>): seq<S> {
    Present(Times(schedules, parse), |schedules|)
  }

  // Every entry carries the last stored schedule, whatever its type.
  function Loaded<S>(schedules: seq<Job>, parse: string -> Option<S>): (cron: seq<Entry<S>>)
    ensures |cron| == |Parsed(schedules, parse)|
    ensures forall r :: 0 <= r < |cron| ==>
              cron[r] == Entry(Parsed(schedules, parse)[r], schedules[|schedules| - 1])
  {
    var times := Parsed(schedules, parse);
    seq(|times|, r requires 0 <= r < |times| => Entry(times[r], schedules[|schedules| - 1]))
  }

  // There is one entry for each stored script, at its own times, and there are no others.
  lemma LoadedMeans<S>(schedules: seq<Job>, parse: string -> Option<S>, i: nat)
    requires i < |schedules|
    ensures |Loaded(schedules, parse)| == |set j | 0 <= j < |schedules| && Times(schedules, parse)[j].Some?|
    ensures schedules[i].jobType == 1 && parse(schedules[i].expression).Some? ==>
              var r := |Present(Times(schedules, parse), i)|;
              && r < |Loaded(schedules, parse)|
              && Loaded(schedules, parse)[r] ==
                 Entry(parse(schedules[i].expression).value, schedules[|schedules| - 1])
  {
    PresentCount(Times(schedules, parse), |schedules|);
    if Times(schedules, parse)[i].Some? {
      PresentAt(Times(schedules, parse), |schedules|, i);
    }
  }

  predicate IsLast(data: map<int, Job>, k: int) {
    k in data && forall j :: j in data ==> j <= k
  }

  // No script is stored before another schedule.
  predicate ScriptsAreLast(data: map<int, Job>) {
    forall k :: k in data && data[k].jobType == 1 ==> forall j :: j in data ==> j <= k
  }

  lemma LastRecord(data: map<int, Job>)
    requires data != map[]
    ensures var scan := Scan(data);
            && scan != []
            && (forall k :: IsLast(data, k) <==> k == Ordered(data.Keys)[|scan| - 1])
  {
    var ids := Ordered(data.Keys);
    assert |data.Keys| > 0;
    var last := ids[|ids| - 1];
    forall j | j in data
      ensures j <= last
    {
      var i := Position(data.Keys, j);
    }
  }

  lemma LoadedIsSound<S(!new)>(data: map<int, Job>, sequence: nat, parse: string -> Option<S>)
    requires Keyed(data, sequence)
    ensures Sound(data, Loaded(Scan(data), parse))
  {
    if data != map[] {
      LastRecord(data);
      assert Ordered(data.Keys)[|Scan(data)| - 1] in data;
    }
  }

  // The only script that can run as stored is the last schedule of all.
  lemma LoadedIsComplete<S(!new)>(data: map<int, Job>, sequence: nat, parse: string -> Option<S>)
    requires Keyed(data, sequence) && AllParse(Scan(data), parse)
    ensures Complete(data, Loaded(Scan(data), parse), parse) <==>
            ScriptsAreLast(data)
  {
    var cron := Loaded(Scan(data), parse);
    forall k | k in data && data[k].jobType == SCRIPT_EXECUTION_JOB
      ensures RunsAsStored(cron, parse, data[k]) <==> IsLast(data, k)
    {
      LastRecord(data);
      var n := |Scan(data)| - 1;
      if IsLast(data, k) {
        LastIsParsed(Scan(data), parse);
        var e := Entry(parse(data[k].expression).value, data[k]);
        assert e == cron[|cron| - 1];
        assert Executes(e, cron, parse, data[k]);
      }
      if RunsAsStored(cron, parse, data[k]) {
        var e :| Executes(e, cron, parse, data[k]);
        assert e.job == Scan(data)[n];
      }
    }
  }

  lemma LastIsParsed<S>(schedules: seq<Job>, parse: string -> Option<S>)
    requires schedules != [] && AllParse(schedules, parse)
    requires schedules[|schedules| - 1].jobType == SCRIPT_EXECUTION_JOB
    ensures var times := Parsed(schedules, parse);
            times != [] && Some(times[|times| - 1]) == parse(schedules[|schedules| - 1].expression)
  {
  }

  // A system schedule is not wanted, or there already, or its interval is understood.
  ghost predicate Registers<S>(
    data: map<int, Job>, jobType: int, interval: Option<string>, parse: string -> Option<S>)
  {
    interval.None? || HasType(data, jobType) || parse("@every " + interval.value).Some?
  }

  // The entry of a new system schedule runs none of the stored scripts.
  lemma SystemEntryRunsNoScript<S(!new)>(
    data: map<int, Job>, before: seq<Entry<S>>, entry: Entry<S>, parse: string -> Option<S>, job: Job)
    requires job.scheduleId !in data && job.jobType != SCRIPT_EXECUTION_JOB && entry.job == job
    ensures Complete(data[job.scheduleId := job], before + [entry], parse) <==> Complete(data, before, parse)
  {
    forall k | k in data && data[k].jobType == SCRIPT_EXECUTION_JOB
      ensures RunsAsStored(before + [entry], parse, data[k]) <==> RunsAsStored(before, parse, data[k])
    {
      if e :| Executes(e, before + [entry], parse, data[k]) {
        assert Executes(e, before, parse, data[k]);
      }
      if e :| Executes(e, before, parse, data[k]) {
        assert Executes(e, before + [entry], parse, data[k]);
      }
    }
    var now := data[job.scheduleId := job];
    if Complete(now, before + [entry], parse) {
      forall k | k in data && data[k].jobType == SCRIPT_EXECUTION_JOB
        ensures RunsAsStored(before, parse, data[k])
      {
        assert k in now && now[k] == data[k];
      }
    }
  }

  lemma TwoScripts<S(!new)>(one: Job, two: Job, parse: string -> Option<S>)
    requires parse(one.expression).Some? && parse(two.expression).Some?
    ensures var data := map[1 := one, 2 := two];
            && AllParse(Scan(data), parse)
            && IsLast(data, 2) && !IsLast(data, 1)
            && forall e :: e in Loaded(Scan(data), parse) ==> e.job == two
  {
    var data := map[1 := one, 2 := two];
    LastRecord(data);
    assert 1 in data && 2 in data;
    assert IsLast(data, 2) && !IsLast(data, 1);
    forall i | 0 <= i < |Scan(data)|
      ensures parse(Scan(data)[i].expression).Some?
    {
      assert Ordered(data.Keys)[i] in data;
    }
  }

  // A server with two scripts is started again: the first one has no entry any more.
  method SecondStart<S(==,!new)>(parse: string -> Option<S>, first: CreatePayload, second: CreatePayload)
    returns (handler: Handler<S>, ok: bool)
    requires parse(first.expression).Some? && parse(second.expression).Some?
    ensures ok && handler.Valid() && !handler.AllRun()
    ensures 1 in handler.schedules.data && handler.schedules.data[1].jobType == SCRIPT_EXECUTION_JOB
    ensures forall e :: e in handler.scheduler.cron ==> e.job.scheduleId == 2
  {
    var schedules := new Bucket<Job>();
    var scheduler := new JobScheduler(parse);
    handler := new Handler(schedules, scheduler);
    var one := handler.ScheduleCreate(first, true, Some("/scripts/1"));
    var two := handler.ScheduleCreate(second, true, Some("/scripts/2"));
    TwoScripts(one.job, two.job, parse);
    ok := handler.Start(None, None);
  }
}
