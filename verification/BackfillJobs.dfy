/** The in-process registry of backfill jobs, updated by request handlers and by one
    background task per job. */
module BackfillJobs {
  import opened Collections

  datatype Status = PENDING | RUNNING | COMPLETED | FAILED

  /** A parsed ISO-8601 parameter. */
  datatype Date = Malformed | At(t: int)

  datatype Body = Body(symbol: string, from: Date, to: Option<Date>)

  /** Instants are microseconds; the record keeps its range cut to milliseconds. */
  function Millis(t: int): int { t / 1000 }

  datatype Job = Job(symbol: string, from: int, to: int, status: Status, createdAt: int,
                     startedAt: Option<int>, completedAt: Option<int>, result: Option<int>, error: Option<string>)

  /** Where a background task is. */
  datatype Task = Scheduled | Running | Ended(cancelled: bool)

  datatype State = State(jobs: map<string, Job>, tasks: map<string, Task>)

  const EMPTY := State(map[], map[])

  datatype Event =
    | Trigger(id: string, body: Body, now: int)
    | Begin(id: string, now: int)
    | Succeed(id: string, result: int, now: int)
    | Fail(id: string, error: string, now: int)
    | Cancel(id: string, now: int)

  function EndOf(b: Body, now: int): Date { if b.to.Some? then b.to.value else At(now) }

  predicate Accepts(b: Body, now: int) {
    b.from.At? && EndOf(b, now).At? && b.from.t < EndOf(b, now).t
  }

  predicate Enabled(s: State, e: Event) {
    match e
    case Trigger(id, _, _) => id !in s.jobs && id !in s.tasks
    case Begin(id, _) => id in s.tasks && s.tasks[id] == Scheduled
    case Cancel(id, _) => id in s.tasks && !s.tasks[id].Ended?
    case _ => e.id in s.tasks && s.tasks[e.id] == Running
  }

  /** What an event writes into its job's record; cancellation of a running task reaches the
      `finally` clause but no `except`. */
  function Written(j: Job, e: Event, t: Task): Job {
    match e
    case Begin(_, now) => j.(status := RUNNING, startedAt := Some(now))
    case Succeed(_, r, now) => j.(status := COMPLETED, result := Some(r), completedAt := Some(now))
    case Fail(_, x, now) => j.(status := FAILED, error := Some(x), completedAt := Some(now))
    case Cancel(_, now) => if t == Running then j.(completedAt := Some(now)) else j
    case Trigger(_, _, _) => j
  }

  function NextTask(e: Event): Task {
    match e
    case Trigger(_, _, _) => Scheduled
    case Begin(_, _) => Running
    case Cancel(_, _) => Ended(true)
    case _ => Ended(false)
  }

  ghost function Step(s: State, e: Event): State {
    match e
    case Trigger(id, b, now) =>
      if Accepts(b, now)
      then State(s.jobs[id := Job(b.symbol, Millis(b.from.t), Millis(EndOf(b, now).t), PENDING, now,
                                  None, None, None, None)],
                 s.tasks[id := Scheduled])
      else s
    case _ =>
      if e.id in s.jobs && e.id in s.tasks
      then State(s.jobs[e.id := Written(s.jobs[e.id], e, s.tasks[e.id])], s.tasks[e.id := NextTask(e)])
      else s
  }

  ghost function After(run: seq<Event>): Option<State> {
    if run == [] then Some(EMPTY)
    else match After(run[..|run| - 1])
         case None => None
         case Some(s) => if Enabled(s, run[|run| - 1]) then Some(Step(s, run[|run| - 1])) else None
  }

  // ----- what every job looks like in every interleaving

  ghost predicate Terminal(j: Job) { j.status == COMPLETED || j.status == FAILED }

  /** The record's fields follow from where the job's task is. */
  ghost predicate Sound(j: Job, t: Task) {
    && j.from <= j.to
    && (j.status == PENDING <==> j.startedAt.None?)
    && (j.result.Some? <==> j.status == COMPLETED)
    && (j.error.Some? <==> j.status == FAILED)
    && match t
       case Scheduled => j.status == PENDING && j.completedAt.None?
       case Running => j.status == RUNNING && j.completedAt.None?
       case Ended(false) => Terminal(j) && j.completedAt.Some?
       case Ended(true) => !Terminal(j) && (j.completedAt.Some? <==> j.status == RUNNING)
  }

  ghost predicate AllSound(s: State) {
    s.jobs.Keys == s.tasks.Keys && forall id <- s.jobs :: Sound(s.jobs[id], s.tasks[id])
  }

  lemma StepStaysSound(s: State, e: Event)
    requires AllSound(s) && Enabled(s, e)
    ensures AllSound(Step(s, e))
  {
  }

  lemma {:induction false} RunsStaySound(run: seq<Event>)
    requires After(run).Some?
    ensures AllSound(After(run).value)
  {
    if run != [] {
      RunsStaySound(run[..|run| - 1]);
      StepStaysSound(After(run[..|run| - 1]).value, run[|run| - 1]);
    }
  }

  /** Of a running task, that is: its job has begun. */
  ghost predicate CancelsRunning(run: seq<Event>, id: string) {
    run != [] && (CancelsRunning(run[..|run| - 1], id)
                  || (run[|run| - 1].Cancel? && run[|run| - 1].id == id && Begins(run[..|run| - 1], id)))
  }

  ghost predicate Begins(run: seq<Event>, id: string) {
    exists e <- run :: e.Begin? && e.id == id
  }

  /** A completion time means a finished job for all jobs but those whose task was cancelled
      after it had begun: these keep the status RUNNING with a completion time, for ever. */
  lemma {:induction false} CompletionMeansFinishedIff(run: seq<Event>, id: string)
    requires After(run).Some? && id in After(run).value.jobs
    ensures var j := After(run).value.jobs[id];
            (j.completedAt.Some? ==> Terminal(j)) <==> !CancelsRunning(run, id)
  {
    RunsStaySound(run);
    CancelledMeans(run, id);
  }

  /** Any accepted job can end like that: it is triggered, begins and is cancelled. */
  lemma CancelledJobLooksRunning(id: string, b: Body, t0: int, t1: int, t2: int)
    requires Accepts(b, t0)
    ensures var run := [Trigger(id, b, t0)] + [Begin(id, t1)] + [Cancel(id, t2)];
            && After(run).Some? && id in After(run).value.jobs && After(run).value.tasks[id].Ended?
            && After(run).value.jobs[id].status == RUNNING && After(run).value.jobs[id].completedAt == Some(t2)
  {
    var e0 := Trigger(id, b, t0);
    assert [] + [e0] == [e0];
    OneMore([], e0);
    OneMore([e0], Begin(id, t1));
    OneMore([e0] + [Begin(id, t1)], Cancel(id, t2));
    var s0 := Step(EMPTY, e0);
    var s1 := Step(s0, Begin(id, t1));
    assert s0.tasks[id] == Scheduled && s1.tasks[id] == Running && s1.jobs[id].status == RUNNING;
  }

  lemma {:induction false} CancelledMeans(run: seq<Event>, id: string)
    requires After(run).Some?
    ensures var s := After(run).value;
            && (id in s.jobs ==> (Begins(run, id) <==> s.jobs[id].status != PENDING)
                                 && (CancelsRunning(run, id) <==>
                                     id in s.tasks && s.tasks[id] == Ended(true) && s.jobs[id].status == RUNNING))
            && (id !in s.jobs ==> !Begins(run, id) && !CancelsRunning(run, id))
  {
    RunsStaySound(run);
    if run != [] {
      var front, e := run[..|run| - 1], run[|run| - 1];
      CancelledMeans(front, id);
      RunsStaySound(front);
      assert run == front + [e];
      assert Begins(run, id) <==> Begins(front, id) || (e.Begin? && e.id == id);
    }
  }

  // ----- what one event, and any continuation, can do to a job

  ghost function Rank(j: Job): nat {
    match j.status
    case PENDING => 0
    case RUNNING => 1
    case _ => 2
  }

  /** `j` may become `k`: what was requested stays, the status moves forward only, and a
      finished job is never written again. */
  ghost predicate Progresses(j: Job, k: Job) {
    && (k.symbol, k.from, k.to, k.createdAt) == (j.symbol, j.from, j.to, j.createdAt)
    && Rank(j) <= Rank(k)
    && (j.startedAt.Some? ==> k.startedAt == j.startedAt)
    && (j.completedAt.Some? ==> k == j)
  }

  /** An event moves its own job at most one status on and touches no other job. */
  lemma StepTouchesOneJob(s: State, e: Event)
    requires AllSound(s) && Enabled(s, e)
    ensures forall id <- s.jobs :: id in Step(s, e).jobs && (id != e.id ==> Step(s, e).jobs[id] == s.jobs[id])
    ensures e.id in s.jobs ==> Progresses(s.jobs[e.id], Step(s, e).jobs[e.id])
                               && Rank(Step(s, e).jobs[e.id]) <= Rank(s.jobs[e.id]) + 1
    ensures forall id <- Step(s, e).jobs :: id in s.jobs || (id == e.id && Step(s, e).jobs[id].status == PENDING)
  {
  }

  /** No job is ever lost, re-opened or rewritten, whatever happens later. */
  lemma {:induction false} JobsOnlyProgress(run: seq<Event>, more: seq<Event>, id: string)
    requires After(run).Some? && After(run + more).Some? && id in After(run).value.jobs
    ensures id in After(run + more).value.jobs
    ensures Progresses(After(run).value.jobs[id], After(run + more).value.jobs[id])
  {
    if more == [] {
      assert run + more == run;
    } else {
      var front, e := more[..|more| - 1], more[|more| - 1];
      assert (run + more)[..|run + more| - 1] == run + front;
      JobsOnlyProgress(run, front, id);
      RunsStaySound(run + front);
      StepTouchesOneJob(After(run + front).value, e);
    }
  }

  // ----- what a record holds is what happened

  /** A request with two well-formed dates, the first before the second; without an end date
      the second is the present. */
  ghost predicate WellFormed(b: Body, now: int) {
    match (b.from, b.to)
    case (At(from), None) => from < now
    case (At(from), Some(At(to))) => from < to
    case _ => false
  }

  /** The instant to the millisecond. */
  ghost predicate InMillis(ms: int, t: int) { 1000 * ms <= t < 1000 * ms + 1000 }

  /** The record shows what the event brought. */
  ghost predicate Shows(j: Job, e: Event) {
    match e
    case Trigger(_, b, now) =>
      WellFormed(b, now) ==>
        && j.symbol == b.symbol && j.createdAt == now && InMillis(j.from, b.from.t)
        && InMillis(j.to, if b.to.Some? then b.to.value.t else now)
    case Begin(_, now) => j.startedAt == Some(now)
    case Succeed(_, r, now) => j.status == COMPLETED && j.result == Some(r) && j.completedAt == Some(now)
    case Fail(_, x, now) => j.status == FAILED && j.error == Some(x) && j.completedAt == Some(now)
    case Cancel(_, now) => j.completedAt == if j.startedAt.Some? then Some(now) else None
  }

  /** The events that a job whose task is there can have had. */
  ghost predicate Precedes(e: Event, t: Task) {
    match t
    case Scheduled => e.Trigger?
    case Running => e.Trigger? || e.Begin?
    case Ended(_) => true
  }

  ghost predicate Happened(s: State, e: Event) {
    if e.id in s.jobs && e.id in s.tasks then Shows(s.jobs[e.id], e) && Precedes(e, s.tasks[e.id])
    else e.Trigger? && !WellFormed(e.body, e.now)
  }

  lemma NewEventShows(s: State, e: Event)
    requires AllSound(s) && Enabled(s, e)
    ensures Happened(Step(s, e), e)
  {
  }

  lemma OldEventStillShows(s: State, e: Event, past: Event)
    requires AllSound(s) && Enabled(s, e) && Happened(s, past)
    ensures Happened(Step(s, e), past)
  {
  }

  lemma {:induction false} EventsHappened(run: seq<Event>)
    requires After(run).Some?
    ensures forall e <- run :: Happened(After(run).value, e)
  {
    if run != [] {
      var front, last := run[..|run| - 1], run[|run| - 1];
      EventsHappened(front);
      RunsStaySound(front);
      NewEventShows(After(front).value, last);
      forall e | e in run ensures Happened(After(run).value, e) {
        if e in front {
          OldEventStillShows(After(front).value, last, e);
        }
      }
    }
  }

  /** Every field that can be empty was written by an event of the run, and so was the rest. */
  ghost predicate Traced(run: seq<Event>, id: string, j: Job) {
    && (exists e <- run :: e.Trigger? && e.id == id && WellFormed(e.body, e.now))
    && (j.startedAt.Some? ==> Begin(id, j.startedAt.value) in run)
    && (j.result.Some? ==> j.completedAt.Some? && Succeed(id, j.result.value, j.completedAt.value) in run)
    && (j.error.Some? ==> j.completedAt.Some? && Fail(id, j.error.value, j.completedAt.value) in run)
    && (j.completedAt.Some? && j.result.None? && j.error.None? ==> Cancel(id, j.completedAt.value) in run)
  }

  lemma TracedStays(run: seq<Event>, e: Event, id: string, j: Job)
    requires Traced(run, id, j)
    ensures Traced(run + [e], id, j)
  {
    var d :| d in run && d.Trigger? && d.id == id && WellFormed(d.body, d.now);
    assert d in run + [e];
  }

  lemma TracedStep(run: seq<Event>, s: State, e: Event)
    requires AllSound(s) && Enabled(s, e) && (e.id in s.jobs ==> Traced(run, e.id, s.jobs[e.id]))
    ensures e.id in Step(s, e).jobs ==> Traced(run + [e], e.id, Step(s, e).jobs[e.id])
  {
    assert e in run + [e];
    if e.id in s.jobs {
      TracedStays(run, e, e.id, s.jobs[e.id]);
    }
  }

  lemma {:induction false} FieldsAreTraced(run: seq<Event>, id: string)
    requires After(run).Some? && id in After(run).value.jobs
    ensures Traced(run, id, After(run).value.jobs[id])
  {
    var front, last := run[..|run| - 1], run[|run| - 1];
    var s := After(front).value;
    assert run == front + [last];
    RunsStaySound(front);
    if id in s.jobs {
      FieldsAreTraced(front, id);
      TracedStays(front, last, id, s.jobs[id]);
    }
    if id == last.id {
      TracedStep(front, s, last);
    }
  }

  /** A job exists exactly when a well-formed request was made for it; its record shows what
      each of its events brought, and nothing else. */
  lemma RecordsAreOfTheirEvents(run: seq<Event>, id: string)
    requires After(run).Some?
    ensures var jobs := After(run).value.jobs;
            && (id in jobs <==> exists e <- run :: e.Trigger? && e.id == id && WellFormed(e.body, e.now))
            && (id in jobs ==> Traced(run, id, jobs[id]) && forall e <- run :: e.id == id ==> Shows(jobs[id], e))
  {
    RunsStaySound(run);
    EventsHappened(run);
    if id in After(run).value.jobs {
      FieldsAreTraced(run, id);
    }
  }

  // ----- the registry

  ghost function WithStatus(jobs: map<string, Job>, among: set<string>, st: Status): set<string>
    requires among <= jobs.Keys
  {
    set id | id in among && jobs[id].status == st
  }

  ghost predicate CountIs(jobs: map<string, Job>, among: set<string>, counts: map<Status, nat>, st: Status)
    requires among <= jobs.Keys
  {
    st in counts && counts[st] == |WithStatus(jobs, among, st)|
  }

  /** `counts` holds the number of jobs of each status among some jobs. */
  ghost predicate Counted(jobs: map<string, Job>, among: set<string>, counts: map<Status, nat>)
    requires among <= jobs.Keys
  {
    && CountIs(jobs, among, counts, PENDING) && CountIs(jobs, among, counts, RUNNING)
    && CountIs(jobs, among, counts, COMPLETED) && CountIs(jobs, among, counts, FAILED)
    && counts[PENDING] + counts[RUNNING] + counts[COMPLETED] + counts[FAILED] == |among|
  }

  lemma CountNone(jobs: map<string, Job>)
    ensures Counted(jobs, {}, map[PENDING := 0, RUNNING := 0, COMPLETED := 0, FAILED := 0])
  {
    assert WithStatus(jobs, {}, PENDING) == {} && WithStatus(jobs, {}, RUNNING) == {};
    assert WithStatus(jobs, {}, COMPLETED) == {} && WithStatus(jobs, {}, FAILED) == {};
  }

  lemma OneOfStatus(jobs: map<string, Job>, seen: set<string>, id: string, counts: map<Status, nat>, st: Status)
    requires seen + {id} <= jobs.Keys && id !in seen
    requires CountIs(jobs, seen, counts, st) && jobs[id].status in counts
    ensures CountIs(jobs, seen + {id}, counts[jobs[id].status := counts[jobs[id].status] + 1], st)
  {
    var before := WithStatus(jobs, seen, st);
    if jobs[id].status == st {
      assert WithStatus(jobs, seen + {id}, st) == before + {id};
    } else {
      assert WithStatus(jobs, seen + {id}, st) == before;
    }
  }

  lemma CountOne(jobs: map<string, Job>, seen: set<string>, id: string, counts: map<Status, nat>)
    requires seen + {id} <= jobs.Keys && id !in seen && Counted(jobs, seen, counts)
    ensures jobs[id].status in counts
    ensures Counted(jobs, seen + {id}, counts[jobs[id].status := counts[jobs[id].status] + 1])
  {
    assert jobs[id].status in counts by {
      match jobs[id].status
      case PENDING =>
      case RUNNING =>
      case COMPLETED =>
      case FAILED =>
    }
    OneOfStatus(jobs, seen, id, counts, PENDING);
    OneOfStatus(jobs, seen, id, counts, RUNNING);
    OneOfStatus(jobs, seen, id, counts, COMPLETED);
    OneOfStatus(jobs, seen, id, counts, FAILED);
  }

  lemma OneMore(run: seq<Event>, e: Event)
    ensures After(run + [e]) ==
            match After(run)
            case None => None
            case Some(s) => if Enabled(s, e) then Some(Step(s, e)) else None
  {
    assert (run + [e])[..|run + [e]| - 1] == run;
  }

  class JobRegistry {
    var jobs: map<string, Job>
    var tasks: map<string, Task>
    ghost var history: seq<Event>

    ghost function View(): State reads this { State(jobs, tasks) }

    ghost predicate Valid() reads this { After(history) == Some(View()) }

    constructor ()
      ensures Valid() && history == [] && jobs == map[]
    {
      jobs, tasks, history := map[], map[], [];
    }

    /** `trigger_backfill`; the id is fresh. */
    method TriggerBackfill(id: string, b: Body, now: int) returns (status: int)
      requires Valid() && id !in jobs && id !in tasks
      modifies this
      ensures Valid() && history == old(history) + [Trigger(id, b, now)]
      ensures View() == Step(old(View()), Trigger(id, b, now))
      ensures status == if Accepts(b, now) then 202 else 400
    {
      OneMore(history, Trigger(id, b, now));
      history := history + [Trigger(id, b, now)];
      if b.from.Malformed? { return 400; }
      var end := now;
      if b.to.Some? {
        if b.to.value.Malformed? { return 400; }
        end := b.to.value.t;
      }
      if b.from.t >= end { return 400; }
      jobs := jobs[id := Job(b.symbol, Millis(b.from.t), Millis(end), PENDING, now, None, None, None, None)];
      tasks := tasks[id := Scheduled];
      return 202;
    }

    /** `_run_backfill_job` up to its first await. */
    method BeginJob(id: string, now: int)
      requires Valid() && id in tasks && tasks[id] == Scheduled
      modifies this
      ensures Valid() && history == old(history) + [Begin(id, now)] && View() == Step(old(View()), Begin(id, now))
    {
      OneMore(history, Begin(id, now));
      RunsStaySound(history);
      history := history + [Begin(id, now)];
      jobs := jobs[id := jobs[id].(status := RUNNING, startedAt := Some(now))];
      tasks := tasks[id := Running];
    }

    /** The rest of it: `how` is the way in which the engine call ended. */
    method EndJob(how: Event)
      requires Valid() && how.id in tasks && tasks[how.id] == Running && (how.Succeed? || how.Fail? || how.Cancel?)
      modifies this
      ensures Valid() && history == old(history) + [how] && View() == Step(old(View()), how)
    {
      OneMore(history, how);
      RunsStaySound(history);
      history := history + [how];
      var id, job := how.id, jobs[how.id];
      match how {
        case Succeed(_, r, _) => job := job.(status := COMPLETED).(result := Some(r));
        case Fail(_, x, _) => job := job.(status := FAILED).(error := Some(x));
        case _ =>
      }
      job := job.(completedAt := Some(how.now));
      jobs := jobs[id := job];
      tasks := tasks[id := NextTask(how)];
    }

    /** The counters of `get_historical_status`: the four counts add up to the number of jobs. */
    method StatusCounts() returns (counts: map<Status, nat>)
      ensures Counted(jobs, jobs.Keys, counts)
    {
      counts := CountStatuses(jobs);
    }
  }

  /** The loop over the records. */
  method CountStatuses(jobs: map<string, Job>) returns (counts: map<Status, nat>)
    ensures Counted(jobs, jobs.Keys, counts)
  {
    counts := NoCounts(jobs);
    var left := jobs.Keys;
    ghost var seen: set<string> := {};
    while left != {}
      invariant seen !! left && seen + left == jobs.Keys && Counted(jobs, seen, counts)
      decreases |left|
    {
      var id :| id in left;
      counts := CountJob(jobs, seen, id, counts);
      left, seen := left - {id}, seen + {id};
    }
    assert seen == jobs.Keys;
  }

  method NoCounts(ghost jobs: map<string, Job>) returns (counts: map<Status, nat>)
    ensures Counted(jobs, {}, counts)
  {
    CountNone(jobs);
    counts := map[PENDING := 0, RUNNING := 0, COMPLETED := 0, FAILED := 0];
  }

  method CountJob(jobs: map<string, Job>, ghost seen: set<string>, id: string, before: map<Status, nat>)
    returns (counts: map<Status, nat>)
    requires seen + {id} <= jobs.Keys && id !in seen && Counted(jobs, seen, before)
    ensures Counted(jobs, seen + {id}, counts)
  {
    CountOne(jobs, seen, id, before);
    counts := before[jobs[id].status := before[jobs[id].status] + 1];
  }
}
