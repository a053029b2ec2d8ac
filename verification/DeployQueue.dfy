/** The deploy webhook: request handlers feed a bounded queue that one worker drains. */
module DeployQueue {
  import opened Collections

  datatype Job = Job(branch: string, sha: string)

  /** A verified payload carries a job, or nothing to deploy (a tag, malformed JSON). */
  datatype Request = Unverified | Verified(job: Option<Job>)

  /** `maxsize` <= 0 means unbounded. */
  datatype Config = Config(maxsize: int, branch: string)

  datatype State = State(queue: seq<Job>, running: Option<Job>, unfinished: nat)

  const IDLE := State([], None, 0)

  predicate Full(c: Config, s: State) { c.maxsize > 0 && |s.queue| >= c.maxsize }

  predicate Wanted(c: Config, r: Request) { r.Verified? && r.job.Some? && r.job.value.branch == c.branch }

  function Answer(c: Config, s: State, r: Request): int {
    if r.Unverified? then 401
    else if !Wanted(c, r) then 200
    else if Full(c, s) then 429 else 202
  }

  /** A request, the worker's `get`, or the end of a deploy, however it ended. */
  datatype Event = Post(r: Request) | Take | Done

  predicate Enabled(s: State, e: Event) {
    match e
    case Post(_) => true
    case Take => s.running.None? && s.queue != []
    case Done => s.running.Some? && s.unfinished > 0
  }

  function Step(c: Config, s: State, e: Event): State
    requires Enabled(s, e)
  {
    match e
    case Post(r) => if Answer(c, s, r) == 202 then State(s.queue + [r.job.value], s.running, s.unfinished + 1) else s
    case Take => State(s.queue[1..], Some(s.queue[0]), s.unfinished)
    case Done => State(s.queue, None, s.unfinished - 1)
  }

  ghost function After(c: Config, run: seq<Event>): Option<State> {
    if run == [] then Some(IDLE)
    else match After(c, run[..|run| - 1])
         case None => None
         case Some(s) => if Enabled(s, run[|run| - 1]) then Some(Step(c, s, run[|run| - 1])) else None
  }

  predicate Accepts(c: Config, s: State, e: Event) { e.Post? && Answer(c, s, e.r) == 202 }

  /** The jobs answered 202, in order. */
  ghost function Accepted(c: Config, run: seq<Event>): seq<Job>
    requires After(c, run).Some?
  {
    if run == [] then []
    else
      var s, e := After(c, run[..|run| - 1]).value, run[|run| - 1];
      Accepted(c, run[..|run| - 1]) + if Accepts(c, s, e) then [e.r.job.value] else []
  }

  /** The jobs whose deploy has ended, in order. */
  ghost function Completed(c: Config, run: seq<Event>): seq<Job>
    requires After(c, run).Some?
  {
    if run == [] then []
    else
      var s, e := After(c, run[..|run| - 1]).value, run[|run| - 1];
      Completed(c, run[..|run| - 1]) + if e.Done? then [s.running.value] else []
  }

  class DeployServer {
    const config: Config
    var queue: seq<Job>
    var running: Option<Job>
    var unfinished: nat
    ghost var history: seq<Event>

    ghost function View(): State reads this { State(queue, running, unfinished) }

    ghost predicate Valid() reads this { After(config, history) == Some(View()) }

    constructor (config: Config)
      ensures Valid() && this.config == config && history == []
    {
      this.config := config;
      queue, running, unfinished, history := [], None, 0, [];
    }

    /** `do_POST` from the verified payload on. */
    method Receive(r: Request) returns (status: int)
      requires Valid()
      modifies this
      ensures Valid() && history == old(history) + [Post(r)]
      ensures status == Answer(config, old(View()), r)
      ensures View() == Step(config, old(View()), Post(r))
    {
      OneMore(config, history, Post(r));
      history := history + [Post(r)];
      if r.Unverified? { return 401; }
      if r.job.None? { return 200; }
      if r.job.value.branch != config.branch { return 200; }
      if config.maxsize > 0 && |queue| >= config.maxsize { return 429; }
      queue := queue + [r.job.value];
      unfinished := unfinished + 1;
      return 202;
    }

    /** The worker's `get`; it runs the job under the lock. */
    method Fetch()
      requires Valid() && running.None? && queue != []
      modifies this
      ensures Valid() && history == old(history) + [Take] && View() == Step(config, old(View()), Take)
    {
      OneMore(config, history, Take);
      history := history + [Take];
      running := Some(queue[0]);
      queue := queue[1..];
    }

    /** The end of a deploy: success, failure, timeout or exception, then `task_done`. */
    method Finish()
      requires Valid() && running.Some?
      modifies this
      ensures Valid() && history == old(history) + [Done]
      ensures old(unfinished) > 0 && View() == Step(config, old(View()), Done)
    {
      NothingLost(config, history);
      OneMore(config, history, Done);
      history := history + [Done];
      running := None;
      unfinished := unfinished - 1;
    }
  }

  lemma OneMore(c: Config, run: seq<Event>, e: Event)
    ensures After(c, run + [e]) ==
            match After(c, run)
            case None => None
            case Some(s) => if Enabled(s, e) then Some(Step(c, s, e)) else None
    ensures After(c, run + [e]).Some? ==>
              var s := After(c, run).value;
              && Accepted(c, run + [e]) == Accepted(c, run) + (if Accepts(c, s, e) then [e.r.job.value] else [])
              && Completed(c, run + [e]) == Completed(c, run) + (if e.Done? then [s.running.value] else [])
  {
    assert (run + [e])[..|run + [e]| - 1] == run;
  }

  function AsSeq(j: Option<Job>): seq<Job> { if j.Some? then [j.value] else [] }

  ghost predicate Conserved(c: Config, s: State, accepted: seq<Job>, completed: seq<Job>) {
    && accepted == completed + AsSeq(s.running) + s.queue
    && (c.maxsize > 0 ==> |s.queue| <= c.maxsize)
    && s.unfinished == |AsSeq(s.running)| + |s.queue|
  }

  lemma StepConserves(c: Config, s: State, e: Event, accepted: seq<Job>, completed: seq<Job>)
    requires Enabled(s, e) && Conserved(c, s, accepted, completed)
    ensures Conserved(c, Step(c, s, e),
                      accepted + (if Accepts(c, s, e) then [e.r.job.value] else []),
                      completed + (if e.Done? then [s.running.value] else []))
  {
    assert accepted + [] == accepted && completed + [] == completed;
    match e
    case Post(r) =>
      if Answer(c, s, r) == 202 {
        var front, job := completed + AsSeq(s.running), [r.job.value];
        assert (front + s.queue) + job == front + (s.queue + job);
      }
    case Take =>
      assert completed + [] + s.queue == completed + [s.queue[0]] + s.queue[1..];
    case Done =>
      assert completed + [s.running.value] + s.queue == completed + [s.running.value] + [] + s.queue;
  }

  /** In every interleaving the accepted jobs are the completed ones, then the running one,
      then the queue: none lost, duplicated or reordered. The queue keeps its bound, so at
      most one job more is outstanding, and `task_done` is never called too often. */
  lemma {:induction false} NothingLost(c: Config, run: seq<Event>)
    requires After(c, run).Some?
    ensures Conserved(c, After(c, run).value, Accepted(c, run), Completed(c, run))
    ensures c.maxsize > 0 ==> |Accepted(c, run)| <= |Completed(c, run)| + c.maxsize + 1
  {
    if run != [] {
      var front, e := run[..|run| - 1], run[|run| - 1];
      NothingLost(c, front);
      StepConserves(c, After(c, front).value, e, Accepted(c, front), Completed(c, front));
    }
  }

  /** Only pushes to the configured branch are accepted, and only such as were posted in a
      verified request. */
  lemma {:induction false} AcceptedWerePosted(c: Config, run: seq<Event>, j: Job)
    requires After(c, run).Some? && j in Accepted(c, run)
    ensures j.branch == c.branch && Post(Verified(Some(j))) in run
  {
    var front, e := run[..|run| - 1], run[|run| - 1];
    assert run == front + [e];
    if j in Accepted(c, front) {
      AcceptedWerePosted(c, front, j);
    }
  }

  // ----- what the answers mean

  /** A wanted push is refused exactly when the bounded queue is full; whether a deploy is
      running does not matter. */
  lemma RefusedIffFull(c: Config, run: seq<Event>, r: Request)
    requires After(c, run).Some?
    ensures var s := After(c, run).value;
            && (Answer(c, s, r) == 429 <==> Wanted(c, r) && c.maxsize > 0 && |s.queue| == c.maxsize)
            && (Answer(c, s, r) == 202 <==> Wanted(c, r) && (c.maxsize <= 0 || |s.queue| < c.maxsize))
            && (Answer(c, s, r) == 401 <==> r == Unverified)
            && (Answer(c, s, r) == 200 <==>
                r == Verified(None) || exists j :: r == Verified(Some(j)) && j.branch != c.branch)
  {
    NothingLost(c, run);
  }

  /** At the default depth of one a push is not skipped while a deploy runs: three pushes
      with one `get` in between leave one job running, one waiting, and the third refused. */
  lemma BusyIsNotSkipped(branch: string, x: Job, y: Job, z: Job)
    requires x.branch == branch && y.branch == branch && z.branch == branch
    ensures var c := Config(1, branch);
            var run := [Post(Verified(Some(x))), Take, Post(Verified(Some(y)))];
            && After(c, run) == Some(State([y], Some(x), 2)) && Accepted(c, run) == [x, y]
            && Answer(c, After(c, run).value, Verified(Some(z))) == 429
  {
    var c := Config(1, branch);
    var e0, e1, e2 := Post(Verified(Some(x))), Take, Post(Verified(Some(y)));
    assert [] + [e0] == [e0] && [e0] + [e1] == [e0, e1] && [e0, e1] + [e2] == [e0, e1, e2];
    OneMore(c, [], e0);
    assert [] + [x] == [x] && [x][1..] == [];
    assert After(c, [e0]) == Some(State([x], None, 1)) && Accepted(c, [e0]) == [x];
    OneMore(c, [e0], e1);
    assert After(c, [e0, e1]) == Some(State([], Some(x), 1)) && Accepted(c, [e0, e1]) == [x];
    OneMore(c, [e0, e1], e2);
    assert [] + [y] == [y] && [x] + [y] == [x, y];
  }

  /** Nor does the answer `deploy already in progress` mean that one is: a second push that
      comes before the worker's `get` is refused while nothing runs. */
  lemma RefusedWhileIdle(branch: string, x: Job, y: Job)
    requires x.branch == branch && y.branch == branch
    ensures var c := Config(1, branch);
            var s := After(c, [Post(Verified(Some(x)))]);
            s.Some? && s.value.running == None && Answer(c, s.value, Verified(Some(y))) == 429
  {
    OneMore(Config(1, branch), [], Post(Verified(Some(x))));
    assert [] + [Post(Verified(Some(x)))] == [Post(Verified(Some(x)))];
  }

  // ----- the worker alone drains the queue

  /** What the worker does from a queue, busy with a job or not. */
  ghost function Drain(queue: seq<Job>, busy: bool): seq<Event>
    decreases |queue|, busy
  {
    if busy then [Done] + Drain(queue, false)
    else if queue != [] then [Take] + Drain(queue[1..], true)
    else []
  }

  ghost predicate DrainedBy(c: Config, run: seq<Event>, accepted: seq<Job>) {
    After(c, run) == Some(IDLE) && Completed(c, run) == Accepted(c, run) == accepted
  }

  lemma {:induction false} WorkerDrainsFrom(c: Config, run: seq<Event>, s: State, all: seq<Event>)
    requires After(c, run) == Some(s) && all == run + Drain(s.queue, s.running.Some?)
    ensures DrainedBy(c, all, Accepted(c, run))
    decreases |s.queue|, s.running.Some?
  {
    NothingLost(c, run);
    if s.running.Some? {
      OneMore(c, run, Done);
      WorkerDrainsFrom(c, run + [Done], State(s.queue, None, s.unfinished - 1), all);
    } else if s.queue != [] {
      OneMore(c, run, Take);
      WorkerDrainsFrom(c, run + [Take], State(s.queue[1..], Some(s.queue[0]), s.unfinished), all);
    } else {
      assert all == run;
    }
  }

  /** From every reachable state the worker's own steps, with no further request, complete
      every accepted job, in the order of acceptance. */
  lemma WorkerDrains(c: Config, run: seq<Event>)
    requires After(c, run).Some?
    ensures var s := After(c, run).value;
            var all := run + Drain(s.queue, s.running.Some?);
            After(c, all) == Some(IDLE) && Completed(c, all) == Accepted(c, run) == Accepted(c, all)
  {
    var s := After(c, run).value;
    WorkerDrainsFrom(c, run, s, run + Drain(s.queue, s.running.Some?));
  }
}
