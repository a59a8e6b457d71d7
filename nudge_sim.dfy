/**
 * The Nudge scheduling simulator: one server works through one job at a
 * time, jobs that find it busy wait in a queue whose discipline is FCFS,
 * LIFO or Nudge, and one open-loop client generates jobs. Nudge is FCFS
 * except that a new job may jump ahead of a larger job at the back of the
 * queue, at most once per overtaken job.
 */
module NudgeSim {

  import opened Kernel

  /** A job: its service time, whether it has already been overtaken, and when it was created. */
  datatype Job = Job(size: real, swapped: bool, createdT: real)

  datatype Discipline = FCFS | Nudge | LIFO

  /** The handlers events can name: the client's job generator and the server's completion. */
  datatype NudgeEvent = Generate | JobDone

  /**
   * Nudge's append: a new job goes in front of the last queued job when
   * that job is larger and has never been overtaken, which then counts as
   * overtaken; otherwise the new job joins the back.
   */
  function NudgeAppend(q: seq<Job>, job: Job): seq<Job>
  {
    if q == [] then [job]
    else
      var last := q[|q| - 1];
      if last.size > job.size && !last.swapped then q[..|q| - 1] + [job, last.(swapped := true)]
      else q + [job]
  }

  /** The queue after `job` joins it under discipline `d`. */
  function Appended(d: Discipline, q: seq<Job>, job: Job): seq<Job>
  {
    if d == Nudge then NudgeAppend(q, job) else q + [job]
  }

  /** The job with its overtaken flag cleared: what identifies it apart from that flag. */
  function Plain(job: Job): Job
  {
    job.(swapped := false)
  }

  function PlainAll(q: seq<Job>): (r: seq<Job>)
    ensures |r| == |q|
    ensures forall i :: 0 <= i < |q| ==> r[i] == Plain(q[i])
  {
    if q == [] then [] else [Plain(q[0])] + PlainAll(q[1..])
  }

  /**
   * Nudge changes a FCFS append in the last two positions at most, and it
   * changes it exactly when the last queued job is larger than the new one
   * and has not been overtaken before.
   */
  lemma NudgeAppendNearFCFS(q: seq<Job>, job: Job)
    ensures |NudgeAppend(q, job)| == |q| + 1
    ensures q != [] ==> NudgeAppend(q, job)[..|q| - 1] == q[..|q| - 1]
    ensures NudgeAppend(q, job) != q + [job] <==>
      q != [] && q[|q| - 1].size > job.size && !q[|q| - 1].swapped
  {
    if q != [] {
      var last := q[|q| - 1];
      if last.size > job.size && !last.swapped {
        assert NudgeAppend(q, job)[|q|] != (q + [job])[|q|];
      }
    }
  }

  lemma PlainAllAppend(a: seq<Job>, b: seq<Job>)
    ensures PlainAll(a + b) == PlainAll(a) + PlainAll(b)
  {
  }

  lemma PlainAllPush(q: seq<Job>, job: Job)
    ensures multiset(PlainAll(q + [job])) == multiset(PlainAll(q)) + multiset{Plain(job)}
  {
    PlainAllAppend(q, [job]);
    assert PlainAll([job]) == [Plain(job)];
  }

  /** Overtaking the last job keeps the jobs, flags aside. */
  lemma SwapPermutes(front: seq<Job>, last: Job, job: Job)
    ensures multiset(PlainAll(front + [job] + [last.(swapped := true)]))
            == multiset(PlainAll(front + [last])) + multiset{Plain(job)}
  {
    PlainAllPush(front, last);
    PlainAllPush(front, job);
    PlainAllPush(front + [job], last.(swapped := true));
  }

  /** Nudge only reorders: the queue holds the same jobs plus the new one, flags aside. */
  lemma {:induction false} NudgeAppendPermutes(q: seq<Job>, job: Job)
    ensures multiset(PlainAll(NudgeAppend(q, job))) == multiset(PlainAll(q)) + multiset{Plain(job)}
  {
    if q != [] && q[|q| - 1].size > job.size && !q[|q| - 1].swapped {
      var front, last := q[..|q| - 1], q[|q| - 1];
      assert q == front + [last];
      assert NudgeAppend(q, job) == front + [job] + [last.(swapped := true)];
      SwapPermutes(front, last, job);
    } else {
      PlainAllPush(q, job);
    }
  }

  /**
   * A job that has been overtaken keeps its place and its flag through every
   * later append, and no job loses its flag: each job is overtaken at most once.
   */
  lemma NudgeAppendKeepsSwapped(q: seq<Job>, job: Job)
    ensures forall i :: 0 <= i < |q| && q[i].swapped ==> NudgeAppend(q, job)[i] == q[i]
    ensures forall i :: 0 <= i < |q| ==> Plain(NudgeAppend(q, job)[i]) == Plain(q[i]) || i == |q| - 1
    ensures forall i :: 0 <= i < |q| && q[i].swapped ==> NudgeAppend(q, job)[i].swapped
  {
  }

  /** On an empty queue, or behind a job that was already overtaken, Nudge is a FCFS append. */
  lemma NudgeAppendFCFSCases(q: seq<Job>, job: Job)
    requires q == [] || q[|q| - 1].swapped || q[|q| - 1].size <= job.size
    ensures NudgeAppend(q, job) == q + [job]
  {
  }

  /**
   * The next job to serve under `d` and the queue it leaves: LIFO takes the
   * most recently queued job, FCFS and Nudge the oldest.
   */
  function Take(d: Discipline, q: seq<Job>): (p: (Job, seq<Job>))
    requires q != []
    ensures multiset(p.1) + multiset{p.0} == multiset(q)
    ensures d == LIFO ==> p.0 == q[|q| - 1] && p.1 == q[..|q| - 1]
    ensures d != LIFO ==> p.0 == q[0] && p.1 == q[1..]
  {
    if d == LIFO then
      assert q == q[..|q| - 1] + [q[|q| - 1]];
      (q[|q| - 1], q[..|q| - 1])
    else
      assert q == [q[0]] + q[1..];
      (q[0], q[1..])
  }

  /** The waiting jobs, ordered as the discipline keeps them; the front of `jobs` is the oldest end. */
  class JobQueue {
    const discipline: Discipline
    var jobs: seq<Job>

    constructor (discipline: Discipline)
      ensures this.discipline == discipline && jobs == []
    {
      this.discipline := discipline;
      jobs := [];
    }

    method Append(job: Job)
      modifies this
      ensures jobs == Appended(discipline, old(jobs), job)
    {
      if discipline == Nudge && jobs != [] {
        var last := jobs[|jobs| - 1];
        jobs := jobs[..|jobs| - 1];
        if last.size > job.size && !last.swapped {
          jobs := jobs + [job] + [last.(swapped := true)];
        } else {
          jobs := jobs + [last] + [job];
        }
      } else {
        jobs := jobs + [job];
      }
    }

    method Pop() returns (job: Job)
      requires jobs != []
      modifies this
      ensures (job, jobs) == Take(discipline, old(jobs))
    {
      if discipline == LIFO {
        job, jobs := jobs[|jobs| - 1], jobs[..|jobs| - 1];
      } else {
        job, jobs := jobs[0], jobs[1..];
      }
    }
  }

  /** The single server: busy exactly while a job is in flight. */
  class Server {
    var busy: bool
    const queue: JobQueue
    var inFlight: Option<Job>
    const simName: string

    ghost predicate Valid()
      reads this
    {
      busy <==> inFlight.Some?
    }

    constructor (queue: JobQueue, simName: string)
      ensures this.queue == queue && this.simName == simName
      ensures !busy && inFlight == None && Valid()
    {
      busy, inFlight := false, None;
      this.queue, this.simName := queue, simName;
    }

    /**
     * The job in flight completes at `t` (it is returned, for its latency
     * report). The next queued job, if any, is taken and completes after its
     * size; otherwise the server goes idle and schedules nothing.
     */
    method JobDone(t: real) returns (finished: Job, evs: Option<seq<Event<NudgeEvent>>>)
      requires busy && Valid()
      modifies this, queue
      ensures Valid()
      ensures finished == old(inFlight).value
      ensures old(queue.jobs) != [] ==>
        var (next, rest) := Take(queue.discipline, old(queue.jobs));
        busy && inFlight == Some(next) && queue.jobs == rest && evs == Some([Event(t + next.size, NudgeEvent.JobDone)])
      ensures old(queue.jobs) == [] ==> !busy && inFlight == None && queue.jobs == [] && evs == None
    {
      finished := inFlight.value;
      if |queue.jobs| > 0 {
        var next := queue.Pop();
        inFlight := Some(next);
        evs := Some([Event(t + next.size, NudgeEvent.JobDone)]);
      } else {
        inFlight, busy := None, false;
        evs := None;
      }
    }

    method Start(job: Job)
      requires !busy
      modifies this
      ensures busy && inFlight == Some(job) && Valid()
    {
      busy, inFlight := true, Some(job);
    }
  }

  /** The open-loop client: one new job per generation event, whatever the server's state. */
  class Client {
    const server: Server

    constructor (server: Server)
      ensures this.server == server
    {
      this.server := server;
    }

    /**
     * A job of the drawn `size` is created at `t` and the next generation is
     * scheduled `gap` later. A busy server queues the job; an idle one starts
     * it, and its completion is scheduled after its size.
     */
    method Generate(t: real, size: real, gap: real) returns (evs: seq<Event<NudgeEvent>>)
      requires server.Valid()
      modifies server, server.queue
      ensures server.Valid()
      ensures old(server.busy) ==>
        server.busy && server.inFlight == old(server.inFlight)
        && server.queue.jobs == Appended(server.queue.discipline, old(server.queue.jobs), Job(size, false, t))
        && evs == [Event(t + gap, NudgeEvent.Generate)]
      ensures !old(server.busy) ==>
        server.busy && server.inFlight == Some(Job(size, false, t)) && server.queue.jobs == old(server.queue.jobs)
        && evs == [Event(t + gap, NudgeEvent.Generate), Event(t + size, NudgeEvent.JobDone)]
    {
      var job := Job(size, false, t);
      var nextT := t + gap;
      if server.busy {
        server.queue.Append(job);
        return [Event(nextT, NudgeEvent.Generate)];
      } else {
        server.Start(job);
      }
      evs := [Event(nextT, NudgeEvent.Generate), Event(t + size, NudgeEvent.JobDone)];
    }
  }

  /** The random draws one step may use: the gap to the next arrival and the new job's size. */
  datatype NudgeDraw = NudgeDraw(gap: real, size: real)

  /** Jobs the server holds: the waiting ones plus the one in flight. */
  function Held(s: Server): nat
    reads s, s.queue
  {
    |s.queue.jobs| + (if s.busy then 1 else 0)
  }

  /** Every job the server holds has a non-negative size, as every drawn size does. */
  ghost predicate SizesOk(s: Server)
    reads s, s.queue
  {
    (forall j <- s.queue.jobs :: j.size >= 0.0) && (s.inFlight.Some? ==> s.inFlight.value.size >= 0.0)
  }

  lemma AppendedSizes(d: Discipline, q: seq<Job>, job: Job)
    requires forall j <- q :: j.size >= 0.0
    requires job.size >= 0.0
    ensures forall j <- Appended(d, q, job) :: j.size >= 0.0
  {
    if d == Nudge && q != [] {
      var last := q[|q| - 1];
      assert last in q;
      assert forall j <- q[..|q| - 1] :: j in q;
    }
  }

  /**
   * Dispatching one event. A generation event is always followed by exactly
   * one new generation event and adds one held job; a completion event is
   * only dispatched on a busy server and releases one job. A completion is
   * scheduled exactly when the server becomes or stays busy through it.
   */
  method Dispatch(client: Client, e: Event<NudgeEvent>, d: NudgeDraw) returns (evs: seq<Event<NudgeEvent>>, done: Option<Job>)
    requires client.server.Valid() && SizesOk(client.server)
    requires d.gap >= 0.0 && d.size >= 0.0
    requires e.kind == JobDone ==> client.server.busy
    modifies client.server, client.server.queue
    ensures client.server.Valid() && SizesOk(client.server)
    ensures NoneBefore(evs, e.time)
    ensures e.kind == Generate ==>
      KindCount(evs, Generate) == 1 && KindCount(evs, JobDone) == (if old(client.server.busy) then 0 else 1)
      && client.server.busy && done == None && Held(client.server) == old(Held(client.server)) + 1
    ensures e.kind == JobDone ==>
      KindCount(evs, Generate) == 0 && KindCount(evs, JobDone) == (if client.server.busy then 1 else 0)
      && done.Some? && Held(client.server) + 1 == old(Held(client.server))
  {
    var server := client.server;
    match e.kind {
      case Generate =>
        AppendedSizes(server.queue.discipline, server.queue.jobs, Job(d.size, false, e.time));
        evs := client.Generate(e.time, d.size, d.gap);
        done := None;
        assert evs[1..] == [] || evs[1..][1..] == [];
      case JobDone =>
        ghost var jobs := server.queue.jobs;
        var job, more := server.JobDone(e.time);
        done := Some(job);
        evs := if more.Some? then more.value else [];
        if jobs != [] {
          assert server.inFlight.value in multiset(jobs);
          assert forall j <- server.queue.jobs :: j in multiset(jobs);
          assert evs[1..] == [];
        }
    }
  }

  /**
   * The simulation loop, from a single generation event at time 0. It runs
   * while the previously dispatched time is below `maxT` (and draws last).
   * Exactly one generation event stays pending, at most one completion
   * event is pending and only while the server is busy, so the server's
   * assertions always hold; every generated job is finished or still held.
   */
  method SimLoop(client: Client, maxT: real, draws: seq<NudgeDraw>)
      returns (trace: seq<real>, finished: seq<Job>, generated: nat, q: seq<Event<NudgeEvent>>)
    requires client.server.Valid() && SizesOk(client.server)
    requires forall d <- draws :: d.gap >= 0.0 && d.size >= 0.0
    modifies client.server, client.server.queue
    ensures Sorted(trace) && WithinHorizon(trace, maxT)
    ensures |trace| <= |draws|
    ensures |trace| == |draws| || Clock(trace) >= maxT
    ensures client.server.Valid()
    ensures KindCount(q, Generate) == 1
    ensures KindCount(q, JobDone) <= 1 && (KindCount(q, JobDone) == 1 ==> client.server.busy)
    ensures !old(client.server.busy) ==> (client.server.busy <==> KindCount(q, JobDone) == 1)
    ensures old(Held(client.server)) + generated == |finished| + Held(client.server)
  {
    var server := client.server;
    q := [Event(0.0, Generate)];
    trace, finished, generated := [], [], 0;
    while q != [] && Clock(trace) < maxT && |trace| < |draws|
      invariant server.Valid() && SizesOk(server)
      invariant Sorted(trace) && WithinHorizon(trace, maxT) && NoneBefore(q, Clock(trace))
      invariant |trace| <= |draws|
      invariant KindCount(q, Generate) == 1
      invariant KindCount(q, JobDone) <= 1 && (KindCount(q, JobDone) == 1 ==> server.busy)
      invariant !old(server.busy) ==> (server.busy <==> KindCount(q, JobDone) == 1)
      invariant old(Held(server)) + generated == |finished| + Held(server)
      decreases |draws| - |trace|
    {
      var (e, rest) := PopMin(q);
      KindCountPopMin(q, Generate);
      KindCountPopMin(q, JobDone);
      DispatchKeepsClock(q, Clock(trace), None);
      assert e in q;
      var evs, done := Dispatch(client, e, draws[|trace|]);
      if done.Some? {
        finished := finished + [done.value];
      } else {
        generated := generated + 1;
      }
      KindCountAppend(rest, evs, Generate);
      KindCountAppend(rest, evs, JobDone);
      TraceStaysSorted(trace, e.time);
      q := rest + evs;
      trace := trace + [e.time];
      assert Clock(trace) == e.time;
    }
  }
}
