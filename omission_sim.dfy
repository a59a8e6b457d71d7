/**
 * The open- versus closed-loop latency simulator: a server with a fixed
 * number of slots (its multiprogramming level, MPL) runs jobs in parallel
 * and queues the rest FCFS; an open-loop client offers jobs at its own pace,
 * a closed-loop client keeps a fixed population of jobs that think between
 * requests, and an open-loop client with a timeout offers a replacement for
 * every job that took longer than the timeout.
 *
 * Each server operation is specified by a function on the server's state
 * (busy count, slots, queue); the methods that change the objects in place
 * are proved to compute exactly that function.
 */
module OmissionSim {

  import opened Kernel

  datatype Job = Job(size: real, createdT: real)

  /** The handlers events can name; a completion carries the slot it frees. */
  datatype OEvent = Generate | ThinkDone | JobDone(slot: nat)

  /** The three clients; a closed-loop client has its own population size (its MPL). */
  datatype ClientKind = OpenLoop | ClosedLoop(mpl: nat) | OpenLoopWithTimeout(timeout: real)

  /** Whether slot `m` exists and holds a job. */
  function Occ(slots: seq<Option<Job>>, m: nat): nat
  {
    if m < |slots| && slots[m].Some? then 1 else 0
  }

  /** Number of occupied slots. */
  function Occupied(slots: seq<Option<Job>>): (n: nat)
    ensures n <= |slots|
  {
    if slots == [] then 0 else (if slots[0].Some? then 1 else 0) + Occupied(slots[1..])
  }

  /** Replacing one slot changes the count by what left and what came in. */
  lemma {:induction false} OccupiedUpdate(slots: seq<Option<Job>>, i: nat, v: Option<Job>)
    requires i < |slots|
    ensures Occupied(slots[i := v]) + Occ(slots, i) == Occupied(slots) + (if v.Some? then 1 else 0)
  {
    if i > 0 {
      assert slots[i := v][1..] == slots[1..][i - 1 := v];
      OccupiedUpdate(slots[1..], i - 1, v);
    }
  }

  /** Every slot occupied means the count is the number of slots. */
  lemma {:induction false} OccupiedFull(slots: seq<Option<Job>>)
    ensures (forall i :: 0 <= i < |slots| ==> slots[i].Some?) ==> Occupied(slots) == |slots|
  {
    if slots != [] {
      OccupiedFull(slots[1..]);
    }
  }

  /** The lowest-numbered free slot; one exists while fewer slots are occupied than there are. */
  function FirstFree(slots: seq<Option<Job>>): (i: nat)
    requires Occupied(slots) < |slots|
    ensures i < |slots| && slots[i] == None
    ensures forall j :: 0 <= j < i ==> slots[j].Some?
  {
    if slots[0] == None then 0 else 1 + FirstFree(slots[1..])
  }

  /** The server's state: how many slots are busy, the slots, and the waiting jobs (oldest first). */
  datatype ServerState = ServerState(busy: int, slots: seq<Option<Job>>, queue: seq<Job>)

  /** The busy count is the number of occupied slots, of which there are `mpl`. */
  predicate Inv(st: ServerState, mpl: nat)
  {
    |st.slots| == mpl && st.busy == Occupied(st.slots)
  }

  /** Jobs the server holds: running plus waiting. */
  function Held(st: ServerState): int
  {
    st.busy + |st.queue|
  }

  /** Every job the server holds has a non-negative size, as every drawn size does. */
  ghost predicate SizesOk(st: ServerState)
  {
    (forall j <- st.queue :: j.size >= 0.0) && (forall o <- st.slots :: o.Some? ==> o.value.size >= 0.0)
  }

  /**
   * `evs` schedules exactly one completion for each slot that became
   * occupied from `before` to `after`, plus one for the slot `removed`
   * names (whose completion was just dispatched) when it is still occupied.
   */
  ghost predicate Balanced(before: seq<Option<Job>>, after: seq<Option<Job>>, evs: seq<Event<OEvent>>, removed: Option<nat>)
  {
    forall m: nat :: Occ(after, m) + (if removed == Some(m) then 1 else 0) == Occ(before, m) + KindCount(evs, JobDone(m))
  }

  lemma BalancedChain(a: seq<Option<Job>>, b: seq<Option<Job>>, c: seq<Option<Job>>,
                      e1: seq<Event<OEvent>>, e2: seq<Event<OEvent>>, removed: Option<nat>)
    requires Balanced(a, b, e1, removed) && Balanced(b, c, e2, None)
    ensures Balanced(a, c, e1 + e2, removed)
  {
    forall m: nat ensures Occ(c, m) + (if removed == Some(m) then 1 else 0) == Occ(a, m) + KindCount(e1 + e2, JobDone(m)) {
      KindCountAppend(e1, e2, JobDone(m));
      assert Occ(b, m) + (if removed == Some(m) then 1 else 0) == Occ(a, m) + KindCount(e1, JobDone(m));
      assert Occ(c, m) == Occ(b, m) + KindCount(e2, JobDone(m));
    }
  }

  /** The absent event as an empty list, a present one as a singleton. */
  function OptList(ev: Option<Event<OEvent>>): seq<Event<OEvent>>
  {
    if ev.Some? then [ev.value] else []
  }

  /**
   * Offering a job at `t`: with a slot free, the busy count grows, the job
   * takes the LOWEST free slot and its completion is scheduled after its
   * size; with every slot busy the job joins the back of the queue and no
   * event is returned.
   */
  function OfferResult(st: ServerState, mpl: nat, job: Job, t: real): (r: (ServerState, Option<Event<OEvent>>))
    requires Inv(st, mpl)
    ensures Inv(r.0, mpl) && Held(r.0) == Held(st) + 1
    ensures st.busy < mpl ==>
      r.1.Some? && r.1.value.time == t + job.size && r.1.value.kind.JobDone?
      && var i := r.1.value.kind.slot;
      i < mpl && st.slots[i] == None && (forall j :: 0 <= j < i ==> st.slots[j].Some?)
      && r.0 == ServerState(st.busy + 1, st.slots[i := Some(job)], st.queue)
    ensures st.busy >= mpl ==> r.1 == None && r.0 == st.(queue := st.queue + [job])
    ensures Balanced(st.slots, r.0.slots, OptList(r.1), None)
    ensures KindCount(OptList(r.1), Generate) == 0 && KindCount(OptList(r.1), ThinkDone) == 0
    ensures SizesOk(st) && job.size >= 0.0 ==> SizesOk(r.0) && NoneBefore(OptList(r.1), t)
  {
    if st.busy < mpl then
      var i := FirstFree(st.slots);
      OccupiedUpdate(st.slots, i, Some(job));
      (ServerState(st.busy + 1, st.slots[i := Some(job)], st.queue), Some(Event(t + job.size, JobDone(i))))
    else
      (st.(queue := st.queue + [job]), None)
  }

  /**
   * The server's part of a completion in slot `n` at `t`: the oldest waiting
   * job takes the slot and its completion is scheduled after its size, the
   * busy count unchanged; with nobody waiting the slot is freed and the busy
   * count drops.
   */
  function Release(st: ServerState, mpl: nat, t: real, n: nat): (r: (ServerState, seq<Event<OEvent>>))
    requires Inv(st, mpl) && n < mpl && st.slots[n].Some?
    ensures Inv(r.0, mpl) && Held(r.0) == Held(st) - 1
    ensures st.queue != [] ==>
      r.0 == ServerState(st.busy, st.slots[n := Some(st.queue[0])], st.queue[1..])
      && r.1 == [Event(t + st.queue[0].size, JobDone(n))]
    ensures st.queue == [] ==> r.0 == ServerState(st.busy - 1, st.slots[n := None], []) && r.1 == []
    ensures Balanced(st.slots, r.0.slots, r.1, Some(n))
    ensures KindCount(r.1, Generate) == 0 && KindCount(r.1, ThinkDone) == 0
    ensures SizesOk(st) ==> SizesOk(r.0) && NoneBefore(r.1, t)
  {
    if st.queue != [] then
      assert st.queue[0] in st.queue;
      OccupiedUpdate(st.slots, n, Some(st.queue[0]));
      (ServerState(st.busy, st.slots[n := Some(st.queue[0])], st.queue[1..]), [Event(t + st.queue[0].size, JobDone(n))])
    else
      OccupiedUpdate(st.slots, n, None);
      (ServerState(st.busy - 1, st.slots[n := None], []), [])
  }

  /**
   * The client's reaction to a completed job at `t`. An open-loop client
   * does nothing; a closed-loop client's user thinks for `think` and then
   * returns; a client with a timeout offers a replacement job (of size
   * `size`) exactly when the completed job took longer than the timeout.
   */
  function ClientDone(c: ClientKind, st: ServerState, mpl: nat, t: real, completed: Job, think: real, size: real)
    : (r: (ServerState, Option<Event<OEvent>>, nat))
    requires Inv(st, mpl)
    ensures Inv(r.0, mpl) && Held(r.0) == Held(st) + r.2
    ensures Balanced(st.slots, r.0.slots, OptList(r.1), None)
    ensures KindCount(OptList(r.1), Generate) == 0
    ensures KindCount(OptList(r.1), ThinkDone) == if c.ClosedLoop? then 1 else 0
    ensures SizesOk(st) && think >= 0.0 && size >= 0.0 ==> SizesOk(r.0) && NoneBefore(OptList(r.1), t)
    ensures c.OpenLoop? ==> r == (st, None, 0)
    ensures c.ClosedLoop? ==> r == (st, Some(Event(t + think, ThinkDone)), 0)
    ensures c.OpenLoopWithTimeout? ==>
      if t - completed.createdT > c.timeout then r.2 == 1 && (r.0, r.1) == OfferResult(st, mpl, Job(size, t), t)
      else r == (st, None, 0)
  {
    match c
    case OpenLoop => (st, None, 0)
    case ClosedLoop(_) => (st, Some(Event(t + think, ThinkDone)), 0)
    case OpenLoopWithTimeout(timeout) =>
      if t - completed.createdT > timeout then
        var (after, ev) := OfferResult(st, mpl, Job(size, t), t);
        (after, ev, 1)
      else (st, None, 0)
  }

  /** A completion in slot `n`: the server's part, then the client's; their events in that order. */
  function JobDoneResult(st: ServerState, mpl: nat, c: ClientKind, t: real, n: nat, think: real, size: real)
    : (r: (ServerState, seq<Event<OEvent>>, nat))
    requires Inv(st, mpl) && n < mpl && st.slots[n].Some?
    ensures Inv(r.0, mpl) && Held(r.0) == Held(st) - 1 + r.2
    ensures Balanced(st.slots, r.0.slots, r.1, Some(n))
    ensures KindCount(r.1, Generate) == 0
    ensures KindCount(r.1, ThinkDone) == if c.ClosedLoop? then 1 else 0
    ensures c.ClosedLoop? ==> r.2 == 0
    ensures SizesOk(st) && think >= 0.0 && size >= 0.0 ==> SizesOk(r.0) && NoneBefore(r.1, t)
  {
    var (mid, own) := Release(st, mpl, t, n);
    var (after, done, created) := ClientDone(c, mid, mpl, t, st.slots[n].value, think, size);
    BalancedChain(st.slots, mid.slots, after.slots, own, OptList(done), Some(n));
    KindCountAppend(own, OptList(done), Generate);
    KindCountAppend(own, OptList(done), ThinkDone);
    (after, own + OptList(done), created)
  }

  /** Offering `jobs` one after the other; the events of those that got a slot, in order. */
  function OfferAll(st: ServerState, mpl: nat, jobs: seq<Job>, t: real): (r: (ServerState, seq<Event<OEvent>>))
    requires Inv(st, mpl)
    ensures Inv(r.0, mpl) && Held(r.0) == Held(st) + |jobs|
    ensures Balanced(st.slots, r.0.slots, r.1, None)
    ensures KindCount(r.1, Generate) == 0 && KindCount(r.1, ThinkDone) == 0
    ensures SizesOk(st) && (forall j <- jobs :: j.size >= 0.0) ==> SizesOk(r.0) && NoneBefore(r.1, t)
    decreases |jobs|
  {
    if jobs == [] then (st, [])
    else
      var (mid, evs) := OfferAll(st, mpl, jobs[..|jobs| - 1], t);
      assert forall j <- jobs[..|jobs| - 1] :: j in jobs;
      var (after, ev) := OfferResult(mid, mpl, jobs[|jobs| - 1], t);
      BalancedChain(st.slots, mid.slots, after.slots, evs, OptList(ev), None);
      KindCountAppend(evs, OptList(ev), Generate);
      KindCountAppend(evs, OptList(ev), ThinkDone);
      (after, evs + OptList(ev))
  }

  class FCFSQueue {
    var jobs: seq<Job>

    constructor ()
      ensures jobs == []
    {
      jobs := [];
    }

    method Append(job: Job)
      modifies this
      ensures jobs == old(jobs) + [job]
    {
      jobs := jobs + [job];
    }

    method Pop() returns (job: Job)
      requires jobs != []
      modifies this
      ensures [job] + jobs == old(jobs)
    {
      job, jobs := jobs[0], jobs[1..];
    }
  }

  /** The server: `mpl` slots, a busy count, a FCFS queue, and the client it reports completions to. */
  class Server {
    var busy: int
    const queue: FCFSQueue
    const simName: string
    const mpl: nat
    const jobs: array<Option<Job>>
    const client: ClientKind
    const rho: real

    function State(): ServerState
      reads this, jobs, queue
    {
      ServerState(busy, jobs[..], queue.jobs)
    }

    ghost predicate Valid()
      reads this, jobs, queue
    {
      jobs.Length == mpl && Inv(State(), mpl)
    }

    constructor (mpl: nat, simName: string, client: ClientKind, rho: real)
      ensures this.mpl == mpl && this.simName == simName && this.client == client && this.rho == rho
      ensures fresh(jobs) && fresh(queue)
      ensures Valid() && busy == 0 && queue.jobs == [] && forall i :: 0 <= i < mpl ==> jobs[i] == None
    {
      busy := 0;
      queue := new FCFSQueue();
      this.simName, this.mpl, this.client, this.rho := simName, mpl, client, rho;
      jobs := new Option<Job>[mpl](_ => None);
      new;
      OccupiedNone(jobs[..]);
    }

    method Offer(job: Job, t: real) returns (ev: Option<Event<OEvent>>)
      requires Valid()
      modifies this, jobs, queue
      ensures Valid()
      ensures (State(), ev) == OfferResult(old(State()), mpl, job, t)
    {
      if busy < mpl {
        busy := busy + 1;
        var i := 0;
        while i < mpl
          invariant 0 <= i <= mpl
          invariant forall j :: 0 <= j < i ==> jobs[j].Some?
          invariant jobs[..] == old(jobs[..])
        {
          if jobs[i] == None {
            jobs[i] := Some(job);
            OccupiedUpdate(old(jobs[..]), i, Some(job));
            return Some(Event(t + job.size, OEvent.JobDone(i)));
          }
          i := i + 1;
        }
        OccupiedFull(jobs[..]);
        assert false;
      } else {
        queue.Append(job);
        return None;
      }
    }

    /**
     * Completion in slot `n` at `t`: the completed job is returned (for the
     * latency report), and the server and client react as `JobDoneResult`
     * says. `think` and `size` are the draws the client's reaction may use.
     */
    method JobDone(t: real, n: nat, think: real, size: real) returns (evs: seq<Event<OEvent>>, completed: Job, created: nat)
      requires Valid() && n < mpl && jobs[n].Some?
      modifies this, jobs, queue
      ensures Valid()
      ensures completed == old(jobs[n].value)
      ensures (State(), evs, created) == JobDoneResult(old(State()), mpl, client, t, n, think, size)
    {
      completed := jobs[n].value;
      evs := [];
      if |queue.jobs| > 0 {
        var next := queue.Pop();
        jobs[n] := Some(next);
        evs := [Event(t + next.size, OEvent.JobDone(n))];
      } else {
        busy := busy - 1;
        jobs[n] := None;
      }
      assert (State(), evs) == Release(old(State()), mpl, t, n);
      var done;
      done, created := Done(t, completed, think, size);
      evs := evs + OptList(done);
    }

    /** The client's reaction to a completion, as `ClientDone` says. */
    method Done(t: real, completed: Job, think: real, size: real) returns (ev: Option<Event<OEvent>>, created: nat)
      requires Valid()
      modifies this, jobs, queue
      ensures Valid()
      ensures (State(), ev, created) == ClientDone(client, old(State()), mpl, t, completed, think, size)
    {
      match client
      case OpenLoop =>
        ev, created := None, 0;
      case ClosedLoop(_) =>
        ev, created := Some(Event(t + think, ThinkDone)), 0;
      case OpenLoopWithTimeout(timeout) =>
        if t - completed.createdT > timeout {
          ev := Offer(Job(size, t), t);
          created := 1;
        } else {
          ev, created := None, 0;
        }
    }
  }

  lemma {:induction false} OccupiedNone(slots: seq<Option<Job>>)
    requires forall i :: 0 <= i < |slots| ==> slots[i] == None
    ensures Occupied(slots) == 0
  {
    if slots != [] {
      OccupiedNone(slots[1..]);
    }
  }

  /**
   * An open-loop generation at `t` (with or without a timeout): a job of the
   * drawn size is offered, and the next generation is scheduled `gap` later,
   * followed by the job's completion when it got a slot.
   */
  method GenerateOpen(s: Server, t: real, size: real, gap: real) returns (evs: seq<Event<OEvent>>)
    requires s.Valid()
    modifies s, s.jobs, s.queue
    ensures s.Valid()
    ensures var (after, ev) := OfferResult(old(s.State()), s.mpl, Job(size, t), t);
      s.State() == after && evs == [Event(t + gap, Generate)] + OptList(ev)
  {
    var job := Job(size, t);
    var nextT := t + gap;
    var offered := s.Offer(job, t);
    if offered == None {
      return [Event(nextT, Generate)];
    } else {
      return [Event(nextT, Generate), offered.value];
    }
  }

  /** A closed-loop generation: the whole population offers one job each, and only the started ones schedule completions. */
  method GenerateClosed(s: Server, t: real, sizes: seq<real>) returns (evs: seq<Event<OEvent>>)
    requires s.Valid() && s.client.ClosedLoop? && |sizes| >= s.client.mpl
    modifies s, s.jobs, s.queue
    ensures s.Valid()
    ensures (s.State(), evs) == OfferAll(old(s.State()), s.mpl, JobsAt(sizes[..s.client.mpl], t), t)
  {
    evs := [];
    ghost var st0 := s.State();
    for i := 0 to s.client.mpl
      invariant s.Valid()
      invariant (s.State(), evs) == OfferAll(st0, s.mpl, JobsAt(sizes[..i], t), t)
    {
      ghost var before := JobsAt(sizes[..i], t);
      assert JobsAt(sizes[..i + 1], t) == before + [Job(sizes[i], t)] by {
        assert sizes[..i + 1][..i] == sizes[..i];
      }
      var offered := s.Offer(Job(sizes[i], t), t);
      evs := evs + OptList(offered);
      assert (before + [Job(sizes[i], t)])[..i] == before;
    }
  }

  /** Jobs of the given sizes, all created at `t`. */
  function JobsAt(sizes: seq<real>, t: real): (jobs: seq<Job>)
    ensures |jobs| == |sizes|
    ensures forall i :: 0 <= i < |sizes| ==> jobs[i] == Job(sizes[i], t)
  {
    if sizes == [] then [] else JobsAt(sizes[..|sizes| - 1], t) + [Job(sizes[|sizes| - 1], t)]
  }

  /** A closed-loop user returns from thinking and offers a job; nothing (not an empty list) when it is queued. */
  method ThinkDoneHandler(s: Server, t: real, size: real) returns (evs: Option<seq<Event<OEvent>>>)
    requires s.Valid()
    modifies s, s.jobs, s.queue
    ensures s.Valid()
    ensures var (after, ev) := OfferResult(old(s.State()), s.mpl, Job(size, t), t);
      s.State() == after && evs == if ev.Some? then Some([ev.value]) else None
  {
    var offerRsp := s.Offer(Job(size, t), t);
    evs := if offerRsp.Some? then Some([offerRsp.value]) else None;
  }

  lemma BalancedGenerate(slots: seq<Option<Job>>, t: real)
    ensures Balanced(slots, slots, [Event(t, Generate)], None)
  {
    forall m: nat ensures KindCount([Event(t, Generate)], JobDone(m)) == 0 {
      assert [Event(t, Generate)][1..] == [];
    }
  }

  /** The random draws one step may use: the next arrival gap, a think time, and job sizes. */
  datatype OmissionDraw = OmissionDraw(gap: real, think: real, sizes: seq<real>)

  /**
   * Draws are non-negative, as exponential and Weibull samples are, and
   * there is a size for every job one step can create.
   */
  predicate DrawOk(c: ClientKind, d: OmissionDraw)
  {
    d.gap >= 0.0 && d.think >= 0.0 && |d.sizes| >= 1 && (c.ClosedLoop? ==> |d.sizes| >= c.mpl)
    && forall x <- d.sizes :: x >= 0.0
  }

  /** The slot a dispatched completion frees, if the event is one. */
  function Removed(k: OEvent): Option<nat>
  {
    if k.JobDone? then Some(k.slot) else None
  }

  /**
   * Dispatching one event to its handler. The returned events balance the
   * slots that became occupied; generation events are followed by another
   * only for open-loop clients, and each completion of a closed-loop
   * client's job starts that user's think time. `created` counts the new
   * jobs, `completed` the finished one.
   */
  method Dispatch(s: Server, e: Event<OEvent>, d: OmissionDraw)
      returns (evs: seq<Event<OEvent>>, completed: Option<Job>, created: nat)
    requires s.Valid() && SizesOk(s.State()) && DrawOk(s.client, d)
    requires e.kind.JobDone? ==> e.kind.slot < s.mpl && s.jobs[e.kind.slot].Some?
    requires e.kind.ThinkDone? ==> s.client.ClosedLoop?
    modifies s, s.jobs, s.queue
    ensures s.Valid() && SizesOk(s.State())
    ensures NoneBefore(evs, e.time)
    ensures Balanced(old(s.State()).slots, s.State().slots, evs, Removed(e.kind))
    ensures Held(s.State()) + (if completed.Some? then 1 else 0) == old(Held(s.State())) + created
    ensures completed.Some? <==> e.kind.JobDone?
    ensures KindCount(evs, Generate) == if e.kind.Generate? && !s.client.ClosedLoop? then 1 else 0
    ensures KindCount(evs, ThinkDone) == if e.kind.JobDone? && s.client.ClosedLoop? then 1 else 0
    ensures e.kind.Generate? ==> created == if s.client.ClosedLoop? then s.client.mpl else 1
    ensures e.kind.ThinkDone? ==> created == 1
    ensures e.kind.JobDone? && s.client.ClosedLoop? ==> created == 0
  {
    ghost var st0 := s.State();
    var t := e.time;
    completed := None;
    match e.kind {
      case Generate =>
        if s.client.ClosedLoop? {
          forall j | j in JobsAt(d.sizes[..s.client.mpl], t) ensures j.size >= 0.0 {
            var i :| 0 <= i < s.client.mpl && JobsAt(d.sizes[..s.client.mpl], t)[i] == j;
            assert d.sizes[i] in d.sizes;
          }
          evs := GenerateClosed(s, t, d.sizes);
          created := s.client.mpl;
        } else {
          assert d.sizes[0] in d.sizes;
          evs := GenerateOpen(s, t, d.sizes[0], d.gap);
          created := 1;
          var ev := OfferResult(st0, s.mpl, Job(d.sizes[0], t), t).1;
          BalancedGenerate(st0.slots, t + d.gap);
          BalancedChain(st0.slots, st0.slots, s.State().slots, [Event(t + d.gap, Generate)], OptList(ev), None);
          KindCountCons(Event(t + d.gap, Generate), OptList(ev), Generate);
          KindCountCons(Event(t + d.gap, Generate), OptList(ev), ThinkDone);
        }
      case ThinkDone =>
        assert d.sizes[0] in d.sizes;
        var r := ThinkDoneHandler(s, t, d.sizes[0]);
        evs := if r.Some? then r.value else [];
        created := 1;
      case JobDone(n) =>
        assert d.sizes[0] in d.sizes;
        var job;
        evs, job, created := s.JobDone(t, n, d.think, d.sizes[0]);
        completed := Some(job);
    }
  }

  /** Each slot free at the start has a completion pending exactly while it is occupied. */
  ghost predicate SlotsPending(q: seq<Event<OEvent>>, s0: seq<Option<Job>>, slots: seq<Option<Job>>)
  {
    forall m: nat :: KindCount(q, JobDone(m)) + Occ(s0, m) == Occ(slots, m)
  }

  /**
   * An open-loop client has its next generation pending and no think time;
   * a closed-loop client's users are each waiting to be generated,
   * thinking, running or queued, with `held0` jobs held at the start.
   */
  ghost predicate Population(q: seq<Event<OEvent>>, c: ClientKind, held: int, held0: int)
  {
    (!c.ClosedLoop? ==> KindCount(q, Generate) == 1 && KindCount(q, ThinkDone) == 0)
    && (c.ClosedLoop? ==>
          KindCount(q, Generate) <= 1
          && KindCount(q, Generate) * c.mpl + KindCount(q, ThinkDone) + held == c.mpl + held0)
  }

  /** One loop step: the earliest event is removed, dispatched, and what it returns is added. */
  method Step(s: Server, q: seq<Event<OEvent>>, d: OmissionDraw, ghost s0: seq<Option<Job>>, ghost held0: int, ghost clock: real)
      returns (e: Event<OEvent>, q': seq<Event<OEvent>>, completed: Option<Job>, created: nat)
    requires q != [] && NoneBefore(q, clock)
    requires s.Valid() && SizesOk(s.State()) && DrawOk(s.client, d)
    requires SlotsPending(q, s0, s.State().slots)
    requires Population(q, s.client, Held(s.State()), held0)
    modifies s, s.jobs, s.queue
    ensures s.Valid() && SizesOk(s.State())
    ensures e == PopMin(q).0 && clock <= e.time && NoneBefore(q', e.time)
    ensures SlotsPending(q', s0, s.State().slots)
    ensures Held(s.State()) + (if completed.Some? then 1 else 0) == old(Held(s.State())) + created
    ensures Population(q', s.client, Held(s.State()), held0)
  {
    ghost var before := s.State();
    var rest;
    e, rest := PopMin(q).0, PopMin(q).1;
    KindCountPopMin(q, e.kind);
    KindCountPopMin(q, Generate);
    KindCountPopMin(q, ThinkDone);
    if e.kind.JobDone? {
      KindCountPopMin(q, JobDone(e.kind.slot));
    }
    var evs;
    evs, completed, created := Dispatch(s, e, d);
    DispatchKeepsClock(q, clock, Some(evs));
    StepCounts(q, rest, evs, e.kind, s0, before.slots, s.State().slots);
    KindCountAppend(rest, evs, Generate);
    KindCountAppend(rest, evs, ThinkDone);
    q' := rest + evs;
  }

  /**
   * The simulation loop, from a single generation event at time 0, while
   * the previously dispatched time is below `maxT` (and draws last). Its
   * invariants make every handler's assertion hold: a completion always
   * finds its slot occupied, and think times only occur for a closed-loop
   * client. Every job created is completed or still held by the server.
   */
  method SimLoop(s: Server, maxT: real, draws: seq<OmissionDraw>)
      returns (trace: seq<real>, completed: seq<Job>, created: nat, q: seq<Event<OEvent>>)
    requires s.Valid() && SizesOk(s.State())
    requires forall d <- draws :: DrawOk(s.client, d)
    modifies s, s.jobs, s.queue
    ensures s.Valid()
    ensures Sorted(trace) && WithinHorizon(trace, maxT)
    ensures |trace| <= |draws|
    ensures q == [] || |trace| == |draws| || Clock(trace) >= maxT
    ensures SlotsPending(q, old(s.State()).slots, s.State().slots)
    ensures Population(q, s.client, Held(s.State()), old(Held(s.State())))
    ensures old(Held(s.State())) + created == |completed| + Held(s.State())
  {
    ghost var st0 := s.State();
    q := [Event(0.0, Generate)];
    trace, completed, created := [], [], 0;
    assert q[1..] == [];
    while q != [] && Clock(trace) < maxT && |trace| < |draws|
      invariant s.Valid() && SizesOk(s.State())
      invariant Sorted(trace) && WithinHorizon(trace, maxT) && NoneBefore(q, Clock(trace))
      invariant |trace| <= |draws|
      invariant SlotsPending(q, st0.slots, s.State().slots)
      invariant Population(q, s.client, Held(s.State()), Held(st0))
      invariant Held(st0) + created == |completed| + Held(s.State())
      decreases |draws| - |trace|
    {
      var e, done, made;
      e, q, done, made := Step(s, q, draws[|trace|], st0.slots, Held(st0), Clock(trace));
      if done.Some? {
        completed := completed + [done.value];
      }
      created := created + made;
      TraceStaysSorted(trace, e.time);
      trace := trace + [e.time];
      assert Clock(trace) == e.time;
    }
  }

  /** One step keeps "pending completions plus initially occupied slots equal occupied slots". */
  lemma StepCounts(q: seq<Event<OEvent>>, rest: seq<Event<OEvent>>, evs: seq<Event<OEvent>>, k: OEvent,
                   s0: seq<Option<Job>>, before: seq<Option<Job>>, after: seq<Option<Job>>)
    requires q != [] && PopMin(q).0.kind == k && PopMin(q).1 == rest
    requires SlotsPending(q, s0, before)
    requires Balanced(before, after, evs, Removed(k))
    ensures SlotsPending(rest + evs, s0, after)
  {
    forall m: nat ensures KindCount(rest + evs, JobDone(m)) + Occ(s0, m) == Occ(after, m) {
      KindCountPopMin(q, JobDone(m));
      KindCountAppend(rest, evs, JobDone(m));
    }
  }
}
