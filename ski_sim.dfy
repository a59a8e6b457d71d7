/**
 * The ski-lift simulator: skiers cycle from the lift line onto a chair, up
 * the lift, down the slope and back into the line; a chair arrives every
 * period and takes up to its width of skiers from the line; a statistics
 * actor samples the line length and the fraction of skiers on the slope.
 */
module SkiSim {

  import opened Kernel

  datatype SkiierState = Waiting | RidingLift | Skiing

  /** The handlers events can name; skier events carry the skier. */
  datatype SkiEvent = CalcStats | DequeueSkiiers | LeaveLift(skiier: Skiier) | JoinQueue(skiier: Skiier)

  /**
   * A skier: Waiting, then RidingLift, then Skiing, then Waiting again; each
   * transition is only taken from the state before it.
   */
  class Skiier {
    const speed: real
    const lift: Lift
    const slopeLenM: real
    var state: SkiierState

    constructor (speed: real, lift: Lift, slopeLenM: real)
      ensures this.speed == speed && this.lift == lift && this.slopeLenM == slopeLenM
      ensures state == Waiting
    {
      this.speed, this.lift, this.slopeLenM := speed, lift, slopeLenM;
      state := Waiting;
    }

    /** Boarding a chair at `t`: the skier leaves the lift after the drawn ride time. */
    method BoardLift(t: real, rideTime: real) returns (evs: seq<Event<SkiEvent>>)
      requires state == Waiting
      modifies this
      ensures state == RidingLift
      ensures evs == [Event(t + rideTime, SkiEvent.LeaveLift(this))]
    {
      state := RidingLift;
      evs := [Event(t + rideTime, SkiEvent.LeaveLift(this))];
    }

    /** Leaving the lift at `t`: the skier is back at the line after skiing the slope at their speed. */
    method LeaveLift(t: real) returns (evs: seq<Event<SkiEvent>>)
      requires state == RidingLift && speed != 0.0
      modifies this
      ensures state == Skiing
      ensures evs == [Event(t + slopeLenM / speed, SkiEvent.JoinQueue(this))]
    {
      state := Skiing;
      var timeSpentSkiing := slopeLenM / speed;
      evs := [Event(t + timeSpentSkiing, SkiEvent.JoinQueue(this))];
    }

    /** Reaching the line: the skier waits at its back, and nothing is scheduled. */
    method JoinQueue(t: real) returns (evs: Option<seq<Event<SkiEvent>>>)
      requires state == Skiing
      modifies this, lift
      ensures state == Waiting
      ensures lift.queue == old(lift.queue) + [this]
      ensures evs == None
    {
      state := Waiting;
      lift.queue := lift.queue + [this];
      evs := None;
    }
  }

  /**
   * The skiers a chair takes from `line`, in boarding order: up to `k` of
   * them, from the END of the line.
   */
  function PopOrder(line: seq<Skiier>, k: nat): (b: seq<Skiier>)
    ensures |b| == if k <= |line| then k else |line|
  {
    if k == 0 then []
    else
      var b := PopOrder(line, k - 1);
      if |b| < |line| then b + [line[|line| - 1 - |b|]] else b
  }

  /** The `i`-th skier to board is the `i`-th from the end of the line. */
  lemma {:induction false} PopOrderAt(line: seq<Skiier>, k: nat, i: nat)
    requires i < |PopOrder(line, k)|
    ensures PopOrder(line, k)[i] == line[|line| - 1 - i]
  {
    var b := PopOrder(line, k - 1);
    if i < |b| {
      PopOrderAt(line, k - 1, i);
    }
  }

  /** The departure events of the boarded skiers, each after its own drawn ride time. */
  function LeaveEvents(boarded: seq<Skiier>, t: real, rideTimes: seq<real>): (evs: seq<Event<SkiEvent>>)
    requires |rideTimes| >= |boarded|
    ensures |evs| == |boarded|
  {
    if boarded == [] then []
    else LeaveEvents(boarded[..|boarded| - 1], t, rideTimes) + [Event(t + rideTimes[|boarded| - 1], SkiEvent.LeaveLift(boarded[|boarded| - 1]))]
  }

  /** The `i`-th departure is the `i`-th boarded skier's, after the `i`-th ride time. */
  lemma {:induction false} LeaveEventAt(boarded: seq<Skiier>, t: real, rideTimes: seq<real>, i: nat)
    requires |rideTimes| >= |boarded| && i < |boarded|
    ensures LeaveEvents(boarded, t, rideTimes)[i] == Event(t + rideTimes[i], SkiEvent.LeaveLift(boarded[i]))
  {
    if i < |boarded| - 1 {
      LeaveEventAt(boarded[..|boarded| - 1], t, rideTimes, i);
    }
  }

  /** Each boarded skier has exactly one departure pending, and nothing else is scheduled. */
  lemma {:induction false} LeaveEventsCount(boarded: seq<Skiier>, t: real, rideTimes: seq<real>, k: SkiEvent)
    requires |rideTimes| >= |boarded|
    ensures KindCount(LeaveEvents(boarded, t, rideTimes), k) == if k.LeaveLift? then multiset(boarded)[k.skiier] else 0
  {
    if boarded != [] {
      var front, last := boarded[..|boarded| - 1], boarded[|boarded| - 1];
      assert boarded == front + [last];
      LeaveEventsCount(front, t, rideTimes, k);
      var e := Event(t + rideTimes[|boarded| - 1], SkiEvent.LeaveLift(last));
      KindCountAppend(LeaveEvents(front, t, rideTimes), [e], k);
      assert [e][1..] == [];
    }
  }

  /** A chair lift and its line; the line's last element is the next to board. */
  class Lift {
    const rideTimeMean: real
    const rideTimeStdev: real
    const chairWidth: nat
    const chairPeriod: real
    var queue: seq<Skiier>

    constructor (rideTime: real, rideTimeStdev: real, chairWidth: nat, chairPeriod: real)
      ensures rideTimeMean == rideTime && this.rideTimeStdev == rideTimeStdev
      ensures this.chairWidth == chairWidth && this.chairPeriod == chairPeriod
      ensures queue == []
    {
      rideTimeMean, this.rideTimeStdev := rideTime, rideTimeStdev;
      this.chairWidth, this.chairPeriod := chairWidth, chairPeriod;
      queue := [];
    }

    /**
     * A chair arrives at `t`: the next chair is scheduled one period later,
     * and `min(chairWidth, |queue|)` skiers board, taken from the end of the
     * line, each with its departure after its drawn ride time.
     */
    method DequeueSkiiers(t: real, rideTimes: seq<real>) returns (evs: seq<Event<SkiEvent>>)
      requires |rideTimes| >= chairWidth
      requires forall x <- queue :: x.state == Waiting
      requires forall x <- queue :: multiset(queue)[x] == 1
      modifies this, set x <- queue :: x
      ensures var boarded := PopOrder(old(queue), chairWidth);
        queue == old(queue)[..|old(queue)| - |boarded|]
        && multiset(boarded) + multiset(queue) == multiset(old(queue))
        && evs == [Event(t + chairPeriod, SkiEvent.DequeueSkiiers)] + LeaveEvents(boarded, t, rideTimes)
        && forall x <- old(queue) :: x.state == if x in boarded then RidingLift else Waiting
    {
      evs := [Event(t + chairPeriod, SkiEvent.DequeueSkiiers)];
      ghost var line := queue;
      ghost var boarded: seq<Skiier> := [];
      for i := 0 to chairWidth
        invariant Boarding(line, i, boarded, queue, evs, t, chairPeriod, rideTimes)
        invariant forall x <- line :: x.state == if x in boarded then RidingLift else Waiting
      {
        if |queue| > 0 {
          evs, boarded := Seat(t, rideTimes, i, line, boarded, evs);
        } else {
          assert PopOrder(line, i + 1) == PopOrder(line, i);
        }
      }
    }

    /** Seat `i` of the chair: the skier at the end of the line boards. */
    method Seat(t: real, rideTimes: seq<real>, i: nat, ghost line: seq<Skiier>, ghost boarded: seq<Skiier>,
                evs: seq<Event<SkiEvent>>)
      returns (evs': seq<Event<SkiEvent>>, ghost boarded': seq<Skiier>)
      requires queue != [] && i < |rideTimes| && Boarding(line, i, boarded, queue, evs, t, chairPeriod, rideTimes)
      requires forall x <- line :: x.state == if x in boarded then RidingLift else Waiting
      modifies this, set x <- line :: x
      ensures Boarding(line, i + 1, boarded', queue, evs', t, chairPeriod, rideTimes)
      ensures forall x <- line :: x.state == if x in boarded' then RidingLift else Waiting
    {
      BoardingStep(line, i, boarded, queue, evs, t, chairPeriod, rideTimes);
      var skiier, more := BoardNext(t, rideTimes[i]);
      boarded', evs' := boarded + [skiier], evs + more;
    }

    /** The skier at the end of the line boards a chair. */
    method BoardNext(t: real, rideTime: real) returns (skiier: Skiier, evs: seq<Event<SkiEvent>>)
      requires queue != [] && queue[|queue| - 1].state == Waiting
      modifies this, queue[|queue| - 1]
      ensures skiier == old(queue)[|old(queue)| - 1] && queue == old(queue)[..|old(queue)| - 1]
      ensures skiier.state == RidingLift
      ensures evs == [Event(t + rideTime, SkiEvent.LeaveLift(skiier))]
    {
      skiier := queue[|queue| - 1];
      queue := queue[..|queue| - 1];
      evs := skiier.BoardLift(t, rideTime);
    }
  }

  /**
   * Boarding so far, after `i` seats of a chair that arrived at `t`: the
   * skiers who boarded are the first `i` in boarding order, what is left of
   * the line is its front, and each boarded skier has a departure pending.
   */
  ghost predicate Boarding(line: seq<Skiier>, i: nat, boarded: seq<Skiier>, queue: seq<Skiier>,
                           evs: seq<Event<SkiEvent>>, t: real, period: real, rideTimes: seq<real>)
  {
    boarded == PopOrder(line, i) && |boarded| <= |rideTimes|
    && queue == line[..|line| - |boarded|]
    && multiset(boarded) + multiset(queue) == multiset(line)
    && (forall x <- line :: multiset(line)[x] == 1)
    && evs == [Event(t + period, SkiEvent.DequeueSkiiers)] + LeaveEvents(boarded, t, rideTimes)
  }

  /**
   * While the line is not empty, the next seat boards the skier at the end
   * of what is left of it, who has not boarded yet, with the seat's own
   * ride time.
   */
  lemma BoardingStep(line: seq<Skiier>, i: nat, boarded: seq<Skiier>, queue: seq<Skiier>,
                     evs: seq<Event<SkiEvent>>, t: real, period: real, rideTimes: seq<real>)
    requires Boarding(line, i, boarded, queue, evs, t, period, rideTimes)
    requires queue != [] && i < |rideTimes|
    ensures var skiier := queue[|queue| - 1];
      skiier in line && skiier !in boarded
      && Boarding(line, i + 1, boarded + [skiier], queue[..|queue| - 1],
                  evs + [Event(t + rideTimes[i], SkiEvent.LeaveLift(skiier))], t, period, rideTimes)
  {
    var skiier := queue[|queue| - 1];
    assert skiier == line[|line| - 1 - |boarded|];
    NotYetBoarded(line, queue, boarded, skiier);
    BoardMoves(line, queue, boarded);
    BoardedEvents(boarded, skiier, evs, t, period, rideTimes, i);
  }

  /** A skier still in the line, who occurs once in it, has not boarded. */
  lemma NotYetBoarded(line: seq<Skiier>, queue: seq<Skiier>, boarded: seq<Skiier>, x: Skiier)
    requires multiset(boarded) + multiset(queue) == multiset(line)
    requires x in queue && x in line && multiset(line)[x] == 1
    ensures x !in boarded
  {
    assert x in multiset(queue);
  }

  /** Boarding moves one skier from the end of the line to the boarded ones. */
  lemma BoardMoves(line: seq<Skiier>, queue: seq<Skiier>, boarded: seq<Skiier>)
    requires queue != [] && multiset(boarded) + multiset(queue) == multiset(line)
    requires |boarded| <= |line| && queue == line[..|line| - |boarded|]
    ensures multiset(boarded + [queue[|queue| - 1]]) + multiset(queue[..|queue| - 1]) == multiset(line)
    ensures queue[..|queue| - 1] == line[..|line| - |boarded| - 1]
  {
    assert queue == queue[..|queue| - 1] + [queue[|queue| - 1]];
  }

  /** The new departure goes at the end of the chair's events. */
  lemma BoardedEvents(boarded: seq<Skiier>, skiier: Skiier, evs: seq<Event<SkiEvent>>, t: real, period: real,
                      rideTimes: seq<real>, i: nat)
    requires |boarded| == i < |rideTimes|
    requires evs == [Event(t + period, SkiEvent.DequeueSkiiers)] + LeaveEvents(boarded, t, rideTimes)
    ensures evs + [Event(t + rideTimes[i], SkiEvent.LeaveLift(skiier))]
            == [Event(t + period, SkiEvent.DequeueSkiiers)] + LeaveEvents(boarded + [skiier], t, rideTimes)
  {
    var next := boarded + [skiier];
    assert next[..|boarded|] == boarded;
  }

  /** Number of skiers on the slope. */
  function SkiingCount(skiiers: seq<Skiier>): (n: nat)
    reads set x | x in skiiers
    ensures n <= |skiiers|
    decreases |skiiers|
  {
    if skiiers == [] then 0
    else SkiingCount(skiiers[..|skiiers| - 1]) + (if skiiers[|skiiers| - 1].state == Skiing then 1 else 0)
  }

  /** Periodic samples of the line length and of the fraction of skiers on the slope. */
  class Stats {
    const lift: Lift
    const skiiers: seq<Skiier>
    const name: string
    const calcEvery: real
    var queueLengths: seq<int>
    var skiiersSkiing: seq<real>

    constructor (name: string, lift: Lift, skiiers: seq<Skiier>, calcEvery: real)
      ensures this.name == name && this.lift == lift && this.skiiers == skiiers && this.calcEvery == calcEvery
      ensures queueLengths == [] && skiiersSkiing == []
    {
      this.name, this.lift, this.skiiers, this.calcEvery := name, lift, skiiers, calcEvery;
      queueLengths, skiiersSkiing := [], [];
    }

    /**
     * A sample at `t`: the current line length and the fraction of skiers
     * skiing, which lies between 0 and 1, are recorded, and the next sample
     * is scheduled `calcEvery` later. The fraction divides by the number of
     * skiers, so there must be some.
     */
    method CalcStats(t: real) returns (evs: seq<Event<SkiEvent>>)
      requires |skiiers| > 0
      modifies this
      ensures queueLengths == old(queueLengths) + [|lift.queue|]
      ensures skiiersSkiing == old(skiiersSkiing) + [SkiingCount(skiiers) as real / |skiiers| as real]
      ensures 0.0 <= skiiersSkiing[|skiiersSkiing| - 1] <= 1.0
      ensures evs == [Event(t + calcEvery, SkiEvent.CalcStats)]
    {
      queueLengths := queueLengths + [|lift.queue|];
      var nSkiing := SkiingCount(skiiers);
      var fraction := nSkiing as real / |skiiers| as real;
      FractionBounds(nSkiing, |skiiers|);
      skiiersSkiing := skiiersSkiing + [fraction];
      evs := [Event(t + calcEvery, SkiEvent.CalcStats)];
    }
  }

  lemma FractionBounds(n: nat, d: nat)
    requires n <= d && d > 0
    ensures 0.0 <= n as real / d as real <= 1.0
  {
    assert n as real <= d as real;
    assert n as real / d as real <= d as real / d as real;
  }

  /**
   * The fixed set-up a run relies on: there are skiers (the statistics
   * divide by their number), each belongs to this lift and skis down at a
   * positive speed (the source divides by it) a slope of non-negative
   * length, and the chair period and sampling interval are not negative,
   * so nothing is scheduled in the past.
   */
  predicate Ready(stats: Stats, lift: Lift)
  {
    |stats.skiiers| > 0 && lift.chairPeriod >= 0.0 && stats.calcEvery >= 0.0
    && forall x <- stats.skiiers :: x.lift == lift && x.speed > 0.0 && x.slopeLenM >= 0.0
  }

  /** A draw for one event: the ride times of the seats of a chair, none negative. */
  predicate DrawOk(lift: Lift, rideTimes: seq<real>)
  {
    |rideTimes| >= lift.chairWidth && forall r <- rideTimes :: r >= 0.0
  }

  /**
   * A skier is in exactly the one place its state names: in the line once
   * when waiting, with one departure from the lift pending when riding, and
   * with one arrival at the line pending when skiing.
   */
  ghost predicate PlacedOne(x: Skiier, line: seq<Skiier>, q: seq<Event<SkiEvent>>)
    reads x
  {
    PlacedAs(x.state, x, line, q)
  }

  /** `x`, in state `st`, is in exactly the one place `st` names. */
  ghost predicate PlacedAs(st: SkiierState, x: Skiier, line: seq<Skiier>, q: seq<Event<SkiEvent>>)
  {
    multiset(line)[x] == (if st == Waiting then 1 else 0)
    && KindCount(q, SkiEvent.LeaveLift(x)) == (if st == RidingLift then 1 else 0)
    && KindCount(q, SkiEvent.JoinQueue(x)) == (if st == Skiing then 1 else 0)
  }

  /**
   * Every skier of the crowd is placed as its state says, the line and the
   * pending events name no one else, and the next sample and the next chair
   * are each pending exactly once.
   */
  ghost predicate Placed(lift: Lift, crowd: seq<Skiier>, q: seq<Event<SkiEvent>>)
    reads lift, set x <- crowd :: x
  {
    (forall x <- lift.queue :: x in crowd)
    && (forall e <- q :: (e.kind.LeaveLift? || e.kind.JoinQueue?) ==> e.kind.skiier in crowd)
    && (forall x <- crowd :: PlacedOne(x, lift.queue, q))
    && KindCount(q, SkiEvent.CalcStats) == 1 && KindCount(q, SkiEvent.DequeueSkiiers) == 1
  }

  /** How a loop step changes the number of pending events of each kind. */
  lemma StepCount(q: seq<Event<SkiEvent>>, evs: Option<seq<Event<SkiEvent>>>, k: SkiEvent)
    requires q != []
    ensures KindCount(Extend(PopMin(q).1, evs), k) + (if PopMin(q).0.kind == k then 1 else 0)
            == KindCount(q, k) + (if evs.Some? then KindCount(evs.value, k) else 0)
  {
    KindCountPopMin(q, k);
    if evs.Some? {
      KindCountAppend(PopMin(q).1, evs.value, k);
    }
  }

  /** An event that is pending is counted. */
  lemma Counted(q: seq<Event<SkiEvent>>, e: Event<SkiEvent>)
    requires e in q
    ensures KindCount(q, e.kind) >= 1
  {
    var i :| 0 <= i < |q| && q[i] == e;
    var rest := RemoveAt(q, i);
    KindCountRemoveAt(q, i, e.kind);
  }

  /**
   * What a chair's arrival schedules: the next chair and one departure per
   * boarded skier, none in the past and none naming a skier outside the crowd.
   */
  lemma ChairEvents(line: seq<Skiier>, rest: seq<Skiier>, boarded: seq<Skiier>, t: real, period: real,
                    d: seq<real>, evs: seq<Event<SkiEvent>>, crowd: seq<Skiier>)
    requires |d| >= |boarded| && period >= 0.0 && forall r <- d :: r >= 0.0
    requires evs == [Event(t + period, SkiEvent.DequeueSkiiers)] + LeaveEvents(boarded, t, d)
    requires multiset(boarded) + multiset(rest) == multiset(line)
    requires forall x <- line :: x in crowd
    ensures NoneBefore(evs, t)
    ensures forall e <- evs :: (e.kind.LeaveLift? || e.kind.JoinQueue?) ==> e.kind.skiier in crowd
    ensures forall k :: KindCount(evs, k) == (if k.DequeueSkiiers? then 1 else 0) + KindCount(LeaveEvents(boarded, t, d), k)
  {
    forall k ensures KindCount(evs, k) == (if k.DequeueSkiiers? then 1 else 0) + KindCount(LeaveEvents(boarded, t, d), k) {
      KindCountCons(evs[0], LeaveEvents(boarded, t, d), k);
    }
    forall i | 0 <= i < |evs| ensures t <= evs[i].time && !evs[i].kind.JoinQueue?
                                      && (evs[i].kind.LeaveLift? ==> evs[i].kind.skiier in crowd) {
      if i > 0 {
        LeaveEventAt(boarded, t, d, i - 1);
        assert d[i - 1] in d;
        assert boarded[i - 1] in multiset(line);
      }
    }
  }

  /** A chair arrives: the boarded skiers move from the line to the lift. */
  method StepDequeue(stats: Stats, lift: Lift, q: seq<Event<SkiEvent>>, d: seq<real>)
      returns (evs: seq<Event<SkiEvent>>)
    requires q != [] && PopMin(q).0.kind.DequeueSkiiers?
    requires Ready(stats, lift) && DrawOk(lift, d) && Placed(lift, stats.skiiers, q)
    modifies lift, set x <- stats.skiiers :: x
    ensures NoneBefore(evs, PopMin(q).0.time)
    ensures Placed(lift, stats.skiiers, PopMin(q).1 + evs)
  {
    var t := PopMin(q).0.time;
    ghost var line := lift.queue;
    forall x <- line ensures x.state == Waiting && multiset(line)[x] == 1 {
      assert PlacedOne(x, line, q);
    }
    evs := lift.DequeueSkiiers(t, d);
    ghost var boarded := PopOrder(line, lift.chairWidth);
    ghost var q' := PopMin(q).1 + evs;
    ChairEvents(line, lift.queue, boarded, t, lift.chairPeriod, d, evs, stats.skiiers);
    forall x <- stats.skiiers ensures PlacedOne(x, lift.queue, q') {
      assert PlacedAs(old(x.state), x, line, q) by {
        assert old(PlacedOne(x, lift.queue, q));
      }
      DequeueMoves(x, old(x.state), x.state, line, lift.queue, boarded, q, evs, t, d);
    }
    DequeueKeepsSingletons(q, evs, boarded, t, d);
    NamesCrowd(q, evs, stats.skiiers);
  }

  /** A chair's arrival replaces the one pending chair and leaves the one pending statistics sample alone. */
  lemma DequeueKeepsSingletons(q: seq<Event<SkiEvent>>, evs: seq<Event<SkiEvent>>, boarded: seq<Skiier>, t: real, d: seq<real>)
    requires q != [] && PopMin(q).0.kind.DequeueSkiiers? && |d| >= |boarded|
    requires KindCount(q, SkiEvent.CalcStats) == 1 && KindCount(q, SkiEvent.DequeueSkiiers) == 1
    requires forall k :: KindCount(evs, k) == (if k.DequeueSkiiers? then 1 else 0) + KindCount(LeaveEvents(boarded, t, d), k)
    ensures KindCount(PopMin(q).1 + evs, SkiEvent.CalcStats) == 1
    ensures KindCount(PopMin(q).1 + evs, SkiEvent.DequeueSkiiers) == 1
  {
    StepCount(q, Some(evs), SkiEvent.CalcStats);
    StepCount(q, Some(evs), SkiEvent.DequeueSkiiers);
    LeaveEventsCount(boarded, t, d, SkiEvent.CalcStats);
    LeaveEventsCount(boarded, t, d, SkiEvent.DequeueSkiiers);
  }
  /** A chair's arrival moves exactly the boarded skiers from the line to the lift. */
  lemma DequeueMoves(x: Skiier, was: SkiierState, now: SkiierState, line: seq<Skiier>, rest: seq<Skiier>,
                     boarded: seq<Skiier>, q: seq<Event<SkiEvent>>, evs: seq<Event<SkiEvent>>, t: real, d: seq<real>)
    requires q != [] && PopMin(q).0.kind.DequeueSkiiers? && |d| >= |boarded|
    requires PlacedAs(was, x, line, q)
    requires multiset(boarded) + multiset(rest) == multiset(line)
    requires forall k :: KindCount(evs, k) == (if k.DequeueSkiiers? then 1 else 0) + KindCount(LeaveEvents(boarded, t, d), k)
    requires now == if x in line then (if x in boarded then RidingLift else Waiting) else was
    ensures PlacedAs(now, x, rest, PopMin(q).1 + evs)
  {
    StepCount(q, Some(evs), SkiEvent.LeaveLift(x));
    StepCount(q, Some(evs), SkiEvent.JoinQueue(x));
    LeaveEventsCount(boarded, t, d, SkiEvent.LeaveLift(x));
    LeaveEventsCount(boarded, t, d, SkiEvent.JoinQueue(x));
    assert x in boarded <==> multiset(boarded)[x] > 0;
    assert x in line <==> multiset(line)[x] > 0;
  }

  /** How a step that schedules a single event changes the number of pending events of each kind. */
  lemma StepCountOne(q: seq<Event<SkiEvent>>, ev: Event<SkiEvent>, k: SkiEvent)
    requires q != []
    ensures KindCount(PopMin(q).1 + [ev], k) + (if PopMin(q).0.kind == k then 1 else 0)
            == KindCount(q, k) + (if ev.kind == k then 1 else 0)
  {
    StepCount(q, Some([ev]), k);
    assert [ev][1..] == [];
  }

  /** Nothing the loop can still pop names a skier outside the crowd. */
  lemma NamesCrowd(q: seq<Event<SkiEvent>>, evs: seq<Event<SkiEvent>>, crowd: seq<Skiier>)
    requires q != []
    requires forall e <- q :: (e.kind.LeaveLift? || e.kind.JoinQueue?) ==> e.kind.skiier in crowd
    requires forall e <- evs :: (e.kind.LeaveLift? || e.kind.JoinQueue?) ==> e.kind.skiier in crowd
    ensures forall e <- PopMin(q).1 + evs :: (e.kind.LeaveLift? || e.kind.JoinQueue?) ==> e.kind.skiier in crowd
  {
    forall e <- PopMin(q).1 + evs | e.kind.LeaveLift? || e.kind.JoinQueue? ensures e.kind.skiier in crowd {
      if e in PopMin(q).1 {
        assert e in multiset(PopMin(q).1);
        assert e in multiset(q);
      }
    }
  }

  /** A sample: no skier moves, and the next sample is scheduled. */
  method StepCalc(stats: Stats, lift: Lift, q: seq<Event<SkiEvent>>) returns (evs: seq<Event<SkiEvent>>)
    requires q != [] && PopMin(q).0.kind.CalcStats?
    requires Ready(stats, lift) && Placed(lift, stats.skiiers, q)
    modifies stats
    ensures NoneBefore(evs, PopMin(q).0.time)
    ensures Placed(lift, stats.skiiers, PopMin(q).1 + evs)
  {
    evs := stats.CalcStats(PopMin(q).0.time);
    StepCountOne(q, evs[0], SkiEvent.CalcStats);
    StepCountOne(q, evs[0], SkiEvent.DequeueSkiiers);
    NamesCrowd(q, evs, stats.skiiers);
    forall x <- stats.skiiers ensures PlacedOne(x, lift.queue, PopMin(q).1 + evs) {
      assert old(PlacedOne(x, lift.queue, q));
      StepCountOne(q, evs[0], SkiEvent.LeaveLift(x));
      StepCountOne(q, evs[0], SkiEvent.JoinQueue(x));
    }
  }

  /** A skier leaves the lift: from riding to skiing, with the arrival at the line scheduled. */
  method StepLeave(stats: Stats, lift: Lift, q: seq<Event<SkiEvent>>) returns (evs: seq<Event<SkiEvent>>)
    requires q != [] && PopMin(q).0.kind.LeaveLift?
    requires Ready(stats, lift) && Placed(lift, stats.skiiers, q)
    modifies set x <- stats.skiiers :: x
    ensures NoneBefore(evs, PopMin(q).0.time)
    ensures Placed(lift, stats.skiiers, PopMin(q).1 + evs)
  {
    var e := PopMin(q).0;
    var skiier := e.kind.skiier;
    Counted(q, e);
    assert PlacedOne(skiier, lift.queue, q);
    evs := skiier.LeaveLift(e.time);
    assert skiier.slopeLenM / skiier.speed >= 0.0;
    StepCountOne(q, evs[0], SkiEvent.CalcStats);
    StepCountOne(q, evs[0], SkiEvent.DequeueSkiiers);
    NamesCrowd(q, evs, stats.skiiers);
    forall x <- stats.skiiers ensures PlacedOne(x, lift.queue, PopMin(q).1 + evs) {
      assert old(PlacedOne(x, lift.queue, q));
      StepCountOne(q, evs[0], SkiEvent.LeaveLift(x));
      StepCountOne(q, evs[0], SkiEvent.JoinQueue(x));
    }
  }

  /** A skier reaches the line: from skiing to waiting at its back, with nothing scheduled. */
  method StepJoin(stats: Stats, lift: Lift, q: seq<Event<SkiEvent>>) returns (evs: Option<seq<Event<SkiEvent>>>)
    requires q != [] && PopMin(q).0.kind.JoinQueue?
    requires Ready(stats, lift) && Placed(lift, stats.skiiers, q)
    modifies lift, set x <- stats.skiiers :: x
    ensures evs == None
    ensures Placed(lift, stats.skiiers, PopMin(q).1)
  {
    var e := PopMin(q).0;
    var skiier := e.kind.skiier;
    Counted(q, e);
    assert PlacedOne(skiier, lift.queue, q);
    evs := skiier.JoinQueue(e.time);
    KindCountPopMin(q, SkiEvent.CalcStats);
    KindCountPopMin(q, SkiEvent.DequeueSkiiers);
    NamesCrowd(q, [], stats.skiiers);
    assert PopMin(q).1 + [] == PopMin(q).1;
    forall x <- stats.skiiers ensures PlacedOne(x, lift.queue, PopMin(q).1) {
      assert old(PlacedOne(x, lift.queue, q));
      KindCountPopMin(q, SkiEvent.LeaveLift(x));
      KindCountPopMin(q, SkiEvent.JoinQueue(x));
    }
  }

  /**
   * One loop step: the earliest event is removed and its handler runs; the
   * crowd stays placed, so every handler finds its skier in the state it
   * asserts.
   */
  method Step(stats: Stats, lift: Lift, q: seq<Event<SkiEvent>>, d: seq<real>, ghost clock: real)
      returns (e: Event<SkiEvent>, q': seq<Event<SkiEvent>>)
    requires q != [] && NoneBefore(q, clock)
    requires Ready(stats, lift) && DrawOk(lift, d) && Placed(lift, stats.skiiers, q)
    modifies lift, stats, set x <- stats.skiiers :: x
    ensures e == PopMin(q).0 && clock <= e.time && NoneBefore(q', e.time)
    ensures Placed(lift, stats.skiiers, q')
  {
    e := PopMin(q).0;
    var evs: Option<seq<Event<SkiEvent>>>;
    match e.kind {
      case CalcStats =>
        var r := StepCalc(stats, lift, q);
        evs := Some(r);
      case DequeueSkiiers =>
        var r := StepDequeue(stats, lift, q, d);
        evs := Some(r);
      case LeaveLift(_) =>
        var r := StepLeave(stats, lift, q);
        evs := Some(r);
      case JoinQueue(_) =>
        evs := StepJoin(stats, lift, q);
    }
    DispatchKeepsClock(q, clock, evs);
    q' := Extend(PopMin(q).1, evs);
  }

  /** At the start, with every skier waiting once in the line, the crowd is placed. */
  lemma StartPlaced(lift: Lift, crowd: seq<Skiier>, firstChair: real)
    requires forall x <- lift.queue :: x in crowd
    requires forall x <- crowd :: x.state == Waiting && multiset(lift.queue)[x] == 1
    ensures Placed(lift, crowd, [Event(0.0, SkiEvent.CalcStats), Event(firstChair, SkiEvent.DequeueSkiiers)])
  {
    var q := [Event(0.0, SkiEvent.CalcStats), Event(firstChair, SkiEvent.DequeueSkiiers)];
    forall k ensures KindCount(q, k) == (if k.CalcStats? || k.DequeueSkiiers? then 1 else 0) {
      KindCountCons(q[0], q[1..], k);
      KindCountCons(q[1], [], k);
      assert q[1..] == [q[1]] + [];
    }
  }

  /**
   * The simulation loop: the first sample at time 0 and the first chair at
   * a drawn instant in [0, 1), then events in time order while the
   * previously dispatched time is below `maxT` (and draws last). With every
   * skier starting in the line, every skier stays in exactly the place its
   * state names throughout, so no handler's state assertion can fail.
   */
  method SimLoop(maxT: real, stats: Stats, lift: Lift, firstChair: real, draws: seq<seq<real>>)
      returns (trace: seq<real>, q: seq<Event<SkiEvent>>)
    requires Ready(stats, lift) && 0.0 <= firstChair < 1.0
    requires forall d <- draws :: DrawOk(lift, d)
    requires forall x <- lift.queue :: x in stats.skiiers
    requires forall x <- stats.skiiers :: x.state == Waiting && multiset(lift.queue)[x] == 1
    modifies lift, stats, set x <- stats.skiiers :: x
    ensures Sorted(trace) && WithinHorizon(trace, maxT)
    ensures |trace| <= |draws|
    ensures q == [] || |trace| == |draws| || Clock(trace) >= maxT
    ensures Placed(lift, stats.skiiers, q)
  {
    q := [Event(0.0, SkiEvent.CalcStats), Event(firstChair, SkiEvent.DequeueSkiiers)];
    trace := [];
    var t := 0.0;
    StartPlaced(lift, stats.skiiers, firstChair);
    while q != [] && t < maxT && |trace| < |draws|
      invariant t == Clock(trace)
      invariant Sorted(trace) && WithinHorizon(trace, maxT) && NoneBefore(q, t)
      invariant |trace| <= |draws|
      invariant Placed(lift, stats.skiiers, q)
      decreases |draws| - |trace|
    {
      var e, q' := Step(stats, lift, q, draws[|trace|], t);
      TraceStaysSorted(trace, e.time);
      trace, q, t := trace + [e.time], q', e.time;
    }
  }
}
