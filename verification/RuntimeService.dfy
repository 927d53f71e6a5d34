/** What the answers of recv, of the handler and of shouldConnect decide, over whole runs: when a
    connection ends, when it goes on, and whom the listener takes in. */
module RuntimeService {
  import opened Status
  import opened Runtime
  import opened RuntimeInvariant
  import opened RuntimeGuarantees
  import opened RuntimeWindows

  // ---- a connection that ends ----

  /** The worker is on its way out and delivers nothing any more. */
  predicate Departing(c: Conn) {
    (c.place == TestS && c.s == 0) || c.place == Exit || c.place == Release
  }

  /** How many steps of its own are left to it. */
  function StepsLeft(c: Conns, id: nat): nat {
    if id !in c.active then 0
    else match c.active[id].place
      case TestS => 3
      case Exit => 2
      case _ => 1
  }

  ghost predicate Ending(s: State, id: nat) {
    && Ok(s) && id !in s.conns.queued && id < s.conns.nextId
    && (id in s.conns.active ==> Departing(s.conns.active[id]))
    && (id !in s.conns.active ==> id in s.conns.leaving || id in s.conns.finished)
  }

  lemma DepartingStep(c: Conn, server: Status, received: int, handled: nat)
    requires Departing(c) && c.place != Release
    ensures var d := WorkerStep(c, server, received, handled);
            && Departing(d) && (c.place == TestS ==> d.place == Exit) && (c.place == Exit ==> d.place == Release)
            && c.place != Deliver && c.place != DeliverLate
  {
  }

  lemma OwnStepMoves(s: State, e: Event, id: nat)
    requires Enabled(s, e) && e.Work? && e.id == id
    ensures s.conns.active[id].place == Release ==> id !in NextConns(s, e).active && id in NextConns(s, e).leaving
    ensures s.conns.active[id].place != Release ==>
              id in NextConns(s, e).active
              && NextConns(s, e).active[id]
              == WorkerStep(s.conns.active[id], s.server.status, e.received, e.handled)
  {
    hide WorkerStep;
  }

  lemma OthersMove(s: State, e: Event, id: nat)
    requires PhasesOk(s.conns) && Enabled(s, e) && !(e.Work? && e.id == id) && id !in s.conns.queued
    requires id < s.conns.nextId
    ensures id in NextConns(s, e).active <==> id in s.conns.active
    ensures id in s.conns.active ==>
              && NextConns(s, e).active[id].place == s.conns.active[id].place
              && NextConns(s, e).active[id].s == s.conns.active[id].s
    ensures id in s.conns.leaving || id in s.conns.finished ==>
              id in NextConns(s, e).leaving || id in NextConns(s, e).finished
  {
    hide WorkerStep;
  }

  lemma EndingTellsNothing(s: State, e: Event, id: nat)
    requires Ending(s, id) && Enabled(s, e) && e.Work? && e.id == id
    ensures Delivered(Next(s, e), id) == Delivered(s, id)
  {
    OwnStepTrace(s, id, e.received, e.handled);
    SaysDelivers(s.conns.active[id]);
    hide NextServer, NextFront, CountOf, WorkerStep, Says, SlotsOk, TracesOk, ResumesOk, ListenerOk, PhasesOk;
  }

  lemma EndingOwn(s: State, e: Event, id: nat)
    requires Ending(s, id) && Enabled(s, e) && e.Work? && e.id == id
    ensures id !in NextConns(s, e).queued && id < NextConns(s, e).nextId
    ensures id in NextConns(s, e).active ==> Departing(NextConns(s, e).active[id])
    ensures id !in NextConns(s, e).active ==> id in NextConns(s, e).leaving
    ensures StepsLeft(NextConns(s, e), id) + 1 == StepsLeft(s.conns, id)
  {
    HoldQueued(s, e, id);
    OwnStepMoves(s, e, id);
    var c := s.conns.active[id];
    if c.place != Release { DepartingStep(c, s.server.status, e.received, e.handled); }
    hide NextConns, WorkerStep, SlotsOk, TracesOk, ResumesOk, ListenerOk, PhasesOk;
  }

  lemma OthersTellNothing(s: State, e: Event, id: nat)
    requires Ending(s, id) && Enabled(s, e) && !(e.Work? && e.id == id)
    ensures Delivered(Next(s, e), id) == Delivered(s, id)
  {
    OthersKeepTrace(s, e, id);
    hide NextConns, NextServer, NextFront, CountOf, TraceOf, SlotsOk, TracesOk, ResumesOk, ListenerOk, PhasesOk;
  }

  lemma DepartingSame(c: Conn, d: Conn)
    requires c.place == d.place && c.s == d.s
    ensures Departing(c) == Departing(d)
  {
  }

  lemma EndingOthers(s: State, e: Event, id: nat)
    requires Ending(s, id) && Enabled(s, e) && !(e.Work? && e.id == id)
    ensures id !in NextConns(s, e).queued && id < NextConns(s, e).nextId
    ensures id in NextConns(s, e).active ==> Departing(NextConns(s, e).active[id])
    ensures id !in NextConns(s, e).active ==> id in NextConns(s, e).leaving || id in NextConns(s, e).finished
    ensures StepsLeft(NextConns(s, e), id) == StepsLeft(s.conns, id)
  {
    HoldQueued(s, e, id);
    OthersMove(s, e, id);
    if id in s.conns.active { DepartingSame(s.conns.active[id], NextConns(s, e).active[id]); }
    hide NextConns, Enabled, Departing, SlotsOk, TracesOk, ResumesOk, ListenerOk, PhasesOk;
  }

  lemma EndingStep(s: State, e: Event, id: nat)
    requires Ending(s, id) && Enabled(s, e)
    ensures Ending(Next(s, e), id) && Delivered(Next(s, e), id) == Delivered(s, id)
    ensures StepsLeft(NextConns(s, e), id) + (if e.Work? && e.id == id then 1 else 0) == StepsLeft(s.conns, id)
  {
    StepOk(s, e);
    if e.Work? && e.id == id {
      EndingOwn(s, e, id);
      EndingTellsNothing(s, e, id);
    } else {
      EndingOthers(s, e, id);
      OthersTellNothing(s, e, id);
    }
    hide NextConns, NextServer, NextFront, Delivered, StepsLeft, Departing, Ok;
  }

  lemma TellsTheEnd(s: State, id: nat)
    requires TracesOk(s.conns) && PhasesOk(s.conns) && id !in s.conns.active
    requires id in s.conns.leaving || id in s.conns.finished
    ensures TraceOf(s.conns, id) != []
    ensures TraceOf(s.conns, id)[|TraceOf(s.conns, id)| - 1] == DidDisconnect
  {
    var trace := TraceOf(s.conns, id);
    assert HearAll(trace) == Closed;
    assert trace != [];
    hide HearAll;
    HearLast(trace);
    ClosedFrom(HearAll(trace[..|trace| - 1]), trace[|trace| - 1]);
  }

  /** In every run from there: nothing is delivered, at most three steps are left to the worker, and
      after them the connection is closed and was told so last. */
  lemma {:induction false} Ends(s: State, es: seq<Event>, id: nat)
    requires Ending(s, id) && Possible(s, es)
    ensures Delivered(After(s, es), id) == Delivered(s, id)
    ensures OwnSteps(es, id) + StepsLeft(After(s, es).conns, id) == StepsLeft(s.conns, id)
    ensures StepsLeft(After(s, es).conns, id) == 0 <==> id !in After(s, es).conns.active
    ensures id !in After(s, es).conns.active ==>
              var trace := TraceOf(After(s, es).conns, id);
              trace != [] && trace[|trace| - 1] == DidDisconnect
    decreases |es|
  {
    if es == [] {
      EndingSays(s, id);
    } else {
      EndingStep(s, es[0], id);
      hide Ending, Delivered, TraceOf, NextConns, NextServer, NextFront, Enabled, StepsLeft;
      Ends(Next(s, es[0]), es[1..], id);
    }
  }

  lemma EndingSays(s: State, id: nat)
    requires Ending(s, id)
    ensures id !in s.conns.active ==>
              TraceOf(s.conns, id) != [] && TraceOf(s.conns, id)[|TraceOf(s.conns, id)| - 1] == DidDisconnect
    ensures StepsLeft(s.conns, id) <= 3 && (StepsLeft(s.conns, id) == 0 <==> id !in s.conns.active)
  {
    hide SlotsOk, ResumesOk, ListenerOk;
    if id !in s.conns.active { TellsTheEnd(s, id); }
  }

  // ---- what the handler answers ----

  lemma DeliveryPlace(s: State, id: nat, received: int, handled: nat)
    requires Ok(s) && Enabled(s, Work(id, received, handled))
    requires Delivered(Next(s, Work(id, received, handled)), id) > Delivered(s, id)
    ensures s.conns.active[id].place == Deliver || s.conns.active[id].place == DeliverLate
  {
    OwnStepTrace(s, id, received, handled);
    SaysDelivers(s.conns.active[id]);
    hide NextConns, NextServer, NextFront, CountOf, Says, WorkerStep, SlotsOk, TracesOk, ResumesOk, ListenerOk;
  }

  lemma AfterDeliver(c: Conn, server: Status, received: int, handled: nat)
    requires c.place == Deliver || c.place == DeliverLate
    ensures var d := WorkerStep(c, server, received, handled);
            d.place == TestS && d.s == handled && d.status == c.status && d.trace == c.trace + [Data]
  {
  }

  lemma DeliverySite(s: State, id: nat, received: int, handled: nat)
    requires Ok(s) && Enabled(s, Work(id, received, handled))
    requires Delivered(Next(s, Work(id, received, handled)), id) > Delivered(s, id)
    ensures var t := Next(s, Work(id, received, handled));
            && id in t.conns.active && t.conns.active[id].place == TestS && t.conns.active[id].s == handled
            && id !in t.conns.queued && id < t.conns.nextId
            && t.conns.active[id].status == s.conns.active[id].status
  {
    var c, e := s.conns.active[id], Work(id, received, handled);
    DeliveryPlace(s, id, received, handled);
    OwnStepMoves(s, e, id);
    AfterDeliver(c, s.server.status, received, handled);
    HoldQueued(s, e, id);
    hide NextConns, NextServer, NextFront, Delivered, WorkerStep, SlotsOk, TracesOk, ResumesOk, ListenerOk;
  }

  /** A handler that answers 0 ends its connection: nothing is delivered any more, and three steps of
      the worker later the connection is closed. */
  lemma ZeroEndsConnection(s: State, id: nat, received: int, es: seq<Event>)
    requires Reachable(s) && Enabled(s, Work(id, received, 0))
    requires Delivered(Next(s, Work(id, received, 0)), id) > Delivered(s, id)
    requires Possible(Next(s, Work(id, received, 0)), es)
    ensures Delivered(After(Next(s, Work(id, received, 0)), es), id) == Delivered(s, id) + 1
    ensures OwnSteps(es, id) <= 3
    ensures id in After(Next(s, Work(id, received, 0)), es).conns.active <==> OwnSteps(es, id) < 3
    ensures OwnSteps(es, id) == 3 ==>
              var trace := TraceOf(After(Next(s, Work(id, received, 0)), es).conns, id);
              trace != [] && trace[|trace| - 1] == DidDisconnect
  {
    var t := Next(s, Work(id, received, 0));
    ReachableOk(s);
    DeliverySite(s, id, received, 0);
    StepOk(s, Work(id, received, 0));
    OneMoreDelivered(s, id, received, 0);
    assert Ending(t, id);
    assert StepsLeft(t.conns, id) == 3;
    hide Ok, Delivered, TraceOf, Ending, Enabled, Next, Reachable;
    Ends(t, es, id);
  }

  lemma OneMoreDelivered(s: State, id: nat, received: int, handled: nat)
    requires Ok(s) && Enabled(s, Work(id, received, handled))
    ensures Delivered(Next(s, Work(id, received, handled)), id) <= Delivered(s, id) + 1
  {
    OwnStepTrace(s, id, received, handled);
    SaysDelivers(s.conns.active[id]);
    hide CountOf, Says, WorkerStep, SlotsOk, TracesOk, ResumesOk, ListenerOk;
  }

  // ---- up to the next step of the worker ----

  /** The connection as seen in a state that comes before the worker's next step. */
  ghost predicate Awaits(s: State, id: nat, c: Conn) {
    && Ok(s) && id in s.conns.active
    && s.conns.active[id].place == c.place && s.conns.active[id].s == c.s
    && s.conns.active[id].suspended == c.suspended && s.conns.active[id].trace == c.trace
  }

  lemma AwaitsOn(s: State, e: Event, id: nat, c: Conn)
    requires Awaits(s, id, c) && Enabled(s, e) && !(e.Work? && e.id == id)
    ensures Awaits(Next(s, e), id, c)
  {
    StepOk(s, e);
    OthersKeepTrace(s, e, id);
    hide NextConns, NextServer, NextFront, SlotsOk, TracesOk, ResumesOk, ListenerOk, PhasesOk;
  }

  /** A run with one step of the worker: the state in which it comes, and the connection after it. */
  lemma {:induction false} OneOwnStep(s: State, es: seq<Event>, id: nat, c: Conn)
    returns (server: Status, status: Status, e: Event)
    requires Awaits(s, id, c) && c.place != Release && Possible(s, es) && OwnSteps(es, id) == 1
    ensures e.Work? && e.id == id && e in es
    ensures var d := WorkerStep(c.(status := status), server, e.received, e.handled);
            Awaits(After(s, es), id, d)
    decreases |es|
  {
    hide Awaits, WorkerStep, NextConns, NextServer, NextFront, Enabled;
    if es[0].Work? && es[0].id == id {
      e, server, status := es[0], s.server.status, StatusOf(s, id, c);
      OwnStepAwaits(s, e, id, c);
      NoOwnStep(Next(s, e), es[1..], id, WorkerStep(c.(status := status), server, e.received, e.handled));
    } else {
      AwaitsOn(s, es[0], id, c);
      server, status, e := OneOwnStep(Next(s, es[0]), es[1..], id, c);
    }
  }

  ghost function StatusOf(s: State, id: nat, c: Conn): Status
    requires Awaits(s, id, c)
  {
    s.conns.active[id].status
  }

  lemma OwnStepAwaits(s: State, e: Event, id: nat, c: Conn)
    requires Awaits(s, id, c) && Enabled(s, e) && e.Work? && e.id == id && c.place != Release
    ensures Awaits(Next(s, e), id, WorkerStep(c.(status := StatusOf(s, id, c)), s.server.status, e.received, e.handled))
  {
    StepOk(s, e);
    OwnStepMoves(s, e, id);
    SameStep(s.conns.active[id], c, s.server.status, e.received, e.handled);
    hide NextConns, NextServer, NextFront, SlotsOk, TracesOk, ResumesOk, ListenerOk, PhasesOk, WorkerStep;
  }

  /** The number of resumes has no part in a step. */
  lemma ResumesApart(c: Conn, n: nat, server: Status, received: int, handled: nat)
    requires c.place != Release
    ensures WorkerStep(c.(resumes := n), server, received, handled)
         == WorkerStep(c, server, received, handled).(resumes := n)
  {
    match c.place
    case Switch =>
    case CheckAgain =>
    case NoteSuspend =>
    case _ =>
  }

  lemma SameStep(c: Conn, d: Conn, server: Status, received: int, handled: nat)
    requires c.place == d.place != Release && c.s == d.s && c.suspended == d.suspended && c.trace == d.trace
    ensures var x, y := WorkerStep(c, server, received, handled),
                        WorkerStep(d.(status := c.status), server, received, handled);
            x.place == y.place && x.s == y.s && x.suspended == y.suspended && x.trace == y.trace
  {
    hide WorkerStep;
    ResumesApart(c, d.resumes, server, received, handled);
    assert c.(resumes := d.resumes) == d.(status := c.status);
  }

  lemma {:induction false} NoOwnStep(s: State, es: seq<Event>, id: nat, c: Conn)
    requires Awaits(s, id, c) && Possible(s, es) && OwnSteps(es, id) == 0
    ensures Awaits(After(s, es), id, c)
    decreases |es|
  {
    hide Awaits, NextConns, NextServer, NextFront, Enabled;
    if es != [] {
      AwaitsOn(s, es[0], id, c);
      NoOwnStep(Next(s, es[0]), es[1..], id, c);
    }
  }

  lemma Moved(s: State, id: nat, received: int, handled: nat)
    requires Reachable(s) && Enabled(s, Work(id, received, handled)) && s.conns.active[id].place != Release
    ensures var d := WorkerStep(s.conns.active[id], s.server.status, received, handled);
            Awaits(Next(s, Work(id, received, handled)), id, d)
            && Next(s, Work(id, received, handled)).conns.active[id] == d
  {
    ReachableOk(s);
    StepOk(s, Work(id, received, handled));
    OwnStepMoves(s, Work(id, received, handled), id);
    hide Ok, NextConns, NextServer, NextFront, WorkerStep, Reachable;
  }

  lemma AfterTest(c: Conn, server: Status, received: int, handled: nat)
    requires c.place == TestS
    ensures var d := WorkerStep(c, server, received, handled);
            d.trace == c.trace && d.place == if c.s > 0 then Top else Exit
  {
  }

  lemma AfterPayload(c: Conn, server: Status, received: int, handled: nat)
    requires c.place == Receive && received >= 0
    ensures WorkerStep(c, server, received, handled) == c.(place := Deliver)
  {
  }

  lemma AfterFailure(c: Conn, server: Status, received: int, handled: nat)
    requires (c.place == Receive && received == -1)
          || (c.place == ReceiveQuiet && (received == -1 || received == 0))
    ensures WorkerStep(c, server, received, handled) == c.(place := Exit)
  {
  }

  lemma AfterResumed(c: Conn, server: Status, received: int, handled: nat)
    requires c.place == ResumeNow
    ensures WorkerStep(c, server, received, handled) == c.(status := Running, place := AckResume)
  {
  }

  lemma AfterAcknowledged(c: Conn, server: Status, received: int, handled: nat)
    requires c.place == AckResume
    ensures WorkerStep(c, server, received, handled).trace == c.trace + [DidResume]
    ensures WorkerStep(c, server, received, handled).place == TestS
  {
  }

  lemma AfterKilled(c: Conn, server: Status, received: int, handled: nat)
    requires c.place == Switch && c.status in {Idle, ShouldTerminate}
    ensures WorkerStep(c, server, received, handled) == c.(place := AnnounceKill)
  {
  }

  lemma AfterAnnounced(c: Conn, server: Status, received: int, handled: nat)
    requires c.place == AnnounceKill
    ensures var d := WorkerStep(c, server, received, handled);
            d.place == Exit && d.trace == c.trace + [WillKill]
  {
  }

  lemma AfterDelivery(s: State, id: nat, received: int, handled: nat)
    requires Reachable(s) && Enabled(s, Work(id, received, handled))
    requires Delivered(Next(s, Work(id, received, handled)), id) > Delivered(s, id)
    ensures var t := Next(s, Work(id, received, handled));
            && id in t.conns.active && Awaits(t, id, t.conns.active[id])
            && t.conns.active[id].place == TestS && t.conns.active[id].s == handled
            && Delivered(t, id) == CountOf(t.conns.active[id].trace, Data) == Delivered(s, id) + 1
  {
    ReachableOk(s);
    DeliverySite(s, id, received, handled);
    StepOk(s, Work(id, received, handled));
    OneMoreDelivered(s, id, received, handled);
    hide Ok, CountOf, NextConns, NextServer, NextFront, Reachable;
  }

  lemma AwaitsDelivered(s: State, id: nat, c: Conn)
    requires Awaits(s, id, c)
    ensures id in s.conns.active && s.conns.active[id].place == c.place && s.conns.active[id].trace == c.trace
    ensures Delivered(s, id) == CountOf(c.trace, Data)
    ensures c.place == Exit ==> Ending(s, id) && StepsLeft(s.conns, id) == 2
  {
    hide CountOf, SlotsOk, TracesOk, ResumesOk, ListenerOk;
  }

  /** A handler that answers more than 0 keeps its connection: whatever the others do meanwhile, the
      worker's next step takes it back to the top of its loop. */
  lemma PositiveGoesOn(s: State, id: nat, received: int, handled: nat, es: seq<Event>)
    requires Reachable(s) && Enabled(s, Work(id, received, handled)) && handled > 0
    requires Delivered(Next(s, Work(id, received, handled)), id) > Delivered(s, id)
    requires Possible(Next(s, Work(id, received, handled)), es) && OwnSteps(es, id) == 1
    ensures id in After(Next(s, Work(id, received, handled)), es).conns.active
    ensures After(Next(s, Work(id, received, handled)), es).conns.active[id].place == Top
    ensures Delivered(After(Next(s, Work(id, received, handled)), es), id) == Delivered(s, id) + 1
  {
    hide *;
    var t := Next(s, Work(id, received, handled));
    AfterDelivery(s, id, received, handled);
    var c := t.conns.active[id];
    var server, status, e := OneOwnStep(t, es, id, c);
    AfterTest(c.(status := status), server, e.received, e.handled);
    AwaitsDelivered(After(t, es), id, WorkerStep(c.(status := status), server, e.received, e.handled));
  }

  /** Whatever recv brings on the running branch, an empty payload included, is delivered once, by the
      worker's next step. */
  lemma PayloadIsDelivered(s: State, id: nat, received: int, handled: nat, es: seq<Event>)
    requires Reachable(s) && Enabled(s, Work(id, received, handled))
    requires s.conns.active[id].place == Receive && received >= 0
    requires Possible(Next(s, Work(id, received, handled)), es) && OwnSteps(es, id) == 1
    ensures Delivered(After(Next(s, Work(id, received, handled)), es), id) == Delivered(s, id) + 1
  {
    var c := s.conns.active[id];
    assert Delivered(s, id) == CountOf(c.trace, Data) && Enabled(s, Work(id, received, handled));
    hide *;
    CountMore(c.trace, Data, Data);
    AfterPayload(c, s.server.status, received, handled);
    Moved(s, id, received, handled);
    var t, k := Next(s, Work(id, received, handled)), c.(place := Deliver);
    var server, status, e := OneOwnStep(t, es, id, k);
    AfterDeliver(k.(status := status), server, e.received, e.handled);
    AwaitsDelivered(After(t, es), id, WorkerStep(k.(status := status), server, e.received, e.handled));
  }

  /** A recv that fails ends the connection without a delivery, and under suspension one that brings
      nothing does too. */
  lemma FailedRecvEnds(s: State, id: nat, received: int, handled: nat, es: seq<Event>)
    requires Reachable(s) && Enabled(s, Work(id, received, handled))
    requires (s.conns.active[id].place == Receive && received == -1)
          || (s.conns.active[id].place == ReceiveQuiet && (received == -1 || received == 0))
    requires Possible(Next(s, Work(id, received, handled)), es)
    ensures Delivered(After(Next(s, Work(id, received, handled)), es), id) == Delivered(s, id)
    ensures OwnSteps(es, id) <= 2
    ensures id in After(Next(s, Work(id, received, handled)), es).conns.active <==> OwnSteps(es, id) < 2
  {
    var c := s.conns.active[id];
    assert Delivered(s, id) == CountOf(c.trace, Data) && Enabled(s, Work(id, received, handled));
    hide *;
    AfterFailure(c, s.server.status, received, handled);
    Moved(s, id, received, handled);
    var t := Next(s, Work(id, received, handled));
    AwaitsDelivered(t, id, c.(place := Exit));
    Ends(t, es, id);
  }

  /** A worker that finds a terminating or idle status announces the kill with its next step, and
      delivers nothing any more. */
  lemma KillIsAnnounced(s: State, id: nat, received: int, handled: nat, es: seq<Event>)
    requires Reachable(s) && Enabled(s, Work(id, received, handled)) && s.conns.active[id].place == Switch
    requires s.conns.active[id].status == ShouldTerminate || s.conns.active[id].status == Idle
    requires Possible(Next(s, Work(id, received, handled)), es) && OwnSteps(es, id) == 1
    ensures var u := After(Next(s, Work(id, received, handled)), es);
            && id in u.conns.active && u.conns.active[id].trace == s.conns.active[id].trace + [WillKill]
            && u.conns.active[id].place == Exit
  {
    var c := s.conns.active[id];
    assert Enabled(s, Work(id, received, handled));
    hide *;
    AfterKilled(c, s.server.status, received, handled);
    Moved(s, id, received, handled);
    var t, k := Next(s, Work(id, received, handled)), c.(place := AnnounceKill);
    var server, status, e := OneOwnStep(t, es, id, k);
    AfterAnnounced(k.(status := status), server, e.received, e.handled);
    AwaitsDelivered(After(t, es), id, WorkerStep(k.(status := status), server, e.received, e.handled));
  }

  /** A resumed connection runs again and is told so with the worker's step after next. */
  lemma ResumeIsAcknowledged(s: State, id: nat, received: int, handled: nat, es: seq<Event>)
    requires Reachable(s) && Enabled(s, Work(id, received, handled))
    requires s.conns.active[id].place == ResumeNow
    requires Possible(Next(s, Work(id, received, handled)), es) && OwnSteps(es, id) == 1
    ensures Next(s, Work(id, received, handled)).conns.active[id].status == Running
    ensures var u := After(Next(s, Work(id, received, handled)), es);
            id in u.conns.active && u.conns.active[id].trace == s.conns.active[id].trace + [DidResume]
  {
    var c := s.conns.active[id];
    assert Enabled(s, Work(id, received, handled));
    hide *;
    AfterResumed(c, s.server.status, received, handled);
    Moved(s, id, received, handled);
    var t, k := Next(s, Work(id, received, handled)), c.(status := Running, place := AckResume);
    var server, status, e := OneOwnStep(t, es, id, k);
    AfterAcknowledged(k.(status := status), server, e.received, e.handled);
    AwaitsDelivered(After(t, es), id, WorkerStep(k.(status := status), server, e.received, e.handled));
  }

  // ---- whom the listener takes in ----

  /** While the server is suspended, at most one connection is dispatched and at most one slot taken,
      and only by a listener that had passed the test for suspension before. */
  lemma {:induction false} SuspendedTakesNobody(s: State, es: seq<Event>)
    requires Possible(s, es) && Throughout(s, es, {Suspend})
    ensures After(s, es).conns.nextId
         <= s.conns.nextId
            + if s.front.listener in {CheckRoom, TakeSlot, Accepting, Deciding, Dispatching} then 1 else 0
    ensures After(s, es).front.count
         <= s.front.count + if s.front.listener in {CheckRoom, TakeSlot} then 1 else 0
    decreases |es|
  {
    if es != [] {
      SuspendedStep(s, es[0]);
      hide NextConns, NextFront, NextServer, Enabled;
      SuspendedTakesNobody(Next(s, es[0]), es[1..]);
    }
  }

  lemma SuspendedStep(s: State, e: Event)
    requires Enabled(s, e) && s.server.status == Suspend && NextServer(s, e).status == Suspend
    ensures NextConns(s, e).nextId
            + (if NextFront(s, e).listener in {CheckRoom, TakeSlot, Accepting, Deciding, Dispatching} then 1 else 0)
         <= s.conns.nextId
            + if s.front.listener in {CheckRoom, TakeSlot, Accepting, Deciding, Dispatching} then 1 else 0
    ensures NextFront(s, e).count + (if NextFront(s, e).listener in {CheckRoom, TakeSlot} then 1 else 0)
         <= s.front.count + if s.front.listener in {CheckRoom, TakeSlot} then 1 else 0
  {
    hide WorkerStep;
  }

  /** Connections that shouldConnect allowed, and that it refused, and accepts that failed. */
  function Count(s: State, es: seq<Event>, place: Listener, e: Event): nat
    requires Possible(s, es)
    decreases |es|
  {
    if es == [] then 0
    else (if s.front.listener == place && es[0] == e then 1 else 0) + Count(Next(s, es[0]), es[1..], place, e)
  }

  function AtDispatch(s: State): nat {
    if s.front.listener == Dispatching then 1 else 0
  }

  lemma AllowedStep(s: State, e: Event)
    requires Enabled(s, e)
    ensures NextConns(s, e).nextId + AtDispatch(Next(s, e))
         == s.conns.nextId + AtDispatch(s)
            + if s.front.listener == Deciding && e.Listen? && e.allowed then 1 else 0
    ensures NextFront(s, e).refused
         == s.front.refused + if s.front.listener == Deciding && e.Listen? && !e.allowed then 1 else 0
    ensures NextFront(s, e).failed
         == s.front.failed + if s.front.listener == Accepting && e.Listen? && !e.accepted then 1 else 0
  {
    hide WorkerStep;
  }

  /** In every run exactly the connections that shouldConnect allows are dispatched, exactly those that
      it refuses are counted as refused, and exactly the failing accepts as failed. */
  lemma {:induction false} AllowedAreDispatched(s: State, es: seq<Event>)
    requires Possible(s, es)
    ensures After(s, es).conns.nextId + AtDispatch(After(s, es))
         == s.conns.nextId + AtDispatch(s)
            + Count(s, es, Deciding, Listen(true, true)) + Count(s, es, Deciding, Listen(false, true))
    ensures After(s, es).front.refused
         == s.front.refused
            + Count(s, es, Deciding, Listen(true, false)) + Count(s, es, Deciding, Listen(false, false))
    ensures After(s, es).front.failed
         == s.front.failed
            + Count(s, es, Accepting, Listen(false, true)) + Count(s, es, Accepting, Listen(false, false))
    decreases |es|
  {
    if es != [] {
      AllowedStep(s, es[0]);
      hide NextConns, NextFront, NextServer, Enabled, AtDispatch;
      AllowedAreDispatched(Next(s, es[0]), es[1..]);
    }
  }

  /** A listener that leaves a server makes it idle, and idle it stays unless somebody calls. */
  lemma {:induction false} LeavingMakesIdle(s: State, es: seq<Event>)
    requires Possible(s, es) && CallSuspendServer !in es && CallResumeServer !in es && CallKillServer !in es
    requires s.front.listener in {Releasing, Notifying, Finished} ==> s.server.status == Idle
    ensures After(s, es).front.listener in {Releasing, Notifying, Finished} ==> After(s, es).server.status == Idle
    decreases |es|
  {
    if es != [] {
      IdleStep(s, es[0]);
      assert es[0] in es && forall e :: e in es[1..] ==> e in es;
      hide NextConns, NextFront, NextServer, Enabled;
      LeavingMakesIdle(Next(s, es[0]), es[1..]);
    }
  }

  lemma IdleStep(s: State, e: Event)
    requires Enabled(s, e) && !e.CallSuspendServer? && !e.CallResumeServer? && !e.CallKillServer?
    requires s.front.listener in {Releasing, Notifying, Finished} ==> s.server.status == Idle
    ensures NextFront(s, e).listener in {Releasing, Notifying, Finished} ==> NextServer(s, e).status == Idle
  {
    hide NextConns;
  }
}
