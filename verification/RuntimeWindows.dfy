/** What still happens after a connection is suspended, after the server is killed and after the
    server is resumed: bounds on deliveries, dispatches and steps over any continuation. */
module RuntimeWindows {
  import opened Status
  import opened Runtime
  import opened RuntimeInvariant

  /** The server status lies in `allowed` before and after every step. */
  ghost predicate Throughout(s: State, es: seq<Event>, allowed: set<Status>)
    requires Possible(s, es)
    decreases |es|
  {
    s.server.status in allowed && (es == [] || Throughout(Next(s, es[0]), es[1..], allowed))
  }

  /** Nobody suspends or resumes connection `id` while its own status is idle. */
  ghost predicate Calmly(s: State, es: seq<Event>, id: nat)
    requires Possible(s, es)
    decreases |es|
  {
    es == [] || (Calm(s, es[0], id) && Calmly(Next(s, es[0]), es[1..], id))
  }

  predicate Calm(s: State, e: Event, id: nat) {
    id in s.conns.active && s.conns.active[id].status == Idle ==>
      e != CallSuspendQueue(id) && e != CallResumeQueue(id)
  }

  function TraceOf(c: Conns, id: nat): seq<Callback> {
    if id in c.active then c.active[id].trace
    else if id in c.leaving then c.leaving[id].trace
    else if id in c.finished then c.finished[id].trace
    else []
  }

  /** Payloads handed to the data handler for connection `id`. */
  function Delivered(s: State, id: nat): nat {
    CountOf(TraceOf(s.conns, id), Data)
  }

  /** Steps that the worker of `id` takes in a run. */
  function OwnSteps(es: seq<Event>, id: nat): nat {
    if es == [] then 0
    else (if es[0].Work? && es[0].id == id then 1 else 0) + OwnSteps(es[1..], id)
  }

  /** Every step either is the worker's own, or is a call on the connection, or leaves it alone. */
  lemma OthersKeepTrace(s: State, e: Event, id: nat)
    requires PhasesOk(s.conns) && Enabled(s, e) && !(e.Work? && e.id == id)
    ensures TraceOf(NextConns(s, e), id) == TraceOf(s.conns, id)
    ensures id in s.conns.active ==>
              && id in NextConns(s, e).active
              && NextConns(s, e).active[id]
              == (if e == CallSuspendQueue(id) then AfterSuspendQueue(s.conns.active[id])
                  else if e == CallResumeQueue(id) then AfterResumeQueue(s.conns.active[id])
                  else s.conns.active[id])
    ensures id in NextConns(s, e).active && id !in s.conns.active ==>
              id in s.conns.queued && NextConns(s, e).active[id] == NewConn()
  {
    hide WorkerStep;
  }

  lemma OwnStepTrace(s: State, id: nat, received: int, handled: nat)
    requires PhasesOk(s.conns) && Enabled(s, Work(id, received, handled))
    ensures var c := s.conns.active[id];
            var conns := NextConns(s, Work(id, received, handled));
            && (c.place == Release ==> id !in conns.active && TraceOf(conns, id) == c.trace)
            && (c.place != Release ==>
                  && id in conns.active
                  && conns.active[id] == WorkerStep(c, s.server.status, received, handled)
                  && TraceOf(conns, id) == c.trace + Says(c))
  {
    var c := s.conns.active[id];
    if c.place != Release { StepSays(c, s.server.status, received, handled); }
    hide WorkerStep, Says;
  }

  /** Only the two delivering places add a delivery. */
  lemma SaysDelivers(c: Conn)
    ensures CountOf(c.trace + Says(c), Data)
         == CountOf(c.trace, Data) + if c.place == Deliver || c.place == DeliverLate then 1 else 0
  {
    if Says(c) == [] {
      assert c.trace + [] == c.trace;
    } else {
      CountMore(c.trace, Says(c)[0], Data);
      assert Says(c) == [Says(c)[0]];
    }
  }

  // ---- a suspended connection ----

  /** A suspended worker that has passed the test at line 415 on the running branch. */
  function OwedSuspended(c: Conn): nat {
    if c.place == Receive || c.place == Deliver then 1 else 0
  }

  function StillOwed(s: State, id: nat): nat {
    if id in s.conns.active then OwedSuspended(s.conns.active[id]) else 0
  }

  lemma StaysStarted(s: State, e: Event)
    requires Started(s) && Enabled(s, e)
    ensures Started(Next(s, e))
  {
  }

  lemma NotRunningStep(s: State, e: Event)
    requires Started(s) && Enabled(s, e) && s.server.status != Running
    ensures Next(s, e).server.status != Running
  {
    hide NextConns, NextFront;
  }

  /** How a connection stands from its suspension on, under whatever becomes of the server, as long
      as nobody resumes the connection. */
  predicate Held(c: Conn, server: Status) {
    && c.place != DeliverLate
    && (c.place == Switch ==> c.status != Running)
    && (c.place in {NoteSuspend, ReceiveQuiet, CheckAgain} ==> c.status == Suspend)
    && (server == Running ==> c.status == Suspend && c.place != CopyStatus && c.place != ResumeNow)
  }

  ghost predicate OnHold(s: State, id: nat) {
    && id !in s.conns.queued && id < s.conns.nextId && Started(s)
    && (id in s.conns.active ==> Held(s.conns.active[id], s.server.status))
  }

  lemma HoldOwnStep(c: Conn, server: Status, received: int, handled: nat)
    requires Held(c, server) && c.place != Release
    ensures Held(WorkerStep(c, server, received, handled), server)
    ensures OwedSuspended(WorkerStep(c, server, received, handled))
            + (if c.place == Deliver || c.place == DeliverLate then 1 else 0) <= OwedSuspended(c)
  {
  }

  lemma HoldOthers(c: Conn, server: Status, later: Status)
    requires Held(c, server) && (server != Running ==> later != Running)
    ensures Held(c, later) && Held(AfterSuspendQueue(c), later)
    ensures OwedSuspended(AfterSuspendQueue(c)) == OwedSuspended(c)
  {
  }

  lemma HoldStep(s: State, e: Event, id: nat)
    requires Ok(s) && Enabled(s, e) && OnHold(s, id) && e != CallResumeQueue(id)
    ensures OnHold(Next(s, e), id)
    ensures Delivered(Next(s, e), id) + StillOwed(Next(s, e), id) <= Delivered(s, id) + StillOwed(s, id)
  {
    HoldQueued(s, e, id);
    StaysStarted(s, e);
    if s.server.status != Running { NotRunningStep(s, e); }
    if id in s.conns.active { HoldOthers(s.conns.active[id], s.server.status, NextServer(s, e).status); }
    if e.Work? && e.id == id {
      var c := s.conns.active[id];
      WorkServesSame(s, e);
      OwnStepTrace(s, id, e.received, e.handled);
      SaysDelivers(c);
      if c.place != Release { HoldOwnStep(c, s.server.status, e.received, e.handled); }
      hide NextConns, CountOf, Says, PhasesOk, SlotsOk, TracesOk, ResumesOk, ListenerOk, WorkerStep,
           NextServer, NextFront, OwedSuspended, Held, Started;
    } else {
      OthersKeepTrace(s, e, id);
      hide NextConns, CountOf, WorkerStep, PhasesOk, SlotsOk, TracesOk, ResumesOk, ListenerOk,
           NextServer, NextFront, OwedSuspended, Held, Started, AfterSuspendQueue, AfterResumeQueue;
    }
  }

  lemma HoldQueued(s: State, e: Event, id: nat)
    requires Enabled(s, e) && id !in s.conns.queued && id < s.conns.nextId
    ensures id !in NextConns(s, e).queued && id < NextConns(s, e).nextId
  {
    hide WorkerStep;
  }

  lemma {:induction false} HoldRun(s: State, es: seq<Event>, id: nat)
    requires Ok(s) && Possible(s, es) && OnHold(s, id) && CallResumeQueue(id) !in es
    ensures Delivered(After(s, es), id) + StillOwed(After(s, es), id) <= Delivered(s, id) + StillOwed(s, id)
    decreases |es|
  {
    hide Ok, OnHold, NextConns, NextFront, NextServer, Delivered, StillOwed;
    if es != [] {
      StepOk(s, es[0]);
      HoldStep(s, es[0], id);
      HoldRun(Next(s, es[0]), es[1..], id);
    }
  }

  lemma WhileRunning(s: State, id: nat)
    requires Ok(s) && s.server.status == Running && id in s.conns.active
    ensures Started(s) && ResumeOk(s.conns.active[id]) && id !in s.conns.queued && id < s.conns.nextId
  {
    hide CountOf, SlotsOk, TracesOk, ResumeOk;
  }

  lemma HoldBegins(s: State, id: nat, t: State)
    requires s.server.status == Running && id in s.conns.active
    requires Started(s) && ResumeOk(s.conns.active[id]) && id !in s.conns.queued && id < s.conns.nextId
    requires MaySuspend(s.conns.active[id].status)
    requires t == s.(conns := NextConns(s, CallSuspendQueue(id)))
    ensures OnHold(t, id) && Delivered(t, id) == Delivered(s, id)
    ensures StillOwed(t, id) == OwedSuspended(s.conns.active[id])
  {
    hide CountOf;
  }

  /** Between a successful suspend of a connection under a running server and the next resume of
      that connection, whatever is called on the server meanwhile, at most one payload reaches the
      data handler, and only from a worker that had already taken the receiving branch when the
      suspend came. */
  lemma SuspendStopsDelivery(s: State, es: seq<Event>, id: nat)
    requires Reachable(s) && s.server.status == Running
    requires id in s.conns.active && MaySuspend(s.conns.active[id].status)
    requires Possible(Next(s, CallSuspendQueue(id)), es) && CallResumeQueue(id) !in es
    ensures Delivered(After(Next(s, CallSuspendQueue(id)), es), id)
         <= Delivered(s, id) + OwedSuspended(s.conns.active[id])
  {
    var t := Next(s, CallSuspendQueue(id));
    ReachableOk(s);
    assert t == s.(conns := NextConns(s, CallSuspendQueue(id)));
    assert Enabled(s, CallSuspendQueue(id));
    hide *;
    WhileRunning(s, id);
    StepOk(s, CallSuspendQueue(id));
    HoldBegins(s, id, t);
    HoldRun(t, es, id);
  }

  /** The late payload is real: it is delivered in some continuation exactly when the worker had
      taken the receiving branch. The promise of readme.md:31, that a suspended connection passes
      nothing on, holds exactly for the other workers. */
  lemma LatePayloadIff(s: State, id: nat)
    requires Reachable(s) && s.server.status == Running && !s.server.freed
    requires id in s.conns.active && MaySuspend(s.conns.active[id].status)
    ensures (exists es: seq<Event> :: LatePayload(s, es, id)) <==> OwedSuspended(s.conns.active[id]) == 1
  {
    var c := s.conns.active[id];
    var s1 := Next(s, CallSuspendQueue(id));
    forall es: seq<Event> | LatePayload(s, es, id)
      ensures OwedSuspended(c) == 1
    {
      SuspendStopsDelivery(s, es, id);
    }
    if c.place == Deliver {
      DeliverOnce(s1, id);
      assert LatePayload(s, [Work(id, 1, 1)], id);
    }
    if c.place == Receive {
      var s2 := Next(s1, Work(id, 1, 1));
      DeliverOnce(s2, id);
      var es := [Work(id, 1, 1)] + [Work(id, 1, 1)];
      assert es[1..] == [Work(id, 1, 1)];
      assert LatePayload(s, es, id);
    }
  }

  /** A continuation under suspension in which another payload is delivered. */
  ghost predicate LatePayload(s: State, es: seq<Event>, id: nat)
    requires id in s.conns.active
  {
    var s1 := Next(s, CallSuspendQueue(id));
    && Possible(s1, es) && CallResumeQueue(id) !in es
    && Delivered(After(s1, es), id) > Delivered(s, id)
  }

  lemma DeliverOnce(s: State, id: nat)
    requires id in s.conns.active && s.conns.active[id].place == Deliver && !s.server.freed
    ensures Possible(s, [Work(id, 1, 1)])
    ensures Delivered(After(s, [Work(id, 1, 1)]), id) == Delivered(s, id) + 1
  {
    var e := Work(id, 1, 1);
    assert [e][1..] == [];
    assert After(s, [e]) == Next(s, e);
    SaysDelivers(s.conns.active[id]);
    StepSays(s.conns.active[id], s.server.status, 1, 1);
  }

  // ---- a server that is to terminate, or was resumed ----

  const WINDING_DOWN := {ShouldTerminate, Idle}
  const OUT_OF_SERVICE := {Resuming, ShouldTerminate, Idle}

  /** Whether the worker can still reach a delivering place before it next copies a server status,
      which will be one of `quiet`. */
  function OwedDown(c: Conn, quiet: set<Status>): nat {
    match c.place
    case Switch => if c.status in quiet then 0 else 1
    case Receive => 1
    case Deliver => 1
    case NoteSuspend => 1
    case ReceiveQuiet => 1
    case CheckAgain => 1
    case DeliverLate => 1
    case _ => 0
  }

  /** How many steps of its own the worker can still take while the server winds down. */
  function Rank(c: Conn): nat {
    match c.place
    case Switch => if c.status in WINDING_DOWN then 4 else 12
    case NoteSuspend => 11
    case ReceiveQuiet => 10
    case CheckAgain => 9
    case DeliverLate => 8
    case Receive => 9
    case Deliver => 8
    case ResumeNow => 9
    case AckResume => 8
    case TestS => 7
    case Connected => 7
    case Top => 6
    case CopyStatus => 5
    case AnnounceKill => 3
    case Exit => 2
    case Release => 1
  }

  function DownOwed(s: State, id: nat, quiet: set<Status>): nat {
    if id in s.conns.active then OwedDown(s.conns.active[id], quiet) else 0
  }

  /** A worker that has not begun has the rank of a new connection. */
  function DownRank(s: State, id: nat): nat {
    if id in s.conns.active then Rank(s.conns.active[id])
    else if id in s.conns.queued || id >= s.conns.nextId then 7 else 0
  }

  lemma DownOwnStep(c: Conn, server: Status, received: int, handled: nat, quiet: set<Status>)
    requires c.place != Release && server in quiet && quiet <= OUT_OF_SERVICE
    ensures var c' := WorkerStep(c, server, received, handled);
            && OwedDown(c', quiet) + (if c.place == Deliver || c.place == DeliverLate then 1 else 0)
            <= OwedDown(c, quiet)
            && (server in WINDING_DOWN ==> Rank(c') < Rank(c))
  {
  }

  lemma DownCalls(c: Conn, quiet: set<Status>)
    requires quiet <= OUT_OF_SERVICE
    ensures c.status != Idle || Idle !in quiet ==>
              && OwedDown(AfterSuspendQueue(c), quiet) <= OwedDown(c, quiet)
              && OwedDown(AfterResumeQueue(c), quiet) <= OwedDown(c, quiet)
    ensures c.status != Idle ==>
              Rank(AfterSuspendQueue(c)) <= Rank(c) && Rank(AfterResumeQueue(c)) <= Rank(c)
  {
  }

  lemma RankPositive(c: Conn, quiet: set<Status>)
    ensures 1 <= Rank(c) <= 12 && OwedDown(c, quiet) <= 1
    ensures c == NewConn() ==> Rank(c) == 7 && OwedDown(c, quiet) == 0
  {
  }

  lemma DownOthers(s: State, e: Event, id: nat, quiet: set<Status>)
    requires Ok(s) && Enabled(s, e) && !(e.Work? && e.id == id) && quiet <= OUT_OF_SERVICE
    ensures Idle !in quiet || Calm(s, e, id) ==>
              Delivered(Next(s, e), id) + DownOwed(Next(s, e), id, quiet) <= Delivered(s, id) + DownOwed(s, id, quiet)
    ensures Calm(s, e, id) ==> DownRank(Next(s, e), id) <= DownRank(s, id)
  {
    OthersKeepTrace(s, e, id);
    DownQueued(s, e, id);
    if id in s.conns.active {
      var c := s.conns.active[id];
      DownCalls(c, quiet);
    } else if id in NextConns(s, e).active {
      RankPositive(NewConn(), quiet);
    }
    hide NextConns, NextFront, NextServer, CountOf, SlotsOk, TracesOk, ResumesOk, ListenerOk, Rank, OwedDown,
         AfterSuspendQueue, AfterResumeQueue, NewConn, Enabled;
  }

  lemma DownQueued(s: State, e: Event, id: nat)
    requires PhasesOk(s.conns) && Enabled(s, e)
    ensures id in NextConns(s, e).queued ==> id in s.conns.queued || id >= s.conns.nextId
    ensures id >= NextConns(s, e).nextId ==> id >= s.conns.nextId
    ensures id in s.conns.active ==> id !in s.conns.queued && id < s.conns.nextId
    ensures id in NextConns(s, e).active ==> id !in NextConns(s, e).queued && id < NextConns(s, e).nextId
  {
    PhasesStep(s, e);
    hide WorkerStep;
  }

  lemma DownOwn(s: State, e: Event, id: nat, quiet: set<Status>)
    requires Ok(s) && Enabled(s, e) && e.Work? && e.id == id && s.server.status in quiet
    requires quiet <= OUT_OF_SERVICE
    ensures Delivered(Next(s, e), id) + DownOwed(Next(s, e), id, quiet) <= Delivered(s, id) + DownOwed(s, id, quiet)
    ensures s.server.status in WINDING_DOWN ==> DownRank(Next(s, e), id) < DownRank(s, id)
  {
    var c := s.conns.active[id];
    OwnStepTrace(s, id, e.received, e.handled);
    SaysDelivers(c);
    DownQueued(s, e, id);
    RankPositive(c, quiet);
    if c.place != Release {
      DownOwnStep(c, s.server.status, e.received, e.handled, quiet);
    } else {
      WorkQueues(s, e);
    }
    hide NextConns, NextFront, NextServer, CountOf, SlotsOk, TracesOk, ResumesOk, ListenerOk, Rank, OwedDown,
         WorkerStep, Says, PhasesOk;
  }

  lemma WorkQueues(s: State, e: Event)
    requires Enabled(s, e) && e.Work?
    ensures NextConns(s, e).queued == s.conns.queued && NextConns(s, e).nextId == s.conns.nextId
  {
  }

  /** While the server status stays in a set of statuses out of service, a connection gets at most
      one more payload; where the set includes idle, as long as the calls on it are calm. */
  lemma {:induction false} AtMostOneMore(s: State, es: seq<Event>, id: nat, quiet: set<Status>)
    requires Ok(s) && Possible(s, es)
    requires Throughout(s, es, quiet) && quiet <= OUT_OF_SERVICE && (Idle in quiet ==> Calmly(s, es, id))
    ensures Delivered(After(s, es), id) + DownOwed(After(s, es), id, quiet) <= Delivered(s, id) + DownOwed(s, id, quiet)
    ensures DownOwed(s, id, quiet) <= 1
    decreases |es|
  {
    if id in s.conns.active { RankPositive(s.conns.active[id], quiet); }
    hide Ok, NextConns, NextFront, NextServer, Delivered, DownOwed, Calm;
    if es != [] {
      StepOk(s, es[0]);
      if es[0].Work? && es[0].id == id {
        DownOwn(s, es[0], id, quiet);
      } else {
        DownOthers(s, es[0], id, quiet);
      }
      AtMostOneMore(Next(s, es[0]), es[1..], id, quiet);
    }
  }

  /** While the server winds down, every worker leaves within twelve steps of its own. */
  lemma {:induction false} DrainsWithin(s: State, es: seq<Event>, id: nat)
    requires Ok(s) && Possible(s, es)
    requires Throughout(s, es, WINDING_DOWN) && Calmly(s, es, id)
    ensures OwnSteps(es, id) + DownRank(After(s, es), id) <= DownRank(s, id)
    decreases |es|
  {
    hide Ok, NextConns, NextFront, NextServer, DownRank, Calm;
    if es != [] {
      StepOk(s, es[0]);
      if es[0].Work? && es[0].id == id {
        DownOwn(s, es[0], id, WINDING_DOWN);
      } else {
        DownOthers(s, es[0], id, WINDING_DOWN);
      }
      DrainsWithin(Next(s, es[0]), es[1..], id);
    }
  }
}
