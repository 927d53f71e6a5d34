/** The block that serves one connection (Examples/HTTP-proxy/SXServer.c:392-471) in its own form,
    and its agreement with the worker's steps of the transition system. */
module WorkerBlock {
  import opened Status
  import opened Runtime
  import opened RuntimeInvariant
  import opened RuntimeGuarantees

  /** One step of the worker and what came before it: the calls on the queue since the last step,
      the server status that the step reads, and what recv and the handler answer. */
  datatype Turn = Turn(calls: seq<QueueCall>, server: Status, received: int, handled: nat)

  function Met(c: Conn, calls: seq<QueueCall>): Conn {
    c.(status := Called(c.status, calls), resumes := c.resumes + Granted(c.status, calls))
  }

  function TakeTurn(c: Conn, t: Turn): Conn {
    if c.place == Release then Met(c, t.calls)
    else WorkerStep(Met(c, t.calls), t.server, t.received, t.handled)
  }

  function Turns(c: Conn, turns: seq<Turn>): Conn {
    if turns == [] then c else TakeTurn(Turns(c, turns[..|turns| - 1]), turns[|turns| - 1])
  }

  lemma OneMoreTurn(c: Conn, turns: seq<Turn>, k: nat)
    requires k < |turns|
    ensures Turns(c, turns[..k + 1]) == TakeTurn(Turns(c, turns[..k]), turns[k])
  {
    assert turns[..k + 1][..k] == turns[..k];
  }

  lemma NoTurns(c: Conn, turns: seq<Turn>)
    ensures Turns(c, turns[..0]) == c
  {
  }

  lemma {:induction false} TurnsKeepTrace(c: Conn, turns: seq<Turn>)
    requires TraceOk(c)
    ensures TraceOk(Turns(c, turns))
  {
    if turns != [] {
      var before, t := Turns(c, turns[..|turns| - 1]), turns[|turns| - 1];
      TurnsKeepTrace(c, turns[..|turns| - 1]);
      if before.place != Release {
        TraceStep(Met(before, t.calls), t.server, t.received, t.handled);
      }
    }
  }

  /** A new connection that its turns take to the end has told a trace of the language. */
  lemma ReleasedInLanguage(turns: seq<Turn>)
    ensures Turns(NewConn(), turns).place == Release ==> InLanguage(Turns(NewConn(), turns).trace)
  {
    TurnsKeepTrace(NewConn(), turns);
    ClosedIffInLanguage(Turns(NewConn(), turns).trace);
  }

  // ---- turns are runs of the transition system ----

  function CallEvents(id: nat, calls: seq<QueueCall>): seq<Event> {
    if calls == [] then []
    else [if calls[0] == SuspendIt then CallSuspendQueue(id) else CallResumeQueue(id)] + CallEvents(id, calls[1..])
  }

  function TurnEvents(id: nat, t: Turn): seq<Event> {
    CallEvents(id, t.calls) + [Work(id, t.received, t.handled)]
  }

  function AfterCall(c: Conn, call: QueueCall): Conn {
    if call == SuspendIt then AfterSuspendQueue(c) else AfterResumeQueue(c)
  }

  lemma MetOne(c: Conn, calls: seq<QueueCall>)
    ensures calls == [] ==> Met(c, calls) == c
    ensures calls != [] ==> Met(c, calls) == Met(AfterCall(c, calls[0]), calls[1..])
  {
  }

  lemma FirstCall(s: State, id: nat, calls: seq<QueueCall>)
    requires id in s.conns.active && calls != []
    ensures var e := CallEvents(id, calls)[0];
            && CallEvents(id, calls)[1..] == CallEvents(id, calls[1..])
            && Enabled(s, e) && Next(s, e) == WithConn(s, id, AfterCall(s.conns.active[id], calls[0]))
  {
  }

  lemma {:induction false} CallsAreEvents(s: State, id: nat, calls: seq<QueueCall>)
    requires id in s.conns.active
    ensures Possible(s, CallEvents(id, calls))
    ensures After(s, CallEvents(id, calls)) == WithConn(s, id, Met(s.conns.active[id], calls))
    decreases |calls|
  {
    var c := s.conns.active[id];
    if calls == [] {
      MetOne(c, calls);
      assert s.conns.active == s.conns.active[id := c];
    } else {
      FirstCall(s, id, calls);
      MetOne(c, calls);
      hide Met, AfterCall, NextServer, NextFront, NextConns, Enabled, CallEvents;
      var first := AfterCall(c, calls[0]);
      CallsAreEvents(WithConn(s, id, first), id, calls[1..]);
      assert WithConn(WithConn(s, id, first), id, Met(c, calls)) == WithConn(s, id, Met(c, calls));
      assert CallEvents(id, calls) != [] by { SomeEvents(id, calls); }
    }
  }

  lemma SomeEvents(id: nat, calls: seq<QueueCall>)
    ensures calls != [] ==> CallEvents(id, calls) != []
  {
  }

  /** Every turn is a run of the transition system: its calls on the queue and one worker step. */
  lemma TurnIsEvents(s: State, id: nat, t: Turn)
    requires id in s.conns.active && !s.server.freed && t.received >= -1
    requires s.conns.active[id].place != Release && s.server.status == t.server
    ensures Possible(s, TurnEvents(id, t))
    ensures id in After(s, TurnEvents(id, t)).conns.active
    ensures After(s, TurnEvents(id, t)).conns.active[id] == TakeTurn(s.conns.active[id], t)
    ensures After(s, TurnEvents(id, t)).server == s.server
  {
    hide WorkerStep, Possible, After;
    CallsAreEvents(s, id, t.calls);
    Extend(s, CallEvents(id, t.calls), Work(id, t.received, t.handled));
  }

  // ---- every run of the transition system is, for one worker, a sequence of turns ----

  predicate Known(c: Conns, id: nat) {
    id in c.active || id in c.leaving || id in c.finished
  }

  function ConnOf(c: Conns, id: nat): Conn
    requires Known(c, id)
  {
    if id in c.active then c.active[id] else if id in c.leaving then c.leaving[id] else c.finished[id]
  }

  /** The turns that a run gives to a worker, and the calls since the last of them. */
  datatype Reading = Reading(turns: seq<Turn>, calls: seq<QueueCall>)

  /** Reads them off the run, after the calls that came before it. The status of the server may
      change at any step. */
  function Read(s: State, es: seq<Event>, id: nat, calls: seq<QueueCall>): Reading
    requires Possible(s, es)
    decreases |es|
  {
    if es == [] then Reading([], calls)
    else if es[0].Work? && es[0].id == id then
      var t := Turn(calls, s.server.status, es[0].received, es[0].handled);
      var r := Read(Next(s, es[0]), es[1..], id, []);
      r.(turns := [t] + r.turns)
    else
      Read(Next(s, es[0]), es[1..], id, CallsWith(calls, es[0], id))
  }

  function CallsWith(calls: seq<QueueCall>, e: Event, id: nat): seq<QueueCall> {
    if e == CallSuspendQueue(id) then calls + [SuspendIt]
    else if e == CallResumeQueue(id) then calls + [ResumeIt]
    else calls
  }

  /** What one event is to a connection that has begun. */
  lemma OneEvent(s: State, e: Event, id: nat)
    requires PhasesOk(s.conns) && Known(s.conns, id) && Enabled(s, e)
    ensures Known(NextConns(s, e), id)
    ensures var c, d := ConnOf(s.conns, id), ConnOf(NextConns(s, e), id);
            if e.Work? && e.id == id then
              d == if c.place == Release then c else WorkerStep(c, s.server.status, e.received, e.handled)
            else if e == CallSuspendQueue(id) then d == AfterCall(c, SuspendIt)
            else if e == CallResumeQueue(id) then d == AfterCall(c, ResumeIt)
            else d == c
  {
    hide WorkerStep;
  }

  lemma {:induction false} MetMore(c: Conn, calls: seq<QueueCall>, call: QueueCall)
    ensures Met(c, calls + [call]) == AfterCall(Met(c, calls), call)
    decreases |calls|
  {
    MetOne(c, calls);
    MetOne(c, calls + [call]);
    hide Met, AfterCall;
    if calls == [] {
      MetOne(AfterCall(c, call), []);
      assert ([] + [call])[1..] == [];
    } else {
      MetMore(AfterCall(c, calls[0]), calls[1..], call);
      assert (calls + [call])[1..] == calls[1..] + [call];
    }
  }

  lemma TurnsMore(c: Conn, turns: seq<Turn>, t: Turn)
    ensures Turns(c, turns + [t]) == TakeTurn(Turns(c, turns), t)
  {
    assert (turns + [t])[..|turns|] == turns;
  }

  lemma TakeTurnIs(c: Conn, t: Turn)
    ensures TakeTurn(c, t) == if Met(c, t.calls).place == Release then Met(c, t.calls)
                              else WorkerStep(Met(c, t.calls), t.server, t.received, t.handled)
  {
  }

  lemma {:induction false} RunGoesOn(s: State, es: seq<Event>, id: nat, start: Conn, past: Reading)
    requires PhasesOk(s.conns) && Known(s.conns, id) && Possible(s, es)
    requires ConnOf(s.conns, id) == Met(Turns(start, past.turns), past.calls)
    ensures Known(After(s, es).conns, id)
    ensures var r := Read(s, es, id, past.calls);
            ConnOf(After(s, es).conns, id) == Met(Turns(start, past.turns + r.turns), r.calls)
    decreases |es|
  {
    hide Met, Turns, TakeTurn, ConnOf, Known, PhasesOk, NextConns, NextServer, NextFront, Enabled, AfterCall;
    if es == [] {
      assert past.turns + [] == past.turns;
    } else {
      var e, here := es[0], Turns(start, past.turns);
      OneEvent(s, e, id);
      PhasesStep(s, e);
      if e.Work? && e.id == id {
        var t := Turn(past.calls, s.server.status, e.received, e.handled);
        TakeTurnIs(here, t);
        TurnsMore(start, past.turns, t);
        MetOne(TakeTurn(here, t), []);
        var r := Read(Next(s, e), es[1..], id, []);
        RunGoesOn(Next(s, e), es[1..], id, start, Reading(past.turns + [t], []));
        assert past.turns + [t] + r.turns == past.turns + ([t] + r.turns);
      } else {
        MetMore(here, past.calls, SuspendIt);
        MetMore(here, past.calls, ResumeIt);
        RunGoesOn(Next(s, e), es[1..], id, start, Reading(past.turns, CallsWith(past.calls, e, id)));
      }
    }
  }

  /** In every run, from any state in which a connection has begun, and whatever happens to the
      server's status meanwhile, the connection becomes what its own turns make of it. */
  lemma RunIsTurns(s: State, es: seq<Event>, id: nat)
    requires PhasesOk(s.conns) && Known(s.conns, id) && Possible(s, es)
    ensures Known(After(s, es).conns, id)
    ensures var r := Read(s, es, id, []);
            ConnOf(After(s, es).conns, id) == Met(Turns(ConnOf(s.conns, id), r.turns), r.calls)
  {
    var c, r := ConnOf(s.conns, id), Read(s, es, id, []);
    MetOne(c, []);
    NoTurns(c, []);
    hide Met, Turns, ConnOf, Known, PhasesOk, NextConns, NextServer, NextFront, Enabled;
    RunGoesOn(s, es, id, c, Reading([], []));
    assert [] + r.turns == r.turns;
  }

  // ---- the block ----

  class Worker {
    var queue: SXQueue
    var s: nat
    var suspended: bool
    ghost var trace: seq<Callback>
    ghost var resumes: nat

    ghost function At(place: Place): Conn
      reads this, queue
    {
      Conn(queue.status, place, s, suspended, trace, resumes)
    }

    /** Lines 393-398 */
    constructor ()
      ensures At(Connected) == NewConn() && fresh(queue) && queue.refCount == 1
    {
      queue := new SXQueue();
      s, suspended, trace, resumes := 1, false, [], 0;
    }

    /** A step is due: the calls that came before it reach the queue first. */
    method Meet(turns: seq<Turn>, k: nat, ghost start: Conn, ghost place: Place)
      requires k < |turns| && place != Release && At(place) == Turns(start, turns[..k])
      modifies this`resumes, queue`status
      ensures Turns(start, turns[..k + 1])
           == WorkerStep(At(place), turns[k].server, turns[k].received, turns[k].handled)
    {
      hide WorkerStep, Turns;
      OneMoreTurn(start, turns, k);
      var granted := Perform(queue, turns[k].calls);
      resumes := resumes + granted;
    }

    /** One pass of the loop (lines 409-464), of at most eight steps. */
    method Pass(turns: seq<Turn>, from: nat, ghost start: Conn) returns (k: nat, again: bool)
      requires from + 8 <= |turns| && At(Top) == Turns(start, turns[..from])
      modifies this, queue`status
      ensures queue == old(queue) && from < k <= from + 8
      ensures At(if again then Top else Exit) == Turns(start, turns[..k])
      ensures again ==> s > 0
    {
      hide Turns;
      k := from;
      Meet(turns, k, start, Top);
      var differs := turns[k].server != Running;
      k := k + 1;
      if differs {
        Meet(turns, k, start, CopyStatus);
        queue.status := turns[k].server;
        k := k + 1;
      }
      var exit: bool;
      k, exit := ByStatus(turns, k, start);
      if exit {
        return k, false;
      }
      Meet(turns, k, start, TestS);
      k := k + 1;
      again := s > 0;
    }

    /** Lines 415-462 */
    method ByStatus(turns: seq<Turn>, from: nat, ghost start: Conn) returns (k: nat, exit: bool)
      requires from + 5 <= |turns| && At(Switch) == Turns(start, turns[..from])
      modifies this, queue`status
      ensures queue == old(queue) && from < k <= from + 5
      ensures At(if exit then Exit else TestS) == Turns(start, turns[..k])
    {
      hide Turns;
      k := from;
      Meet(turns, k, start, Switch);
      k := k + 1;
      match queue.status {
        case Running =>
          k, exit := WhileRunning(turns, k, start);
          return;
        case Resuming =>
          Meet(turns, k, start, ResumeNow);
          queue.status := Running;
          k := k + 1;
          Meet(turns, k, start, AckResume);
          trace := trace + [DidResume];
          k := k + 1;
        case Suspend =>
          Meet(turns, k, start, NoteSuspend);
          if !suspended {
            trace := trace + [WillSuspend];
          }
          suspended := true;
          k := k + 1;
          k, exit := WhileSuspended(turns, k, start);
          return;
        case ShouldTerminate =>
          Meet(turns, k, start, AnnounceKill);
          trace := trace + [WillKill];
          return k + 1, true;
        case Idle =>
          Meet(turns, k, start, AnnounceKill);
          trace := trace + [WillKill];
          return k + 1, true;
        case _ =>
      }
      exit := false;
    }

    /** Lines 418-422 */
    method WhileRunning(turns: seq<Turn>, from: nat, ghost start: Conn) returns (k: nat, exit: bool)
      requires from + 2 <= |turns| && At(Receive) == Turns(start, turns[..from])
      modifies this, queue`status
      ensures queue == old(queue) && from < k <= from + 2
      ensures At(if exit then Exit else TestS) == Turns(start, turns[..k])
    {
      hide Turns;
      k := from;
      Meet(turns, k, start, Receive);
      k := k + 1;
      if turns[k - 1].received == -1 {
        return k, true;
      }
      Meet(turns, k, start, Deliver);
      s, trace := turns[k].handled, trace + [Data];
      k := k + 1;
      exit := false;
    }

    /** Lines 435-453 */
    method WhileSuspended(turns: seq<Turn>, from: nat, ghost start: Conn) returns (k: nat, exit: bool)
      requires from + 3 <= |turns| && At(ReceiveQuiet) == Turns(start, turns[..from])
      modifies this, queue`status
      ensures queue == old(queue) && from < k <= from + 3
      ensures At(if exit then Exit else TestS) == Turns(start, turns[..k])
    {
      hide Turns;
      k := from;
      Meet(turns, k, start, ReceiveQuiet);
      k := k + 1;
      if turns[k - 1].received == 0 || turns[k - 1].received == -1 {
        return k, true;
      }
      Meet(turns, k, start, CheckAgain);
      k := k + 1;
      match queue.status {
        case ShouldTerminate =>
          return k, true;
        case Idle =>
          return k, true;
        case Resuming =>
          Meet(turns, k, start, DeliverLate);
          s, trace := turns[k].handled, trace + [Data];
          k := k + 1;
        case Running =>
          Meet(turns, k, start, DeliverLate);
          s, trace := turns[k].handled, trace + [Data];
          k := k + 1;
        case _ =>
      }
      exit := false;
    }

    /** Lines 405-468: the whole block, for as many steps as it is given. It is where the machine's
        steps lead, and a block that finishes has told its handlers a trace of the language. */
    method Run(turns: seq<Turn>) returns (k: nat, finished: bool, ghost place: Place)
      requires At(Connected) == NewConn()
      modifies this, queue`status
      ensures k <= |turns| && (finished || |turns| < k + 8)
      ensures At(place) == Turns(NewConn(), turns[..k])
      ensures finished <==> place == Release
      ensures finished ==> InLanguage(trace)
    {
      hide Turns, InLanguage, HearAll, IsBody;
      ghost var start := NewConn();
      k, finished, place := 0, false, Connected;
      NoTurns(start, turns);
      if |turns| == 0 {
        return;
      }
      Meet(turns, k, start, Connected);
      trace := trace + [DidConnect];
      k := k + 1;
      var again := true;
      while again && k + 8 <= |turns|
        invariant k <= |turns| && queue == old(queue)
        invariant At(if again then Top else Exit) == Turns(start, turns[..k])
        decreases |turns| - k
      {
        k, again := Pass(turns, k, start);
      }
      place := if again then Top else Exit;
      if again || k == |turns| {
        return;
      }
      Meet(turns, k, start, Exit);
      trace := trace + [DidDisconnect];
      k := k + 1;
      finished, place := true, Release;
      ReleasedInLanguage(turns[..k]);
    }
  }
}
