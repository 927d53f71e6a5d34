/** The block that accepts connections (Examples/HTTP-proxy/SXServer.c:350-480) in its own form,
    and its agreement with the listener's steps of the transition system. */
module ListenerBlock {
  import opened RefCounting
  import opened Status
  import opened Runtime
  import opened RuntimeInvariant

  /** Calls that other threads make on the server: interface calls, and the references that workers
      take and give back. */
  datatype ServerCall = SuspendServer | ResumeServer | KillServer | RetainServer | ReleaseServer

  /** One step of the listener and what came before it: the calls on the server since the last
      step, the workers that ended, and what accept and shouldConnect answer. */
  datatype Turn = Turn(calls: seq<ServerCall>, left: nat, accepted: bool, allowed: bool)

  /** What the listener sees and writes: its own variables, the server, whose `holds` count here
      every reference but the listener's, and how many workers it has dispatched. */
  datatype View = View(front: Front, server: Server, dispatched: nat)

  /** Nobody gives back a reference that nobody but the listener holds. */
  function CallOn(x: Server, call: ServerCall): Server {
    match call
    case SuspendServer => x.(status := Suspended(x.status))
    case ResumeServer => x.(status := Resumed(x.status))
    case KillServer => x.(status := ShouldTerminate)
    case RetainServer => Take(x).(holds := x.holds + 1)
    case ReleaseServer => if x.holds == 0 then x else Drop(x).(holds := x.holds - 1)
  }

  function CalledOn(x: Server, calls: seq<ServerCall>): Server
    decreases |calls|
  {
    if calls == [] then x else CalledOn(CallOn(x, calls[0]), calls[1..])
  }

  function Met(v: View, calls: seq<ServerCall>, left: nat): View {
    v.(server := CalledOn(v.server, calls), front := v.front.(count := v.front.count - left))
  }

  /** One step, by the listener's steps of the transition system. */
  function Acted(v: View, accepted: bool, allowed: bool): View {
    View(FrontStep(v.front, v.server.status, v.server.maxGuest, accepted, allowed),
         ListenerActs(v.server, v.front.listener),
         v.dispatched + if v.front.listener == Dispatching then 1 else 0)
  }

  function TakeTurn(v: View, t: Turn): View {
    Acted(Met(v, t.calls, t.left), t.accepted, t.allowed)
  }

  function Turns(v: View, turns: seq<Turn>): View {
    if turns == [] then v
    else TakeTurn(Turns(v, turns[..|turns| - 1]), turns[|turns| - 1])
  }

  lemma OneMoreTurn(v: View, turns: seq<Turn>, k: nat)
    requires k < |turns|
    ensures Turns(v, turns[..k + 1]) == TakeTurn(Turns(v, turns[..k]), turns[k])
  {
    assert turns[..k + 1][..k] == turns[..k];
  }

  lemma NoTurns(v: View, turns: seq<Turn>)
    ensures Turns(v, turns[..0]) == v
  {
  }

  // ---- every run of the transition system is, for the listener, a sequence of turns ----

  function ViewOf(s: State): View {
    View(s.front, s.server.(holds := s.server.holds + |s.conns.active|), s.conns.nextId)
  }

  /** The turns that a run gives to the listener, and what came since the last of them. */
  datatype Reading = Reading(turns: seq<Turn>, calls: seq<ServerCall>, left: nat)

  /** What an event is to the listener, when it is not its own step. */
  function CallOf(s: State, e: Event): seq<ServerCall>
    requires Enabled(s, e)
  {
    match e
    case CallSuspendServer => [SuspendServer]
    case CallResumeServer => [ResumeServer]
    case CallKillServer => [KillServer]
    case CallRetainServer => [RetainServer]
    case Begin(_) => [RetainServer]
    case CallReleaseServer => [ReleaseServer]
    case Work(id, _, _) => if s.conns.active[id].place == Release then [ReleaseServer] else []
    case _ => []
  }

  function Read(s: State, es: seq<Event>, calls: seq<ServerCall>, left: nat): Reading
    requires Possible(s, es)
    decreases |es|
  {
    if es == [] then Reading([], calls, left)
    else if es[0].Listen? then
      var t := Turn(calls, left, es[0].accepted, es[0].allowed);
      var r := Read(Next(s, es[0]), es[1..], [], 0);
      r.(turns := [t] + r.turns)
    else
      Read(Next(s, es[0]), es[1..], calls + CallOf(s, es[0]), left + if es[0].Leave? then 1 else 0)
  }

  /** A step of the transition system by the listener is a step of the block. */
  lemma StepIsActed(s: State, accepted: bool, allowed: bool)
    requires Enabled(s, Listen(accepted, allowed))
    ensures ViewOf(Next(s, Listen(accepted, allowed))) == Acted(ViewOf(s), accepted, allowed)
  {
  }

  /** Any other step is what others did before the listener's next one. */
  lemma StepIsMet(s: State, e: Event)
    requires PhasesOk(s.conns) && Enabled(s, e) && !e.Listen? && s.front.listener != NotStarted
    ensures ViewOf(Next(s, e)) == Met(ViewOf(s), CallOf(s, e), if e.Leave? then 1 else 0)
  {
    SizeStep(s, e);
    ServerIsCalled(s, e, |NextConns(s, e).active|);
    FrontIsMet(s, e);
    hide NextConns, CalledOn, NextServer, NextFront, PhasesOk, CallOf, Enabled, Size, SizeChange;
  }

  lemma ServerIsCalled(s: State, e: Event, active: nat)
    requires Enabled(s, e) && !e.Listen? && s.front.listener != NotStarted
    requires active == |s.conns.active| + (if e.Begin? then 1 else 0)
                     - (if e.Work? && s.conns.active[e.id].place == Release then 1 else 0)
    ensures var t := NextServer(s, e);
            t.(holds := t.holds + active) == CalledOn(ViewOf(s).server, CallOf(s, e))
  {
    if CallOf(s, e) != [] { CalledOne(ViewOf(s).server, CallOf(s, e)[0]); }
    hide CalledOn;
    assert CalledOn(ViewOf(s).server, []) == ViewOf(s).server by { NotCalled(ViewOf(s).server); }
  }

  lemma FrontIsMet(s: State, e: Event)
    requires Enabled(s, e) && !e.Listen? && s.front.listener != NotStarted
    ensures NextFront(s, e) == s.front.(count := s.front.count - if e.Leave? then 1 else 0)
    ensures NextConns(s, e).nextId == s.conns.nextId
  {
    hide WorkerStep;
  }

  lemma NotCalled(x: Server)
    ensures CalledOn(x, []) == x
  {
  }

  lemma CalledOne(x: Server, call: ServerCall)
    ensures CalledOn(x, [call]) == CallOn(x, call)
  {
    assert [call][1..] == [];
  }

  lemma {:induction false} CalledMore(x: Server, calls: seq<ServerCall>, more: seq<ServerCall>)
    ensures CalledOn(CalledOn(x, calls), more) == CalledOn(x, calls + more)
    decreases |calls|
  {
    if calls == [] {
      assert [] + more == more;
    } else {
      CalledMore(CallOn(x, calls[0]), calls[1..], more);
      assert (calls + more)[1..] == calls[1..] + more;
    }
  }

  lemma MetMore(v: View, calls: seq<ServerCall>, left: nat, more: seq<ServerCall>, gone: nat)
    ensures Met(Met(v, calls, left), more, gone) == Met(v, calls + more, left + gone)
    ensures Met(v, [], 0) == v
  {
    CalledMore(v.server, calls, more);
  }

  lemma TurnsMore(v: View, turns: seq<Turn>, t: Turn)
    ensures Turns(v, turns + [t]) == TakeTurn(Turns(v, turns), t)
  {
    assert (turns + [t])[..|turns|] == turns;
  }

  lemma StaysBegun(s: State, e: Event)
    requires Enabled(s, e) && s.front.listener != NotStarted
    ensures NextFront(s, e).listener != NotStarted
  {
  }

  lemma {:induction false} RunGoesOn(s: State, es: seq<Event>, start: View, past: Reading)
    requires PhasesOk(s.conns) && s.front.listener != NotStarted && Possible(s, es)
    requires ViewOf(s) == Met(Turns(start, past.turns), past.calls, past.left)
    ensures var r := Read(s, es, past.calls, past.left);
            ViewOf(After(s, es))
            == Met(Turns(start, past.turns + r.turns), r.calls, r.left)
    decreases |es|
  {
    hide Met, Turns, ViewOf, PhasesOk, NextConns, NextServer, NextFront, Enabled, CallOf, Acted;
    if es == [] {
      assert past.turns + [] == past.turns;
    } else {
      var e, here := es[0], Turns(start, past.turns);
      PhasesStep(s, e);
      LimitsStay(s, e);
      StaysBegun(s, e);
      if e.Listen? {
        var t := Turn(past.calls, past.left, e.accepted, e.allowed);
        StepIsActed(s, e.accepted, e.allowed);
        TurnsMore(start, past.turns, t);
        MetMore(TakeTurn(here, t), [], 0, [], 0);
        var r := Read(Next(s, e), es[1..], [], 0);
        RunGoesOn(Next(s, e), es[1..], start, Reading(past.turns + [t], [], 0));
        assert past.turns + [t] + r.turns == past.turns + ([t] + r.turns);
      } else {
        var gone: nat := if e.Leave? then 1 else 0;
        StepIsMet(s, e);
        MetMore(here, past.calls, past.left, CallOf(s, e), gone);
        RunGoesOn(Next(s, e), es[1..], start,
                  Reading(past.turns, past.calls + CallOf(s, e), past.left + gone));
      }
    }
  }

  /** In every run, from any state after the start, the listener and what it sees of the server
      become what its own turns make of them. */
  lemma RunIsTurns(s: State, es: seq<Event>)
    requires PhasesOk(s.conns) && s.front.listener != NotStarted && Possible(s, es)
    ensures var r := Read(s, es, [], 0);
            ViewOf(After(s, es)) == Met(Turns(ViewOf(s), r.turns), r.calls, r.left)
  {
    var r := Read(s, es, [], 0);
    NoTurns(ViewOf(s), []);
    MetMore(ViewOf(s), [], 0, [], 0);
    hide Met, Turns, ViewOf, PhasesOk, NextConns, NextServer, NextFront, Enabled, CallOf, Acted;
    RunGoesOn(s, es, ViewOf(s), Reading([], [], 0));
    assert [] + r.turns == r.turns;
  }

  /** Nobody resumes or kills the server before this step. */
  predicate Calm(t: Turn) {
    ResumeServer !in t.calls && KillServer !in t.calls
  }

  /** Nobody suspends or kills the server before this step. */
  predicate Awake(t: Turn) {
    SuspendServer !in t.calls && KillServer !in t.calls
  }

  lemma {:induction false} CallsKeep(x: Server, calls: seq<ServerCall>)
    ensures x.status == ShouldTerminate ==> CalledOn(x, calls).status == ShouldTerminate
    ensures x.status == Suspend && ResumeServer !in calls && KillServer !in calls ==>
              CalledOn(x, calls).status == Suspend
    ensures x.status == Running && SuspendServer !in calls && KillServer !in calls ==>
              CalledOn(x, calls).status == Running
    decreases |calls|
  {
    if calls != [] {
      assert calls[0] in calls && forall call :: call in calls[1..] ==> call in calls;
      CallsKeep(CallOn(x, calls[0]), calls[1..]);
    }
  }

  class Block {
    const maxGuest: nat
    const server: SXServer
    var count: int
    var others: nat
    ghost const maxHolds: nat
    ghost var freed: bool
    ghost var failed: nat
    ghost var refused: nat
    ghost var dispatched: nat

    ghost function At(listener: Listener): View
      reads this, server
    {
      View(Front(listener, count, failed, refused),
           Server(maxGuest, maxHolds, server.status, server.refCount, freed, others), dispatched)
    }

    /** The listener holds a reference, besides those of the others. */
    predicate Held()
      reads this, server
    {
      server.refCount == WEAK || server.refCount == others + 1
    }

    constructor (maxGuest: nat, server: SXServer, others: nat, ghost maxHolds: nat)
      requires server.refCount == WEAK || server.refCount == others + 1
      ensures this.maxGuest == maxGuest && this.server == server && Held()
      ensures At(Queued) == View(Front(Queued, 0, 0, 0),
                                 Server(maxGuest, maxHolds, server.status, server.refCount, false, others), 0)
    {
      this.maxGuest, this.server, this.others := maxGuest, server, others;
      this.maxHolds, freed := maxHolds, false;
      count, failed, refused, dispatched := 0, 0, 0, 0;
    }

    /** A step is due: the calls that came before it reach the server, and workers end. */
    method Meet(turns: seq<Turn>, k: nat, ghost start: View, ghost listener: Listener)
      requires k < |turns| && Held() && At(listener) == Turns(start, turns[..k])
      modifies this`count, this`others, this`freed, server
      ensures Held() && count == old(count) - turns[k].left
      ensures old(server.status) == ShouldTerminate ==> server.status == ShouldTerminate
      ensures old(server.status) == Suspend && Calm(turns[k]) ==> server.status == Suspend
      ensures old(server.status) == Running && Awake(turns[k]) ==> server.status == Running
      ensures Turns(start, turns[..k + 1])
           == Acted(At(listener), turns[k].accepted, turns[k].allowed)
    {
      hide Turns, Acted, CalledOn;
      OneMoreTurn(start, turns, k);
      CallsKeep(At(listener).server, turns[k].calls);
      Perform(turns[k].calls);
      count := count - turns[k].left;
    }

    method Perform(calls: seq<ServerCall>)
      requires Held()
      modifies this`others, this`freed, server
      ensures Held()
      ensures At(Loop).server == CalledOn(old(At(Loop).server), calls)
    {
      for i := 0 to |calls|
        invariant Held()
        invariant CalledOn(At(Loop).server, calls[i..]) == CalledOn(old(At(Loop).server), calls)
      {
        assert calls[i..][0] == calls[i] && calls[i..][1..] == calls[i + 1..];
        match calls[i] {
          case SuspendServer =>
            var _ := server.SuspendServer();
          case ResumeServer =>
            var _ := server.ResumeServer();
          case KillServer =>
            var _ := server.KillServer();
          case RetainServer =>
            server.RetainServer();
            others := others + 1;
          case ReleaseServer =>
            if others > 0 {
              var gone := server.ReleaseServer();
              freed := freed || gone;
              others := others - 1;
            }
        }
      }
    }

    /** Lines 358-366: whether the loop is left, and otherwise whether a slot is to be taken. */
    method Tests(turns: seq<Turn>, from: nat, ghost start: View) returns (k: nat, stop: bool, room: bool)
      requires from + 5 <= |turns| && Held() && At(Loop) == Turns(start, turns[..from])
      modifies this`count, this`others, this`freed, server
      ensures Held() && from < k <= from + 5 && (room ==> !stop && k == from + 5) && count <= old(count)
      ensures At(if stop then Idling else if room then TakeSlot else Loop) == Turns(start, turns[..k])
      ensures old(server.status) == ShouldTerminate ==> stop
      ensures old(server.status) == Suspend && (forall j :: from <= j < from + 5 ==> Calm(turns[j])) ==>
                !stop && !room && server.status == Suspend
      ensures old(server.status) == Running && (forall j :: from <= j < from + 5 ==> Awake(turns[j]))
              && old(count) < maxGuest ==>
                room
    {
      hide Turns, CalledOn, Calm, Awake;
      room := false;
      k, stop := Terminates(turns, from, start);
      if stop {
        return;
      }
      Meet(turns, k, start, CheckSuspend);
      k := k + 1;
      if server.status == Suspend {
        return;
      }
      Meet(turns, k, start, CheckRoom);
      k := k + 1;
      room := !(count >= maxGuest);
    }

    /** Lines 358-362 */
    method Terminates(turns: seq<Turn>, from: nat, ghost start: View) returns (k: nat, stop: bool)
      requires from + 3 <= |turns| && Held() && At(Loop) == Turns(start, turns[..from])
      modifies this`count, this`others, this`freed, server
      ensures Held() && from < k <= from + 3 && (!stop ==> k == from + 3) && count <= old(count)
      ensures At(if stop then Idling else CheckSuspend) == Turns(start, turns[..k])
      ensures old(server.status) == ShouldTerminate ==> stop
      ensures old(server.status) == Suspend && (forall j :: from <= j < from + 3 ==> Calm(turns[j])) ==>
                !stop && server.status == Suspend
      ensures old(server.status) == Running && (forall j :: from <= j < from + 3 ==> Awake(turns[j])) ==>
                !stop && server.status == Running
    {
      hide Turns, CalledOn, Calm, Awake;
      k := from;
      Meet(turns, k, start, Loop);
      k := k + 1;
      if !(server.status != ShouldTerminate) {
        return k, true;
      }
      Meet(turns, k, start, Listening);
      k := k + 1;
      Meet(turns, k, start, CheckTerminate);
      k := k + 1;
      stop := server.status == ShouldTerminate;
    }

    /** One pass of the loop (lines 358-474), of at most nine steps; `stop` when it is left. A suspended
        server takes nobody in, a server that is to terminate leaves the loop, and a running one with
        room dispatches exactly a connection that accept finds and shouldConnect allows. */
    method Pass(turns: seq<Turn>, from: nat, ghost start: View) returns (k: nat, stop: bool)
      requires from + 9 <= |turns| && Held()
      requires At(Loop) == Turns(start, turns[..from])
      modifies this, server
      ensures Held() && from < k <= from + 9
      ensures At(if stop then Idling else Loop) == Turns(start, turns[..k])
      ensures old(server.status) == ShouldTerminate ==> stop && dispatched == old(dispatched)
      ensures old(server.status) == Suspend && (forall j :: from <= j < from + 5 ==> Calm(turns[j])) ==>
                !stop && dispatched == old(dispatched) && count <= old(count) && server.status == Suspend
      ensures old(server.status) == Running && (forall j :: from <= j < from + 5 ==> Awake(turns[j]))
              && old(count) < maxGuest ==>
                && !stop
                && dispatched
                == old(dispatched) + if turns[from + 6].accepted && turns[from + 7].allowed then 1 else 0
      ensures dispatched != old(dispatched) ==>
                dispatched == old(dispatched) + 1 && turns[from + 6].accepted && turns[from + 7].allowed
    {
      hide Turns, CalledOn, Calm, Awake, Acted;
      var room: bool;
      k, stop, room := Tests(turns, from, start);
      if room {
        k := Admit(turns, k, start);
      }
    }

    /** Lines 368-473 */
    method Admit(turns: seq<Turn>, from: nat, ghost start: View) returns (k: nat)
      requires from + 4 <= |turns| && Held()
      requires At(TakeSlot) == Turns(start, turns[..from])
      modifies this, server
      ensures Held() && from < k <= from + 4
      ensures At(Loop) == Turns(start, turns[..k])
      ensures dispatched == old(dispatched) + if turns[from + 1].accepted && turns[from + 2].allowed then 1 else 0
      ensures dispatched > old(dispatched) ==> k == from + 4
    {
      hide Turns;
      k := from;
      Meet(turns, k, start, TakeSlot);
      count := count + 1;
      k := k + 1;
      Meet(turns, k, start, Accepting);
      k := k + 1;
      if !turns[k - 1].accepted {
        failed := failed + 1;
        return;
      }
      Meet(turns, k, start, Deciding);
      k := k + 1;
      if !turns[k - 1].allowed {
        refused := refused + 1;
        return;
      }
      Meet(turns, k, start, Dispatching);
      dispatched := dispatched + 1;
      k := k + 1;
    }

    /** Lines 351-476: the whole block, for as many steps as it is given. It is where the machine's
        steps lead, and a block that finishes has let go of its reference. */
    method Run(turns: seq<Turn>) returns (k: nat, finished: bool, ghost listener: Listener)
      requires Held()
      requires At(Queued).front == Front(Queued, 0, 0, 0)
      modifies this, server
      ensures k <= |turns| && (finished || |turns| < k + 9)
      ensures At(listener) == Turns(old(At(Queued)), turns[..k])
      ensures finished <==> listener == Notifying
      ensures finished ==> server.refCount == WEAK || server.refCount == others
    {
      hide Turns;
      ghost var start := At(Queued);
      k, finished, listener := 0, false, Queued;
      NoTurns(start, turns);
      if |turns| == 0 {
        return;
      }
      Meet(turns, k, start, Queued);
      server.status := Running;
      count := 0;
      k := k + 1;
      var stop := false;
      while !stop && k + 9 <= |turns|
        invariant k <= |turns| && Held()
        invariant At(if stop then Idling else Loop) == Turns(start, turns[..k])
        decreases |turns| - k
      {
        k, stop := Pass(turns, k, start);
      }
      listener := if stop then Idling else Loop;
      if !stop || k + 2 > |turns| {
        return;
      }
      k := LetGo(turns, k, start);
      finished, listener := true, Notifying;
    }

    /** Lines 475-476 */
    method LetGo(turns: seq<Turn>, from: nat, ghost start: View) returns (k: nat)
      requires from + 2 <= |turns| && Held() && At(Idling) == Turns(start, turns[..from])
      modifies this, server
      ensures k == from + 2 && At(Notifying) == Turns(start, turns[..k])
      ensures server.refCount == WEAK || server.refCount == others
    {
      hide Turns;
      k := from;
      Meet(turns, k, start, Idling);
      server.status := Idle;
      k := k + 1;
      Meet(turns, k, start, Releasing);
      var gone := server.ReleaseServer();
      freed := freed || gone;
      k := k + 1;
    }
  }
}
