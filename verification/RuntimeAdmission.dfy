/** When a suspended server can still take a connection in (Examples/HTTP-proxy/SXServer.c:358-386):
    exactly when its listener had passed the test for suspension and a slot is or can become free. */
module RuntimeAdmission {
  import opened Status
  import opened Runtime
  import opened RuntimeInvariant
  import opened RuntimeGuarantees
  import opened RuntimeWindows
  import opened RuntimeShutdown
  import opened RuntimeLifetime
  import opened RuntimeService

  /** Some run leads from `s` to `t` while the server stays suspended. */
  ghost predicate Quietly(s: State, t: State) {
    exists es: seq<Event> :: QuietlyBy(s, es, t)
  }

  ghost predicate QuietlyBy(s: State, es: seq<Event>, t: State) {
    Possible(s, es) && After(s, es) == t && Throughout(s, es, {Suspend})
  }

  lemma QuietStay(s: State)
    requires s.server.status == Suspend
    ensures Quietly(s, s)
  {
    assert QuietlyBy(s, [], s);
  }

  lemma QuietFirst(s: State, e: Event, t: State)
    requires s.server.status == Suspend && Enabled(s, e) && Quietly(Next(s, e), t)
    ensures Quietly(s, t)
  {
    hide Enabled, Next;
    var es :| QuietlyBy(Next(s, e), es, t);
    assert ([e] + es)[1..] == es;
    assert QuietlyBy(s, [e] + es, t);
  }

  lemma QuietOn(s: State, t: State, u: State)
    requires Quietly(s, t) && Quietly(t, u)
    ensures Quietly(s, u)
  {
    var es :| QuietlyBy(s, es, t);
    QuietOnBy(s, es, t, u);
  }

  lemma {:induction false} QuietOnBy(s: State, es: seq<Event>, t: State, u: State)
    requires QuietlyBy(s, es, t) && Quietly(t, u)
    ensures Quietly(s, u)
    decreases |es|
  {
    hide Quietly, Enabled, Next;
    if es != [] {
      QuietOnBy(Next(s, es[0]), es[1..], t, u);
      QuietFirst(s, es[0], u);
    }
  }

  /** A suspended server whose listener holds it, with its books in order. */
  ghost predicate Halted(s: State) {
    && Ok(s) && RefsOk(s) && RoomBelowSentinel(s.server.maxGuest, s.server.maxHolds)
    && s.server.status == Suspend && !s.server.freed && ListenerHolds(s.front.listener)
  }

  lemma HaltedOn(s: State, e: Event)
    requires Halted(s) && Enabled(s, e) && NextServer(s, e).status == Suspend
    requires ListenerHolds(NextFront(s, e).listener)
    ensures Halted(Next(s, e))
  {
    StepOk(s, e);
    LimitsStay(s, e);
    hide Ok, NextServer, NextConns, NextFront, Enabled;
  }

  // ---- a slot becomes free ----

  /** How many steps a worker takes under suspension when recv fails. */
  function RankHalted(c: Conn): nat {
    match c.place
    case Switch => if c.status == Suspend then 5 else 11
    case Receive => 3
    case ReceiveQuiet => 3
    case NoteSuspend => 4
    case AnnounceKill => 3
    case Exit => 2
    case Release => 1
    case Connected => 8
    case Top => 7
    case CopyStatus => 6
    case TestS => 8
    case Deliver => 9
    case DeliverLate => 9
    case AckResume => 9
    case ResumeNow => 10
    case CheckAgain => 10
  }

  lemma RankFalls(c: Conn, handled: nat)
    requires c.place != Release
    ensures RankHalted(WorkerStep(c, Suspend, -1, handled)) < RankHalted(c)
  {
  }

  lemma WorkMoves(s: State, id: nat)
    requires Halted(s) && id in s.conns.active
    ensures var e, c := Work(id, -1, 0), s.conns.active[id];
            && Enabled(s, e) && NextFront(s, e) == s.front && NextServer(s, e).status == Suspend
            && NextConns(s, e).nextId == s.conns.nextId
            && (c.place == Release ==> id in NextConns(s, e).leaving)
            && (c.place != Release ==>
                  id in NextConns(s, e).active && NextConns(s, e).active[id] == WorkerStep(c, Suspend, -1, 0))
  {
    hide WorkerStep, Ok, RefsOk;
  }

  lemma {:induction false} DrainHalted(s: State, id: nat) returns (t: State)
    requires Halted(s) && id in s.conns.active
    ensures Quietly(s, t) && Halted(t) && t.front == s.front && id in t.conns.leaving
    ensures t.conns.nextId == s.conns.nextId && t.server.maxGuest == s.server.maxGuest
    decreases RankHalted(s.conns.active[id])
  {
    var c, e := s.conns.active[id], Work(id, -1, 0);
    WorkMoves(s, id);
    HaltedIs(s);
    if c.place != Release { RankFalls(c, 0); }
    hide Halted, Quietly, Enabled, WorkerStep, RankHalted, NextConns, NextServer, NextFront;
    HaltedOn(s, e);
    LimitsStay(s, e);
    if c.place == Release {
      t := Next(s, e);
      HaltedIs(t);
      QuietStay(t);
    } else {
      t := DrainHalted(Next(s, e), id);
    }
    QuietFirst(s, e, t);
  }

  lemma HaltedIs(s: State)
    requires Halted(s)
    ensures s.server.status == Suspend && !s.server.freed && ListenerHolds(s.front.listener)
  {
  }

  lemma GivesBack(s: State, id: nat)
    requires Halted(s) && id in s.conns.leaving
    ensures var e := Leave(id);
            && Enabled(s, e) && NextFront(s, e) == s.front.(count := s.front.count - 1)
            && NextServer(s, e) == s.server && NextConns(s, e).nextId == s.conns.nextId
  {
  }

  lemma SlotFrees(s: State, id: nat) returns (t: State)
    requires Halted(s) && id in s.conns.leaving
    ensures Quietly(s, t) && Halted(t) && t.front == s.front.(count := s.front.count - 1)
    ensures t.conns.nextId == s.conns.nextId && t.server.maxGuest == s.server.maxGuest
  {
    GivesBack(s, id);
    HaltedIs(s);
    hide Halted, Quietly, Enabled, NextConns, NextServer, NextFront;
    HaltedOn(s, Leave(id));
    t := Next(s, Leave(id));
    QuietStay(t);
    QuietFirst(s, Leave(id), t);
  }

  lemma Begins(s: State, id: nat)
    requires Halted(s) && id in s.conns.queued
    ensures var e := Begin(id);
            && Enabled(s, e) && NextFront(s, e) == s.front && NextServer(s, e).status == Suspend
            && NextConns(s, e).nextId == s.conns.nextId && id in NextConns(s, e).active
  {
    hide Ok, RefsOk;
  }

  /** Where a connection is dispatched and not finished, its slot can come back. */
  lemma MakeRoom(s: State) returns (t: State)
    requires Halted(s) && Size(s.conns) > 0
    ensures Quietly(s, t) && Halted(t) && t.front == s.front.(count := s.front.count - 1)
    ensures t.conns.nextId == s.conns.nextId && t.server.maxGuest == s.server.maxGuest
  {
    HaltedIs(s);
    assert s.conns.queued != {} || s.conns.active != map[] || s.conns.leaving != map[];
    hide Halted, Quietly, Enabled, NextConns, NextServer, NextFront, Size;
    if id :| id in s.conns.leaving {
      t := SlotFrees(s, id);
    } else if id :| id in s.conns.active {
      var u := DrainHalted(s, id);
      t := SlotFrees(u, id);
      QuietOn(s, u, t);
    } else {
      var id :| id in s.conns.queued;
      Begins(s, id);
      HaltedOn(s, Begin(id));
      LimitsStay(s, Begin(id));
      var b := Next(s, Begin(id));
      var u := DrainHalted(b, id);
      t := SlotFrees(u, id);
      QuietOn(b, u, t);
      QuietFirst(s, Begin(id), t);
    }
  }

  // ---- a connection comes in ----

  lemma ComesCloser(s: State)
    requires Halted(s) && s.front.listener in {CheckRoom, TakeSlot, Accepting, Deciding, Dispatching}
    requires s.front.listener == CheckRoom ==> s.front.count < s.server.maxGuest
    ensures var e := Listen(true, true);
            && Enabled(s, e) && NextServer(s, e).status == Suspend
            && NextConns(s, e).nextId == s.conns.nextId + AtDispatch(s)
            && ListenerHolds(NextFront(s, e).listener)
            && (s.front.listener != Dispatching ==>
                  && NextFront(s, e).listener in {TakeSlot, Accepting, Deciding, Dispatching}
                  && ListenerRank(NextFront(s, e).listener) < ListenerRank(s.front.listener))
  {
    hide Ok, RefsOk;
  }

  lemma {:induction false} TakesIn(s: State) returns (t: State)
    requires Halted(s) && s.front.listener in {CheckRoom, TakeSlot, Accepting, Deciding, Dispatching}
    requires s.front.listener == CheckRoom ==> s.front.count < s.server.maxGuest
    ensures Quietly(s, t) && t.conns.nextId == s.conns.nextId + 1
    decreases ListenerRank(s.front.listener)
  {
    var e := Listen(true, true);
    ComesCloser(s);
    HaltedIs(s);
    hide Halted, Quietly, Enabled, NextConns, NextServer, NextFront, ListenerRank;
    HaltedOn(s, e);
    if s.front.listener == Dispatching {
      t := Next(s, e);
      HaltedIs(t);
      QuietStay(t);
    } else {
      t := TakesIn(Next(s, e));
    }
    QuietFirst(s, e, t);
  }

  /** From a suspended server some run, under suspension throughout, dispatches a connection if and
      only if the listener has a slot in hand, or stands before the test for room and a slot is not
      lost for ever. A listener that has still to test for suspension takes nobody in. */
  lemma SuspendedDispatchIff(s: State)
    requires Reachable(s) && RoomBelowSentinel(s.server.maxGuest, s.server.maxHolds)
    requires s.server.status == Suspend && !s.server.freed
    ensures (exists t: State :: Quietly(s, t) && t.conns.nextId > s.conns.nextId)
       <==> || s.front.listener in {TakeSlot, Accepting, Deciding, Dispatching}
            || (s.front.listener == CheckRoom && s.front.failed + s.front.refused < s.server.maxGuest)
  {
    ReachableOk(s);
    if s.front.listener in {CheckRoom, TakeSlot, Accepting, Deciding, Dispatching} {
      assert Halted(s);
      if s.front.listener != CheckRoom || s.front.count < s.server.maxGuest {
        var t := TakesIn(s);
      } else if s.front.failed + s.front.refused < s.server.maxGuest {
        assert Size(s.conns) > 0;
        var u := MakeRoom(s);
        var t := TakesIn(u);
        QuietOn(s, u, t);
      } else {
        forall t: State | Quietly(s, t)
          ensures t.conns.nextId == s.conns.nextId
        {
          var es :| QuietlyBy(s, es, t);
          LostServerStaysLost(s, es);
        }
      }
    } else {
      forall t: State | Quietly(s, t)
        ensures t.conns.nextId <= s.conns.nextId
      {
        var es :| QuietlyBy(s, es, t);
        SuspendedTakesNobody(s, es);
      }
    }
  }
}
