/** The calls on the whole server: what a kill drains, and what a resume does not bring back. */
module RuntimeShutdown {
  import opened Status
  import opened Runtime
  import opened RuntimeInvariant
  import opened RuntimeWindows

  /** Nobody suspends or resumes the server or the connection `id`. */
  predicate NoCalls(es: seq<Event>, id: nat) {
    && CallSuspendServer !in es && CallResumeServer !in es
    && CallSuspendQueue(id) !in es && CallResumeQueue(id) !in es
  }

  // ---- winding down ----

  lemma WindingStep(s: State, e: Event)
    requires Started(s) && Enabled(s, e) && s.server.status in WINDING_DOWN
    requires e != CallSuspendServer && e != CallResumeServer
    ensures Next(s, e).server.status in WINDING_DOWN
  {
    hide NextConns, NextFront;
  }

  lemma {:induction false} StaysWinding(s: State, es: seq<Event>, id: nat)
    requires Started(s) && Possible(s, es) && s.server.status in WINDING_DOWN && NoCalls(es, id)
    ensures Throughout(s, es, WINDING_DOWN) && Calmly(s, es, id)
    decreases |es|
  {
    hide NextConns, NextFront, NextServer, Enabled;
    if es != [] {
      StaysStarted(s, es[0]);
      WindingStep(s, es[0]);
      assert es[0] in es && forall e :: e in es[1..] ==> e in es;
      StaysWinding(Next(s, es[0]), es[1..], id);
    }
  }

  /** The listener has passed its last test for termination and may still dispatch. */
  function OwedDispatch(l: Listener): nat {
    if l in {CheckSuspend, CheckRoom, TakeSlot, Accepting, Deciding, Dispatching} then 1 else 0
  }

  /** How many steps the listener can still take. */
  function ListenerRank(l: Listener): nat {
    match l
    case CheckSuspend => 10
    case CheckRoom => 9
    case TakeSlot => 8
    case Accepting => 7
    case Deciding => 6
    case Dispatching => 5
    case Listening => 6
    case CheckTerminate => 5
    case Loop => 4
    case Idling => 3
    case Releasing => 2
    case Notifying => 1
    case _ => 0
  }

  function ListenerSteps(es: seq<Event>): nat {
    if es == [] then 0 else (if es[0].Listen? then 1 else 0) + ListenerSteps(es[1..])
  }

  lemma ListenerStep(s: State, e: Event)
    requires ListenerOk(s) && Started(s) && Enabled(s, e) && s.server.status in WINDING_DOWN
    ensures NextConns(s, e).nextId + OwedDispatch(NextFront(s, e).listener)
         <= s.conns.nextId + OwedDispatch(s.front.listener)
    ensures ListenerRank(NextFront(s, e).listener) + (if e.Listen? then 1 else 0)
         <= ListenerRank(s.front.listener)
  {
    hide WorkerStep;
  }

  lemma {:induction false} ListenerDrains(s: State, es: seq<Event>)
    requires Ok(s) && Started(s) && Possible(s, es) && Throughout(s, es, WINDING_DOWN)
    ensures After(s, es).conns.nextId + OwedDispatch(After(s, es).front.listener)
         <= s.conns.nextId + OwedDispatch(s.front.listener)
    ensures ListenerRank(After(s, es).front.listener) + ListenerSteps(es) <= ListenerRank(s.front.listener)
    decreases |es|
  {
    hide NextConns, NextFront, NextServer, Enabled, PhasesOk, SlotsOk, TracesOk, ResumesOk, ListenerOk,
         ListenerRank, OwedDispatch;
    if es != [] {
      StepOk(s, es[0]);
      StaysStarted(s, es[0]);
      ListenerStep(s, es[0]);
      ListenerDrains(Next(s, es[0]), es[1..]);
    }
  }

  lemma KilledState(s: State, id: nat)
    requires Enabled(s, CallKillServer) && Started(s)
    ensures var killed := Next(s, CallKillServer);
            && killed.conns == s.conns && killed.front == s.front
            && killed.server.status in WINDING_DOWN && Started(killed)
            && Delivered(killed, id) == Delivered(s, id) && DownRank(killed, id) <= 12
  {
    if id in s.conns.active { RankPositive(s.conns.active[id], WINDING_DOWN); }
    hide Rank, CountOf;
  }

  lemma ListenerBounds(l: Listener)
    ensures ListenerRank(l) <= 10 && OwedDispatch(l) <= 1
  {
  }

  /** After a kill of a server whose listener block has begun, as long as nobody suspends or
      resumes, the listener dispatches at most one more connection and stops within ten steps, and
      every worker delivers at most one more payload and leaves within twelve steps of its own. */
  lemma KillDrains(s: State, es: seq<Event>, id: nat)
    requires Reachable(s) && Started(s) && Enabled(s, CallKillServer)
    requires Possible(Next(s, CallKillServer), es) && NoCalls(es, id)
    ensures Delivered(After(Next(s, CallKillServer), es), id) <= Delivered(s, id) + 1
    ensures OwnSteps(es, id) <= 12
    ensures After(Next(s, CallKillServer), es).conns.nextId <= s.conns.nextId + 1
    ensures ListenerSteps(es) <= 10
  {
    assert WINDING_DOWN <= OUT_OF_SERVICE;
    hide *;
    var killed := Next(s, CallKillServer);
    ReachableOk(s);
    StepOk(s, CallKillServer);
    KilledState(s, id);
    ListenerBounds(s.front.listener);
    StaysWinding(killed, es, id);
    AtMostOneMore(killed, es, id, WINDING_DOWN);
    DrainsWithin(killed, es, id);
    ListenerDrains(killed, es);
  }

  // ---- resuming ----

  /** A server that has begun and is not running never runs again, whatever is called, short of a
      second start, which is no step here. */
  lemma {:induction false} NeverRunsAgain(s: State, es: seq<Event>)
    requires Started(s) && Possible(s, es) && s.server.status != Running
    ensures After(s, es).server.status != Running
    decreases |es|
  {
    hide NextConns, NextFront, NextServer, Enabled, Started;
    if es != [] {
      StaysStarted(s, es[0]);
      NotRunningStep(s, es[0]);
      NeverRunsAgain(Next(s, es[0]), es[1..]);
    }
  }

  /** A run in which nobody suspends or resumes the server, and which ends with it running. */
  ghost predicate ComesToRun(s: State, es: seq<Event>) {
    && Possible(s, es) && CallSuspendServer !in es && CallResumeServer !in es
    && After(s, es).server.status == Running
  }

  /** A kill is lost, and the server runs nevertheless, in some run exactly when it came before the
      listener block stored the running status (line 351). */
  lemma KillLostIff(s: State)
    requires Reachable(s) && Enabled(s, CallKillServer) && s.server.holds > 0
    ensures (exists es: seq<Event> :: ComesToRun(Next(s, CallKillServer), es)) <==> !Started(s)
  {
    var killed := Next(s, CallKillServer);
    if Started(s) {
      StaysStarted(s, CallKillServer);
      forall es: seq<Event> | Possible(killed, es)
        ensures !ComesToRun(killed, es)
      {
        NeverRunsAgain(killed, es);
      }
    } else {
      var begin := Listen(false, false);
      if s.front.listener == NotStarted {
        BlockBegins(Next(killed, Start));
        assert [Start, begin][1..] == [begin];
        assert ComesToRun(killed, [Start, begin]);
      } else {
        BlockBegins(killed);
      }
    }
  }

  lemma BlockBegins(s: State)
    requires s.front.listener == Queued && !s.server.freed
    ensures ComesToRun(s, [Listen(false, false)])
  {
    var begin := Listen(false, false);
    assert [begin][1..] == [];
    assert After(s, [begin]) == Next(s, begin);
  }

  /** Killed right after SXServerStart has returned, a server can still come to run. */
  lemma EarlyKillIsLost(maxGuest: nat, maxHolds: nat)
    requires maxHolds > 0
    ensures exists s: State :: Reaches(maxGuest, maxHolds, [Start, CallKillServer, Listen(true, true)], s)
              && s.server.status == Running
  {
    var es := [Start, CallKillServer, Listen(true, true)];
    assert es[1..] == [CallKillServer, Listen(true, true)];
    assert Reaches(maxGuest, maxHolds, es, After(Init(maxGuest, maxHolds), es));
  }

  lemma ResumingStep(s: State, e: Event)
    requires Started(s) && ListenerOk(s) && Enabled(s, e) && s.server.status == Resuming && e != CallKillServer
    ensures Next(s, e).server.status == Resuming
  {
    hide NextConns, NextFront;
  }

  lemma {:induction false} StaysResuming(s: State, es: seq<Event>)
    requires Ok(s) && Started(s) && Possible(s, es) && s.server.status == Resuming && CallKillServer !in es
    ensures Throughout(s, es, {Resuming}) && After(s, es).server.status == Resuming
    decreases |es|
  {
    hide NextConns, NextFront, NextServer, Enabled, Started, PhasesOk, SlotsOk, TracesOk, ResumesOk, ListenerOk;
    if es != [] {
      assert es[0] in es && forall e :: e in es[1..] ==> e in es;
      StepOk(s, es[0]);
      StaysStarted(s, es[0]);
      ResumingStep(s, es[0]);
      StaysResuming(Next(s, es[0]), es[1..]);
    }
  }

  /** After a successful resume of the server, until it is killed or started a second time, which is
      no step here, it stays resuming and no connection gets more than one further payload: service
      does not come back. */
  lemma ResumedServerStarves(s: State, es: seq<Event>, id: nat)
    requires Reachable(s) && Started(s) && Enabled(s, CallResumeServer) && MayResume(s.server.status)
    requires Possible(Next(s, CallResumeServer), es) && CallKillServer !in es
    ensures After(Next(s, CallResumeServer), es).server.status == Resuming
    ensures Delivered(After(Next(s, CallResumeServer), es), id) <= Delivered(s, id) + 1
  {
    var resumed := Next(s, CallResumeServer);
    ReachableOk(s);
    StepOk(s, CallResumeServer);
    StaysStarted(s, CallResumeServer);
    assert resumed.conns == s.conns && resumed.server.status == Resuming;
    hide Ok, Enabled, Reachable, CountOf, Started, NextServer, NextConns, NextFront, MayResume, DownOwed;
    StaysResuming(resumed, es);
    AtMostOneMore(resumed, es, id, {Resuming});
  }

  // ---- a resumed server answers its one resume without end ----

  function Alone(id: nat, n: nat): seq<Event> {
    if n == 0 then [] else [Work(id, 0, 0)] + Alone(id, n - 1)
  }

  /** What a worker becomes when it takes `n` steps under this server status. */
  function Steps(c: Conn, server: Status, n: nat): Conn
    decreases n
  {
    if n == 0 || c.place == Release then c else Steps(WorkerStep(c, server, 0, 0), server, n - 1)
  }

  predicate NeverReleases(c: Conn, server: Status, n: nat)
    decreases n
  {
    c.place != Release && (n == 0 || NeverReleases(WorkerStep(c, server, 0, 0), server, n - 1))
  }

  lemma {:induction false} AloneRuns(s: State, id: nat, n: nat)
    requires id in s.conns.active && !s.server.freed
    requires NeverReleases(s.conns.active[id], s.server.status, n)
    ensures Possible(s, Alone(id, n))
    ensures After(s, Alone(id, n)) == WithConn(s, id, Steps(s.conns.active[id], s.server.status, n))
    decreases n
  {
    var c := s.conns.active[id];
    if n == 0 {
      assert s.conns.active[id := c] == s.conns.active;
    } else {
      var e := Work(id, 0, 0);
      var c' := WorkerStep(c, s.server.status, 0, 0);
      assert Next(s, e) == WithConn(s, id, c');
      hide WorkerStep;
      AloneRuns(WithConn(s, id, c'), id, n - 1);
      assert Alone(id, n)[1..] == Alone(id, n - 1);
    }
  }

  /** From the top of the loop back to the top: one more acknowledgement, nothing delivered. */
  lemma SpinOnce(c: Conn, n: nat)
    requires c.place == Top && c.s > 0
    ensures var c' := Log(c, DidResume).(status := Running);
            && Steps(c, Resuming, n + 6) == Steps(c', Resuming, n)
            && NeverReleases(c, Resuming, n + 6) == NeverReleases(c', Resuming, n)
  {
    var c1 := WorkerStep(c, Resuming, 0, 0);
    var c2 := WorkerStep(c1, Resuming, 0, 0);
    var c3 := WorkerStep(c2, Resuming, 0, 0);
    var c4 := WorkerStep(c3, Resuming, 0, 0);
    var c5 := WorkerStep(c4, Resuming, 0, 0);
    var c6 := WorkerStep(c5, Resuming, 0, 0);
    assert c1.place == CopyStatus && c2.place == Switch && c3.place == ResumeNow;
    assert c4.place == AckResume && c5.place == TestS && c6 == Log(c, DidResume).(status := Running);
    hide WorkerStep;
    assert Steps(c, Resuming, n + 6) == Steps(c1, Resuming, n + 5);
    assert Steps(c1, Resuming, n + 5) == Steps(c2, Resuming, n + 4);
    assert Steps(c2, Resuming, n + 4) == Steps(c3, Resuming, n + 3);
    assert Steps(c3, Resuming, n + 3) == Steps(c4, Resuming, n + 2);
    assert Steps(c4, Resuming, n + 2) == Steps(c5, Resuming, n + 1);
    assert NeverReleases(c, Resuming, n + 6) == NeverReleases(c1, Resuming, n + 5);
    assert NeverReleases(c1, Resuming, n + 5) == NeverReleases(c2, Resuming, n + 4);
    assert NeverReleases(c2, Resuming, n + 4) == NeverReleases(c3, Resuming, n + 3);
    assert NeverReleases(c3, Resuming, n + 3) == NeverReleases(c4, Resuming, n + 2);
    assert NeverReleases(c4, Resuming, n + 2) == NeverReleases(c5, Resuming, n + 1);
  }

  lemma {:induction false} SpinMany(c: Conn, n: nat)
    requires c.place == Top && c.s > 0
    ensures NeverReleases(c, Resuming, 6 * n)
    ensures Steps(c, Resuming, 6 * n).place == Top
    ensures CountOf(Steps(c, Resuming, 6 * n).trace, DidResume) == CountOf(c.trace, DidResume) + n
    decreases n
  {
    if n > 0 {
      SpinOnce(c, 6 * (n - 1));
      CountMore(c.trace, DidResume, DidResume);
      hide Steps, NeverReleases, WorkerStep, CountOf;
      SpinMany(Log(c, DidResume).(status := Running), n - 1);
    }
  }

  lemma {:induction false} AloneWorks(id: nat, n: nat)
    ensures forall e :: e in Alone(id, n) ==> e == Work(id, 0, 0)
    decreases n
  {
    if n > 0 { AloneWorks(id, n - 1); }
  }

  /** From this state, by steps of the worker alone, the connection acknowledges `n` more resumes
      and its worker is back at the top of its loop. */
  ghost predicate Acknowledges(s: State, es: seq<Event>, id: nat, n: nat) {
    && Possible(s, es) && (forall e :: e in es ==> e == Work(id, 0, 0))
    && id in s.conns.active && id in After(s, es).conns.active
    && After(s, es).conns.active[id].place == Top
    && CountOf(After(s, es).conns.active[id].trace, DidResume)
    == CountOf(s.conns.active[id].trace, DidResume) + n
  }

  /** Under a resuming server a worker can acknowledge the one resume any number of times without
      any further call, and is still at the top of its loop. */
  lemma OneResumeManyAcknowledgements(s: State, id: nat, n: nat)
    requires id in s.conns.active && !s.server.freed && s.server.status == Resuming
    requires s.conns.active[id].place == Top && s.conns.active[id].s > 0
    ensures Acknowledges(s, Alone(id, 6 * n), id, n)
  {
    SpinMany(s.conns.active[id], n);
    AloneWorks(id, 6 * n);
    hide Steps, NeverReleases, CountOf;
    AloneRuns(s, id, 6 * n);
  }
}
