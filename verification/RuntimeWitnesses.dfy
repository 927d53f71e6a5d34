/** Runs from a new server that show what can really happen: one resume of the server that is
    acknowledged without end, and every word of the callback language. */
module RuntimeWitnesses {
  import opened Status
  import opened Runtime
  import opened RuntimeInvariant
  import opened RuntimeGuarantees
  import opened RuntimeShutdown
  import opened RuntimeLifetime

  /** A server in this status that serves the one connection that it has accepted. */
  function Serves(maxGuest: nat, status: Status, c: Conn): State {
    State(Server(maxGuest, 1, status, 3, false, 1), Front(Loop, 1, 0, 0),
          Conns({}, map[0 := c], map[], map[], 1))
  }

  lemma ToFirstConnection(maxGuest: nat) returns (es: seq<Event>)
    requires maxGuest > 0
    ensures Possible(Init(maxGuest, 1), es)
    ensures After(Init(maxGuest, 1), es) == Serves(maxGuest, Running, NewConn())
    ensures forall e :: e in es ==> e.Start? || LibraryStep(e)
  {
    var init := Init(maxGuest, 1);
    assert Possible(init, []) && After(init, []) == init;
    hide Possible, After;
    var s1 := init.(server := Server(maxGuest, 1, Idle, 2, false, 1), front := Front(Queued, 0, 0, 0));
    var s2 := init.(server := Server(maxGuest, 1, Running, 2, false, 1), front := Front(Loop, 0, 0, 0));
    var s3 := s2.(front := Front(Loop, 1, 0, 0), conns := Conns({0}, map[], map[], map[], 1));
    es := Go(init, [], init, Start, s1);
    es := Go(init, es, s1, Listen(true, true), s2);
    es := ToTheSlot(init, es, s2);
    es := FromTheSlot(init, es, s2);
    assert At(WithSlot(s2), Loop).(conns := Dispatched(s2.conns, Dispatching)) == s3;
    es := Go(init, es, s3, Begin(0), Serves(maxGuest, Running, NewConn()));
  }

  lemma WorkServes(maxGuest: nat, status: Status, c: Conn, received: int, handled: nat)
    requires c.place != Release && received >= -1
    ensures var s := Serves(maxGuest, status, c);
            && Enabled(s, Work(0, received, handled))
            && Next(s, Work(0, received, handled))
            == Serves(maxGuest, status, WorkerStep(c, status, received, handled))
  {
    var c' := WorkerStep(c, status, received, handled);
    assert map[0 := c][0 := c'] == map[0 := c'];
  }

  // ---- one resume of the server ----

  /** A run with exactly one resume, that of the server, and `n` acknowledgements on a connection. */
  ghost predicate OneResume(maxGuest: nat, es: seq<Event>, n: nat) {
    && Possible(Init(maxGuest, 1), es)
    && multiset(es)[CallResumeServer] == 1 && (forall e :: e in es ==> !e.CallResumeQueue?)
    && 0 in After(Init(maxGuest, 1), es).conns.active
    && CountOf(After(Init(maxGuest, 1), es).conns.active[0].trace, DidResume) == n
  }

  lemma {:induction false} Concat(s: State, es: seq<Event>, fs: seq<Event>)
    requires Possible(s, es) && Possible(After(s, es), fs)
    ensures Possible(s, es + fs) && After(s, es + fs) == After(After(s, es), fs)
    decreases |es|
  {
    hide Enabled, Next;
    if es == [] {
      assert [] + fs == fs;
    } else {
      Concat(Next(s, es[0]), es[1..], fs);
      assert (es + fs)[1..] == es[1..] + fs;
    }
  }

  lemma ToResuming(maxGuest: nat) returns (es: seq<Event>)
    requires maxGuest > 0
    ensures Possible(Init(maxGuest, 1), es)
    ensures After(Init(maxGuest, 1), es)
         == Serves(maxGuest, Resuming, Conn(Running, Top, 1, false, [DidConnect], 0))
    ensures multiset(es)[CallResumeServer] == 1 && forall e :: e in es ==> !e.CallResumeQueue?
  {
    var init := Init(maxGuest, 1);
    var c := Conn(Running, Top, 1, false, [DidConnect], 0);
    es := ToFirstConnection(maxGuest);
    hide Possible, After;
    assert CallResumeServer !in es;
    WorkServes(maxGuest, Running, NewConn(), 0, 0);
    assert WorkerStep(NewConn(), Running, 0, 0) == c;
    es := Go(init, es, Serves(maxGuest, Running, NewConn()), Work(0, 0, 0), Serves(maxGuest, Running, c));
    es := Go(init, es, Serves(maxGuest, Running, c), CallSuspendServer, Serves(maxGuest, Suspend, c));
    es := Go(init, es, Serves(maxGuest, Suspend, c), CallResumeServer, Serves(maxGuest, Resuming, c));
  }

  /** For every number there is a run from a new server in which one resume of the server, and no
      resume of a connection, is acknowledged that many times on one connection. */
  lemma OneResumeAcknowledged(maxGuest: nat, n: nat)
    requires maxGuest > 0
    ensures exists es: seq<Event> :: OneResume(maxGuest, es, n)
  {
    var es := ToResuming(maxGuest);
    var c := Conn(Running, Top, 1, false, [DidConnect], 0);
    var s := Serves(maxGuest, Resuming, c);
    OneResumeManyAcknowledgements(s, 0, n);
    assert CountOf([DidConnect], DidResume) == 0;
    hide Possible, After, Alone, CountOf;
    Concat(Init(maxGuest, 1), es, Alone(0, 6 * n));
    AloneWorks(0, 6 * n);
    assert CallResumeServer !in Alone(0, 6 * n);
    assert multiset(es + Alone(0, 6 * n)) == multiset(es) + multiset(Alone(0, 6 * n));
    assert OneResume(maxGuest, es + Alone(0, 6 * n), n);
  }

  // ---- every word of the callback language ----

  lemma ReachableOn(s: State, e: Event)
    requires Reachable(s) && Enabled(s, e)
    ensures Reachable(Next(s, e))
  {
    hide Possible, After, Enabled, Next;
    var maxGuest, maxHolds, es :| Reaches(maxGuest, maxHolds, es, s);
    Extend(Init(maxGuest, maxHolds), es, e);
    assert Reaches(maxGuest, maxHolds, es + [e], Next(s, e));
  }

  /** Some run leads to a server in this status with this one connection. */
  ghost predicate Can(maxGuest: nat, status: Status, c: Conn) {
    Reachable(Serves(maxGuest, status, c))
  }

  lemma CanConnect(maxGuest: nat)
    requires maxGuest > 0
    ensures Can(maxGuest, Running, NewConn())
  {
    hide Possible, After;
    var es := ToFirstConnection(maxGuest);
    assert Reaches(maxGuest, 1, es, Serves(maxGuest, Running, NewConn()));
  }

  lemma CanWork(maxGuest: nat, status: Status, c: Conn, received: int, handled: nat) returns (d: Conn)
    requires Can(maxGuest, status, c) && c.place != Release && received >= -1
    ensures d == WorkerStep(c, status, received, handled) && Can(maxGuest, status, d)
  {
    d := WorkerStep(c, status, received, handled);
    hide WorkerStep, Reachable, Enabled, Next;
    WorkServes(maxGuest, status, c, received, handled);
    ReachableOn(Serves(maxGuest, status, c), Work(0, received, handled));
  }

  lemma CanResume(maxGuest: nat, status: Status, c: Conn) returns (d: Conn)
    requires Can(maxGuest, status, c)
    ensures d == AfterResumeQueue(c) && Can(maxGuest, status, d)
  {
    d := AfterResumeQueue(c);
    hide Reachable;
    ReachableOn(Serves(maxGuest, status, c), CallResumeQueue(0));
    assert map[0 := c][0 := d] == map[0 := d];
  }

  lemma CanSuspend(maxGuest: nat, status: Status, c: Conn) returns (d: Conn)
    requires Can(maxGuest, status, c)
    ensures d == AfterSuspendQueue(c) && Can(maxGuest, status, d)
  {
    d := AfterSuspendQueue(c);
    hide Reachable;
    ReachableOn(Serves(maxGuest, status, c), CallSuspendQueue(0));
    assert map[0 := c][0 := d] == map[0 := d];
  }

  lemma CanSuspendServer(maxGuest: nat, c: Conn)
    requires Can(maxGuest, Running, c)
    ensures Can(maxGuest, Suspend, c)
  {
    hide Reachable;
    ReachableOn(Serves(maxGuest, Running, c), CallSuspendServer);
  }

  lemma CanKill(maxGuest: nat, status: Status, c: Conn)
    requires Can(maxGuest, status, c)
    ensures Can(maxGuest, ShouldTerminate, c)
  {
    hide Reachable;
    ReachableOn(Serves(maxGuest, status, c), CallKillServer);
  }

  /** A worker at the top of its loop, under a running server until its connection is told of a
      suspension and under a suspended server from then on. */
  ghost predicate AtTop(maxGuest: nat, c: Conn, trace: seq<Callback>) {
    && c.place == Top && c.s == 1 && c.trace == trace
    && (!c.suspended ==> c.status == Running)
    && Can(maxGuest, if c.suspended then Suspend else Running, c)
  }

  /** Another payload or another resume, before any suspension. */
  lemma TellRunning(maxGuest: nat, c: Conn, what: Callback) returns (d: Conn)
    requires AtTop(maxGuest, c, c.trace) && !c.suspended && (what == Data || what == DidResume)
    ensures AtTop(maxGuest, d, c.trace + [what]) && !d.suspended
  {
    hide Can;
    d := c;
    if what == DidResume {
      d := CanSuspend(maxGuest, Running, d);
      d := CanResume(maxGuest, Running, d);
    }
    d := CanWork(maxGuest, Running, d, 1, 1);
    d := CanWork(maxGuest, Running, d, 1, 1);
    d := CanWork(maxGuest, Running, d, 1, 1);
    d := CanWork(maxGuest, Running, d, 1, 1);
    d := CanWork(maxGuest, Running, d, 1, 1);
  }

  /** The first suspension. */
  lemma TellSuspend(maxGuest: nat, c: Conn) returns (d: Conn)
    requires AtTop(maxGuest, c, c.trace) && !c.suspended
    ensures AtTop(maxGuest, d, c.trace + [WillSuspend]) && d.suspended
  {
    hide Can;
    CanSuspendServer(maxGuest, c);
    d := ToNote(maxGuest, c);
    d := CanWork(maxGuest, Suspend, d, 1, 1);
    d := CanWork(maxGuest, Suspend, d, 1, 1);
    d := CanWork(maxGuest, Suspend, d, 1, 1);
    d := CanWork(maxGuest, Suspend, d, 1, 1);
  }

  /** Under a suspended server the worker copies the status and takes the suspended branch. */
  lemma ToNote(maxGuest: nat, c: Conn) returns (d: Conn)
    requires Can(maxGuest, Suspend, c) && c.place == Top
    ensures Can(maxGuest, Suspend, d) && d == c.(status := Suspend, place := NoteSuspend)
  {
    hide Can;
    d := CanWork(maxGuest, Suspend, c, 1, 1);
    d := CanWork(maxGuest, Suspend, d, 1, 1);
    d := CanWork(maxGuest, Suspend, d, 1, 1);
  }

  /** Another payload or another resume, under suspension. */
  lemma TellSuspended(maxGuest: nat, c: Conn, what: Callback) returns (d: Conn)
    requires AtTop(maxGuest, c, c.trace) && c.suspended && (what == Data || what == DidResume)
    ensures AtTop(maxGuest, d, c.trace + [what]) && d.suspended
  {
    hide Can;
    if what == Data {
      d := ToNote(maxGuest, c);
      d := CanWork(maxGuest, Suspend, d, 1, 1);
      d := CanWork(maxGuest, Suspend, d, 1, 1);
      d := CanResume(maxGuest, Suspend, d);
      d := CanWork(maxGuest, Suspend, d, 1, 1);
      d := CanWork(maxGuest, Suspend, d, 1, 1);
      d := CanWork(maxGuest, Suspend, d, 1, 1);
    } else {
      d := CanWork(maxGuest, Suspend, c, 1, 1);
      d := CanWork(maxGuest, Suspend, d, 1, 1);
      d := CanResume(maxGuest, Suspend, d);
      d := CanWork(maxGuest, Suspend, d, 1, 1);
      d := CanWork(maxGuest, Suspend, d, 1, 1);
      d := CanWork(maxGuest, Suspend, d, 1, 1);
      d := CanWork(maxGuest, Suspend, d, 1, 1);
    }
  }

  lemma {:induction false} SayAll(maxGuest: nat, body: seq<Callback>) returns (c: Conn)
    requires maxGuest > 0 && IsBody(body)
    ensures AtTop(maxGuest, c, [DidConnect] + body)
    ensures c.suspended == (CountOf(body, WillSuspend) == 1)
    decreases |body|
  {
    hide Can;
    if body == [] {
      CanConnect(maxGuest);
      c := CanWork(maxGuest, Running, NewConn(), 1, 1);
    } else {
      var n := |body| - 1;
      var b := SayAll(maxGuest, body[..n]);
      assert [DidConnect] + body == ([DidConnect] + body[..n]) + [body[n]];
      hide AtTop;
      SameTrace(maxGuest, b, [DidConnect] + body[..n]);
      if body[n] == WillSuspend {
        c := TellSuspend(maxGuest, b);
      } else if b.suspended {
        c := TellSuspended(maxGuest, b, body[n]);
      } else {
        c := TellRunning(maxGuest, b, body[n]);
      }
    }
  }

  lemma SameTrace(maxGuest: nat, c: Conn, trace: seq<Callback>)
    requires AtTop(maxGuest, c, trace)
    ensures c.trace == trace && AtTop(maxGuest, c, c.trace)
  {
  }

  /** From the top of the loop out of it, with the announcement of a kill or without. */
  lemma Leaves(maxGuest: nat, c: Conn, kill: seq<Callback>) returns (status: Status, d: Conn)
    requires AtTop(maxGuest, c, c.trace) && (kill == [] || kill == [WillKill])
    ensures Can(maxGuest, status, d) && d.place == Exit && d.trace == c.trace + kill
  {
    hide Can;
    if kill == [WillKill] {
      status := ShouldTerminate;
      CanKill(maxGuest, if c.suspended then Suspend else Running, c);
      d := CanWork(maxGuest, status, c, 1, 1);
      d := CanWork(maxGuest, status, d, 1, 1);
      d := CanWork(maxGuest, status, d, 1, 1);
      d := CanWork(maxGuest, status, d, 1, 1);
    } else if c.suspended {
      status := Suspend;
      d := ToNote(maxGuest, c);
      d := CanWork(maxGuest, status, d, 1, 1);
      d := CanWork(maxGuest, status, d, -1, 1);
    } else {
      status := Running;
      d := CanWork(maxGuest, status, c, 1, 1);
      d := CanWork(maxGuest, status, d, 1, 1);
      d := CanWork(maxGuest, status, d, -1, 1);
    }
  }

  /** The connection is finished in a reachable state, and has told this trace. */
  ghost predicate Finishes(s: State, id: nat, trace: seq<Callback>) {
    Reachable(s) && id in s.conns.finished && s.conns.finished[id].trace == trace
  }

  lemma WordFinishes(body: seq<Callback>, kill: seq<Callback>) returns (s: State)
    requires IsBody(body) && (kill == [] || kill == [WillKill])
    ensures Finishes(s, 0, [DidConnect] + body + kill + [DidDisconnect])
  {
    hide IsBody, Reachable;
    var c := SayAll(1, body);
    var status, d := Leaves(1, c, kill);
    d := CanWork(1, status, d, 1, 1);
    s := Serves(1, status, d);
    ReachableOn(s, Work(0, 1, 1));
    s := Next(s, Work(0, 1, 1));
    ReachableOn(s, Leave(0));
    s := Next(s, Leave(0));
  }

  /** The traces of finished connections are exactly the words of the callback language. */
  lemma LanguageIffFinished(trace: seq<Callback>)
    ensures InLanguage(trace) <==> exists s: State, id: nat :: Finishes(s, id, trace)
  {
    hide IsBody, Reachable;
    if InLanguage(trace) {
      var body, kill :| trace == [DidConnect] + body + kill + [DidDisconnect]
                        && IsBody(body) && (kill == [] || kill == [WillKill]);
      var s := WordFinishes(body, kill);
    }
    forall s: State, id: nat | Finishes(s, id, trace)
      ensures InLanguage(trace)
    {
      FinishedInLanguage(s, id);
    }
  }
}
