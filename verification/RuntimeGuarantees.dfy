/** What callers of the threaded server can rely on, over whole runs. */
module RuntimeGuarantees {
  import opened Status
  import opened Runtime
  import opened RuntimeInvariant

  // ---- the callbacks of one connection ----

  /** Deliveries and resumes in any order, and at most one announcement of a suspension. */
  ghost predicate IsBody(body: seq<Callback>) {
    && (forall k :: 0 <= k < |body| ==> body[k] == Data || body[k] == DidResume || body[k] == WillSuspend)
    && CountOf(body, WillSuspend) <= 1
  }

  /** The shape of everything that one connection tells its handlers. */
  ghost predicate InLanguage(trace: seq<Callback>) {
    exists body: seq<Callback>, kill: seq<Callback> ::
      && trace == [DidConnect] + body + kill + [DidDisconnect]
      && IsBody(body) && (kill == [] || kill == [WillKill])
  }

  lemma {:induction false} BodyIsServing(body: seq<Callback>)
    requires IsBody(body)
    ensures HearAll([DidConnect] + body) == Serving(CountOf(body, WillSuspend) == 1)
    decreases |body|
  {
    if body == [] {
      assert HearAll([]) == Nothing;
      OneMore([], DidConnect);
    } else {
      var n := |body| - 1;
      BodyIsServing(body[..n]);
      OneMore([DidConnect] + body[..n], body[n]);
      assert [DidConnect] + body == ([DidConnect] + body[..n]) + [body[n]];
    }
  }

  lemma {:induction false} ServingHasBody(trace: seq<Callback>)
    requires HearAll(trace).Serving?
    ensures trace != [] && trace[0] == DidConnect && IsBody(trace[1..])
    ensures HearAll(trace).toldSuspend == (CountOf(trace[1..], WillSuspend) == 1)
    decreases |trace|
  {
    var n := |trace| - 1;
    if n > 0 {
      assert HearAll(trace[..n]) != Nothing by { SomethingHeard(trace[..n]); }
      ServingHasBody(trace[..n]);
      assert trace[1..] == trace[..n][1..] + [trace[n]];
      CountMore(trace[..n][1..], trace[n], WillSuspend);
    }
  }

  lemma SomethingHeard(trace: seq<Callback>)
    requires trace != []
    ensures HearAll(trace) != Nothing
  {
  }

  lemma HearLast(trace: seq<Callback>)
    requires trace != []
    ensures HearAll(trace) == Hear(HearAll(trace[..|trace| - 1]), trace[|trace| - 1])
    ensures trace == trace[..|trace| - 1] + [trace[|trace| - 1]]
  {
    var before, last := trace[..|trace| - 1], trace[|trace| - 1];
    hide HearAll, Hear;
    assert trace == before + [last];
    OneMore(before, last);
  }

  lemma Witness(body: seq<Callback>, kill: seq<Callback>)
    requires IsBody(body) && (kill == [] || kill == [WillKill])
    ensures InLanguage([DidConnect] + body + kill + [DidDisconnect])
  {
  }

  lemma ClosedInLanguage(trace: seq<Callback>)
    requires HearAll(trace) == Closed
    ensures InLanguage(trace)
  {
    assert trace != [];
    hide *;
    HearLast(trace);
    var before := trace[..|trace| - 1];
    ClosedFrom(HearAll(before), trace[|trace| - 1]);
    if HearAll(before).Serving? {
      ServingHasBody(before);
      assert trace == [DidConnect] + before[1..] + [] + [DidDisconnect];
      Witness(before[1..], []);
    } else {
      EmptyHearsNothing();
      HearLast(before);
      var earlier := before[..|before| - 1];
      KilledFrom(HearAll(earlier), before[|before| - 1]);
      ServingHasBody(earlier);
      assert trace == [DidConnect] + earlier[1..] + [WillKill] + [DidDisconnect];
      Witness(earlier[1..], [WillKill]);
    }
  }

  lemma EmptyHearsNothing()
    ensures HearAll([]) == Nothing
  {
  }

  lemma ClosedFrom(h: Heard, what: Callback)
    requires Hear(h, what) == Closed
    ensures what == DidDisconnect && (h.Serving? || h == Killed)
  {
  }

  lemma KilledFrom(h: Heard, what: Callback)
    requires Hear(h, what) == Killed
    ensures what == WillKill && h.Serving?
  {
  }

  lemma LanguageCloses(body: seq<Callback>, kill: seq<Callback>)
    requires IsBody(body) && (kill == [] || kill == [WillKill])
    ensures HearAll([DidConnect] + body + kill + [DidDisconnect]) == Closed
  {
    BodyIsServing(body);
    hide HearAll, IsBody;
    OneMore([DidConnect] + body, WillKill);
    assert [DidConnect] + body + [] == [DidConnect] + body;
    OneMore([DidConnect] + body + kill, DidDisconnect);
  }

  /** The callbacks of a finished connection are exactly those of this shape. */
  lemma ClosedIffInLanguage(trace: seq<Callback>)
    ensures HearAll(trace) == Closed <==> InLanguage(trace)
  {
    hide HearAll, IsBody;
    if HearAll(trace) == Closed {
      ClosedInLanguage(trace);
    }
    if InLanguage(trace) {
      var body, kill :| trace == [DidConnect] + body + kill + [DidDisconnect]
                        && IsBody(body) && (kill == [] || kill == [WillKill]);
      LanguageCloses(body, kill);
    }
  }

  function TraceOfDone(c: Conns, id: nat): seq<Callback>
    requires id in c.finished || id in c.leaving
  {
    if id in c.finished then c.finished[id].trace else c.leaving[id].trace
  }

  lemma DoneIsClosed(c: Conns, id: nat)
    requires TracesOk(c) && (id in c.finished || id in c.leaving)
    ensures HearAll(TraceOfDone(c, id)) == Closed
  {
    hide HearAll;
  }

  /** Every connection that is done has told its handlers a trace of this shape. */
  lemma FinishedInLanguage(s: State, id: nat)
    requires Reachable(s) && (id in s.conns.finished || id in s.conns.leaving)
    ensures InLanguage(TraceOfDone(s.conns, id))
  {
    ReachableOk(s);
    hide HearAll, InLanguage, TracesOk, TraceOfDone;
    DoneIsClosed(s.conns, id);
    ClosedIffInLanguage(TraceOfDone(s.conns, id));
  }

  // ---- slots ----

  /** The guest count is exactly what took a slot and did not give it back. */
  lemma SlotConservation(s: State)
    requires Reachable(s)
    ensures s.front.count == |s.conns.queued| + |s.conns.active| + |s.conns.leaving|
                             + s.front.failed + s.front.refused + PendingSlot(s.front.listener)
    ensures 0 <= s.front.count <= s.server.maxGuest
    ensures |s.conns.queued| + |s.conns.active| + |s.conns.leaving|
         <= s.server.maxGuest - s.front.failed - s.front.refused
  {
    ReachableOk(s);
  }

  /** Failed and refused connections never give their slot back. */
  lemma LostSlotsGrow(s: State, e: Event)
    requires Enabled(s, e)
    ensures NextFront(s, e).failed >= s.front.failed && NextFront(s, e).refused >= s.front.refused
  {
  }

  lemma FullNeverDispatches(s: State, e: Event)
    requires Ok(s) && Enabled(s, e) && s.front.failed + s.front.refused == s.server.maxGuest
    ensures NextConns(s, e).nextId == s.conns.nextId
    ensures NextFront(s, e).failed + NextFront(s, e).refused == s.server.maxGuest
  {
    StepOk(s, e);
    LimitsStay(s, e);
    LostSlotsGrow(s, e);
    hide FrontStep, WorkerStep;
  }

  lemma {:induction false} LostStaysLost(s: State, es: seq<Event>)
    requires Ok(s) && Possible(s, es) && s.front.failed + s.front.refused == s.server.maxGuest
    ensures After(s, es).conns.nextId == s.conns.nextId
    decreases |es|
  {
    hide Ok, NextFront, NextConns, NextServer;
    if es != [] {
      FullNeverDispatches(s, es[0]);
      StepOk(s, es[0]);
      LimitsStay(s, es[0]);
      LostStaysLost(Next(s, es[0]), es[1..]);
    }
  }

  /** Once every slot is lost, no connection is ever dispatched again. */
  lemma LostServerStaysLost(s: State, es: seq<Event>)
    requires Reachable(s) && Possible(s, es) && s.front.failed + s.front.refused == s.server.maxGuest
    ensures After(s, es).conns.nextId == s.conns.nextId
  {
    ReachableOk(s);
    LostStaysLost(s, es);
  }

  // ---- resumes ----

  /** While the server runs, every successful resume of a connection is either acknowledged or
      still to be acknowledged by its worker: none is lost and none is answered twice. */
  lemma NoResumeLost(s: State, id: nat)
    requires Reachable(s) && s.server.status == Running && id in s.conns.active
    ensures var c := s.conns.active[id];
            var waiting := c.resumes - CountOf(c.trace, DidResume) - (if c.place == AckResume then 1 else 0);
            && 0 <= waiting <= 1
            && (waiting == 1 <==> c.status == Resuming)
  {
    ReachableOk(s);
  }
}
