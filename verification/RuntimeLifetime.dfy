/** The life of the server object: who holds it, when it is freed, when the sentinel value of the
    reference count keeps it for ever, and who still touches it after it is gone. */
module RuntimeLifetime {
  import opened RefCounting
  import opened Status
  import opened Runtime
  import opened RuntimeInvariant

  /** There is room below the sentinel for every reference that can exist at once. */
  predicate RoomBelowSentinel(maxGuest: nat, maxHolds: nat) {
    maxHolds + maxGuest + 1 < WEAK
  }

  /** The reference count is the number of holders: callers, listener and working workers. */
  lemma CountIsHolders(s: State)
    requires Reachable(s) && RoomBelowSentinel(s.server.maxGuest, s.server.maxHolds) && !s.server.freed
    ensures s.server.refCount
         == s.server.holds + (if ListenerHolds(s.front.listener) then 1 else 0) + |s.conns.active|
    ensures s.server.refCount != WEAK
  {
    ReachableOk(s);
    BelowSentinel(s);
  }

  /** A step frees the server exactly when it takes away the last holder. */
  lemma FreedWithLastHolder(s: State, e: Event)
    requires Reachable(s) && RoomBelowSentinel(s.server.maxGuest, s.server.maxHolds)
    requires Enabled(s, e) && !s.server.freed
    ensures Next(s, e).server.freed <==> Holders(Next(s, e)) == 0
  {
    ReachableOk(s);
    StepOk(s, e);
  }

  // ---- the sentinel ----

  /** A server whose count has met the sentinel is never freed and its count never moves again. */
  lemma {:induction false} WeakForEver(s: State, es: seq<Event>)
    requires Possible(s, es) && s.server.refCount == WEAK && !s.server.freed
    ensures After(s, es).server.refCount == WEAK && !After(s, es).server.freed
    decreases |es|
  {
    hide NextConns, NextFront, Enabled;
    if es != [] {
      WeakForEver(Next(s, es[0]), es[1..]);
    }
  }

  /** A run can go on by a step whose effect is known. */
  lemma Go(s: State, es: seq<Event>, t: State, e: Event, t': State) returns (longer: seq<Event>)
    requires Possible(s, es) && After(s, es) == t && Enabled(t, e) && Next(t, e) == t'
    ensures Possible(s, longer) && After(s, longer) == t' && longer == es + [e]
  {
    Extend(s, es, e);
    longer := es + [e];
  }

  /** A listener at its loop, in a running server with room for `n` more connections. */
  ghost predicate Waiting(s: State, n: nat) {
    && s.server.status == Running && !s.server.freed
    && s.front.listener == Loop && 0 <= s.front.count && s.front.count + n <= s.server.maxGuest
  }

  function At(s: State, listener: Listener): State {
    s.(front := s.front.(listener := listener))
  }

  lemma ToTheSlot(s: State, es: seq<Event>, t: State) returns (longer: seq<Event>)
    requires Possible(s, es) && After(s, es) == t && Waiting(t, 1)
    ensures Possible(s, longer) && After(s, longer) == At(t, TakeSlot)
    ensures forall e :: e in longer ==> e in es || e.Listen?
  {
    hide Possible, After;
    var e := Listen(true, true);
    longer := Go(s, es, t, e, At(t, Listening));
    longer := Go(s, longer, At(t, Listening), e, At(t, CheckTerminate));
    longer := Go(s, longer, At(t, CheckTerminate), e, At(t, CheckSuspend));
    longer := Go(s, longer, At(t, CheckSuspend), e, At(t, CheckRoom));
    longer := Go(s, longer, At(t, CheckRoom), e, At(t, TakeSlot));
  }

  function WithSlot(t: State): State {
    t.(front := t.front.(count := t.front.count + 1))
  }

  lemma FromTheSlot(s: State, es: seq<Event>, t: State) returns (longer: seq<Event>)
    requires Possible(s, es) && After(s, es) == At(t, TakeSlot) && !t.server.freed
    ensures Possible(s, longer)
    ensures After(s, longer) == At(WithSlot(t), Loop).(conns := Dispatched(t.conns, Dispatching))
    ensures forall e :: e in longer ==> e in es || e.Listen?
  {
    hide Possible, After;
    var e := Listen(true, true);
    var u := WithSlot(t);
    longer := Go(s, es, At(t, TakeSlot), e, At(u, Accepting));
    longer := Go(s, longer, At(u, Accepting), e, At(u, Deciding));
    longer := Go(s, longer, At(u, Deciding), e, At(u, Dispatching));
    longer := Go(s, longer, At(u, Dispatching), e, At(u, Loop).(conns := Dispatched(t.conns, Dispatching)));
  }

  /** Takes `n` connections in, one reference each. */
  lemma {:induction false} Admit(s: State, es: seq<Event>, t: State, n: nat) returns (longer: seq<Event>)
    requires Possible(s, es) && After(s, es) == t && Waiting(t, n)
    requires 0 < t.server.refCount && t.server.refCount + n <= WEAK
    ensures Possible(s, longer)
    ensures After(s, longer).server.refCount == t.server.refCount + n && !After(s, longer).server.freed
    decreases n
  {
    if n == 0 {
      longer := es;
    } else {
      hide Possible, After;
      var begin := Begin(t.conns.nextId);
      longer := ToTheSlot(s, es, t);
      longer := FromTheSlot(s, longer, t);
      var u := At(WithSlot(t), Loop).(conns := Dispatched(t.conns, Dispatching));
      longer := Go(s, longer, u, begin, Next(u, begin));
      longer := Admit(s, longer, Next(u, begin), n - 1);
    }
  }

  /** A caller takes `n` more references before the server is started. */
  lemma {:induction false} Retain(maxGuest: nat, maxHolds: nat, n: nat) returns (es: seq<Event>)
    requires 0 < maxHolds && n < maxHolds && n + 1 < WEAK
    ensures Possible(Init(maxGuest, maxHolds), es)
    ensures After(Init(maxGuest, maxHolds), es)
         == Init(maxGuest, maxHolds).(server := Server(maxGuest, maxHolds, Idle, n + 1, false, n + 1))
    decreases n
  {
    if n == 0 {
      es := [];
    } else {
      es := Retain(maxGuest, maxHolds, n - 1);
      Extend(Init(maxGuest, maxHolds), es, CallRetainServer);
      es := es + [CallRetainServer];
    }
  }

  /** A run in which the count meets the sentinel while the server lives. */
  ghost predicate MeetsSentinel(maxGuest: nat, maxHolds: nat, es: seq<Event>) {
    && Possible(Init(maxGuest, maxHolds), es)
    && After(Init(maxGuest, maxHolds), es).server.refCount == WEAK
    && !After(Init(maxGuest, maxHolds), es).server.freed
  }

  lemma ReachSentinel(maxGuest: nat, maxHolds: nat) returns (es: seq<Event>)
    requires 0 < maxHolds && !RoomBelowSentinel(maxGuest, maxHolds)
    ensures MeetsSentinel(maxGuest, maxHolds, es)
  {
    var init := Init(maxGuest, maxHolds);
    var h := if maxHolds < WEAK - 1 then maxHolds else WEAK - 1;
    es := Retain(maxGuest, maxHolds, h - 1);
    var t := After(init, es);
    hide Possible, After;
    var t1 := Next(t, Start);
    es := Go(init, es, t, Start, t1);
    var t2 := Next(t1, Listen(true, true));
    es := Go(init, es, t1, Listen(true, true), t2);
    es := Admit(init, es, t2, WEAK - 1 - h);
  }

  /** The sentinel is met in some run exactly when the references that can exist at once reach it:
      with the creator's reference alone, exactly from 408 guests on. */
  lemma SentinelIff(maxGuest: nat, maxHolds: nat)
    requires 0 < maxHolds
    ensures (exists es: seq<Event> :: MeetsSentinel(maxGuest, maxHolds, es))
       <==> maxHolds + maxGuest + 1 >= 410
  {
    if !RoomBelowSentinel(maxGuest, maxHolds) {
      var es := ReachSentinel(maxGuest, maxHolds);
    } else {
      forall es: seq<Event>
        ensures !MeetsSentinel(maxGuest, maxHolds, es)
      {
        if MeetsSentinel(maxGuest, maxHolds, es) {
          assert Reaches(maxGuest, maxHolds, es, After(Init(maxGuest, maxHolds), es));
          InitOk(maxGuest, maxHolds);
          RunOk(Init(maxGuest, maxHolds), es);
          CountIsHolders(After(Init(maxGuest, maxHolds), es));
        }
      }
    }
  }

  // ---- after the free ----

  /** Some party of the library is about to touch the server that is gone: a worker that has not
      taken its reference yet (lines 395-403), or the listener at its last callback (line 478). */
  predicate Hazard(s: State) {
    s.server.freed && (s.conns.queued != {} || s.front.listener == Notifying)
  }

  /** The same server, as if it had not been freed. */
  function Unfreed(s: State): State {
    s.(server := s.server.(freed := false))
  }

  predicate LibraryStep(e: Event) {
    e.Listen? || e.Begin? || e.Work?
  }

  /** The hazard is exactly that a step of the listener or of a worker is kept back only because
      the server is gone. */
  lemma HazardIffKeptBack(s: State)
    requires Reachable(s) && RoomBelowSentinel(s.server.maxGuest, s.server.maxHolds) && s.server.freed
    ensures Hazard(s) <==> exists e: Event :: LibraryStep(e) && Enabled(Unfreed(s), e) && !Enabled(s, e)
  {
    ReachableOk(s);
    assert s.conns.active == map[];
    if Hazard(s) {
      if s.front.listener == Notifying {
        assert LibraryStep(Listen(true, true)) && Enabled(Unfreed(s), Listen(true, true));
      } else {
        var id :| id in s.conns.queued;
        assert LibraryStep(Begin(id)) && Enabled(Unfreed(s), Begin(id));
      }
    }
  }

  /** The listener has returned and every dispatched worker has taken its reference. */
  predicate Settled(s: State) {
    s.front.listener == Finished && s.conns.queued == {}
  }

  lemma {:induction false} SettledStays(s: State, es: seq<Event>)
    requires Possible(s, es) && Settled(s)
    ensures Settled(After(s, es))
    decreases |es|
  {
    hide NextServer, WorkerStep;
    if es != [] {
      SettledStays(Next(s, es[0]), es[1..]);
    }
  }

  /** A caller that gives up its last reference only once the server has settled never causes a
      touch after the free; before that, its own reference keeps the server alive. */
  lemma SafeRelease(s: State, es: seq<Event>)
    requires Reachable(s) && RoomBelowSentinel(s.server.maxGuest, s.server.maxHolds) && Possible(s, es)
    ensures s.server.holds > 0 ==> !s.server.freed
    ensures Settled(s) ==> !Hazard(After(s, es))
  {
    ReachableOk(s);
    if Settled(s) { SettledStays(s, es); }
  }

  /** A just started server that was killed and let go of. */
  function KilledAtOnce(maxGuest: nat): State {
    State(Server(maxGuest, 1, ShouldTerminate, 1, false, 0), Front(Loop, 0, 0, 0), Init(maxGuest, 1).conns)
  }

  lemma KillAtOnce(maxGuest: nat) returns (es: seq<Event>)
    ensures Possible(Init(maxGuest, 1), es) && After(Init(maxGuest, 1), es) == KilledAtOnce(maxGuest)
  {
    var init := Init(maxGuest, 1);
    es := [];
    var s1 := State(Server(maxGuest, 1, Idle, 2, false, 1), Front(Queued, 0, 0, 0), init.conns);
    var s2 := State(Server(maxGuest, 1, Running, 2, false, 1), Front(Loop, 0, 0, 0), init.conns);
    var s3 := State(Server(maxGuest, 1, ShouldTerminate, 2, false, 1), Front(Loop, 0, 0, 0), init.conns);
    assert Possible(init, es) && After(init, es) == init;
    hide Possible, After;
    es := Go(init, es, init, Start, s1);
    es := Go(init, es, s1, Listen(true, true), s2);
    es := Go(init, es, s2, CallKillServer, s3);
    es := Go(init, es, s3, CallReleaseServer, KilledAtOnce(maxGuest));
  }

  /** A caller that kills a just started server and lets go of it at once: the listener releases
      the last reference and then runs didKill on the freed server. */
  lemma KillAndReleaseIsHazardous(maxGuest: nat)
    ensures exists es: seq<Event> :: Possible(Init(maxGuest, 1), es) && Hazard(After(Init(maxGuest, 1), es))
  {
    var init, killed := Init(maxGuest, 1), KilledAtOnce(maxGuest);
    var es := KillAtOnce(maxGuest);
    var s5 := At(killed, Idling);
    var s6 := State(Server(maxGuest, 1, Idle, 1, false, 0), Front(Releasing, 0, 0, 0), init.conns);
    var s7 := State(Server(maxGuest, 1, Idle, 0, true, 0), Front(Notifying, 0, 0, 0), init.conns);
    hide Possible, After;
    es := Go(init, es, killed, Listen(true, true), s5);
    es := Go(init, es, s5, Listen(true, true), s6);
    es := Go(init, es, s6, Listen(true, true), s7);
  }
}
