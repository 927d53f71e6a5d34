/** When a caller can still bring about a touch after the free (Examples/HTTP-proxy/SXServer.c:395-478):
    from every state in which the server has not settled, and from no other. */
module RuntimeHazard {
  import opened Runtime
  import opened RuntimeInvariant
  import opened RuntimeWindows
  import opened RuntimeShutdown
  import opened RuntimeLifetime

  // ---- a server that winds down ----

  /** A live server that is to terminate, or a freed one, with its books in order. */
  ghost predicate Winding(s: State) {
    && Ok(s) && RefsOk(s) && Started(s) && s.server.status in WINDING_DOWN
    && RoomBelowSentinel(s.server.maxGuest, s.server.maxHolds)
  }

  lemma WindingOn(s: State, e: Event)
    requires Winding(s) && Enabled(s, e) && e != CallSuspendServer && e != CallResumeServer
    ensures Winding(Next(s, e))
  {
    hide Ok, RefsOk, Started, NextServer, NextConns, NextFront, Enabled;
    StepOk(s, e);
    LimitsStay(s, e);
    StaysStarted(s, e);
    WindingStep(s, e);
  }

  /** The listener and the connections that wait for a worker are as they were. */
  predicate Aside(s: State, t: State) {
    t.front == s.front && t.conns.queued == s.conns.queued
  }

  lemma Drained(s: State, id: nat)
    requires id in s.conns.active && !s.server.freed
    ensures var c, t := s.conns.active[id], Next(s, Work(id, -1, 0));
            && Enabled(s, Work(id, -1, 0)) && Aside(s, t) && t.server.holds == s.server.holds
            && (c.place == Release ==> t.conns.active == s.conns.active - {id})
            && (c.place != Release ==>
                  && t.server == s.server && t.conns.active.Keys == s.conns.active.Keys
                  && t.conns.active[id] == WorkerStep(c, s.server.status, -1, 0))
  {
    hide WorkerStep;
  }

  /** A worker whose recv fails leaves. */
  lemma {:induction false} DrainOne(s: State, id: nat) returns (t: State)
    requires Winding(s) && !s.server.freed && id in s.conns.active
    ensures Leads(s, t) && Winding(t) && Aside(s, t)
    ensures t.server.holds == s.server.holds && |t.conns.active| < |s.conns.active|
    decreases Rank(s.conns.active[id])
  {
    var c, e := s.conns.active[id], Work(id, -1, 0);
    Drained(s, id);
    if c.place != Release { DownOwnStep(c, s.server.status, -1, 0, WINDING_DOWN); }
    hide Winding, Enabled, Next, WorkerStep, Rank, OwedDown, Leads;
    WindingOn(s, e);
    if c.place == Release {
      MapShrinks(s.conns.active, id);
      t := Next(s, e);
      Stay(t);
    } else {
      t := DrainOne(Next(s, e), id);
      assert Next(s, e).conns.active.Keys == s.conns.active.Keys;
      assert |Next(s, e).conns.active.Keys| == |s.conns.active.Keys|;
    }
    StepFirst(s, e, t);
  }

  /** All workers leave and all callers let go. */
  lemma {:induction false} DrainAll(s: State) returns (t: State)
    requires Winding(s)
    ensures Leads(s, t) && Winding(t) && Aside(s, t)
    ensures t.server.holds == 0 && t.conns.active == map[]
    decreases |s.conns.active|, s.server.holds
  {
    hide Leads, Enabled;
    if s.server.freed || (s.server.holds == 0 && s.conns.active == map[]) {
      t := s;
      Stay(s);
    } else if s.conns.active == map[] {
      hide Winding;
      assert Enabled(s, CallReleaseServer) by { MayRelease(s); }
      WindingOn(s, CallReleaseServer);
      MayRelease(s);
      t := DrainAll(Next(s, CallReleaseServer));
      StepFirst(s, CallReleaseServer, t);
    } else {
      hide Winding;
      var id :| id in s.conns.active;
      var u := DrainOne(s, id);
      t := DrainAll(u);
      Onward(s, u, t);
    }
  }

  lemma MayRelease(s: State)
    requires !s.server.freed && s.server.holds > 0
    ensures Enabled(s, CallReleaseServer) && Aside(s, Next(s, CallReleaseServer))
    ensures Next(s, CallReleaseServer).conns == s.conns
    ensures Next(s, CallReleaseServer).server.holds == s.server.holds - 1
  {
  }

  // ---- from any state that has not settled ----

  lemma ListenOn(s: State, e: Event)
    requires e == Listen(false, false) && Winding(s) && !s.server.freed
    requires ListenerHolds(s.front.listener) && s.front.listener != Releasing
    ensures Enabled(s, e) && Winding(Next(s, e)) && !Next(s, e).server.freed
    ensures ListenerHolds(Next(s, e).front.listener)
    ensures ListenerRank(Next(s, e).front.listener) < ListenerRank(s.front.listener)
  {
    ListenerStep(s, e);
    ListenerLetsGo(s.front, s.server, false, false);
    hide Winding, Ok, RefsOk, FrontStep, ListenerActs, NextConns, ListenerRank;
    assert Enabled(s, e);
    WindingOn(s, e);
  }

  /** The listener comes to its release. */
  lemma {:induction false} ToReleasing(s: State) returns (t: State)
    requires Winding(s) && !s.server.freed && ListenerHolds(s.front.listener)
    ensures Leads(s, t) && Winding(t) && !t.server.freed && t.front.listener == Releasing
    decreases ListenerRank(s.front.listener)
  {
    hide *;
    if s.front.listener == Releasing {
      t := s;
      Stay(s);
    } else {
      var e := Listen(false, false);
      ListenOn(s, e);
      t := ToReleasing(Next(s, e));
      StepFirst(s, e, t);
    }
  }

  /** A live server whose books are in order, as in every reachable state. */
  ghost predicate Sound(s: State) {
    Ok(s) && RefsOk(s) && !s.server.freed && RoomBelowSentinel(s.server.maxGuest, s.server.maxHolds)
  }

  lemma SoundOn(s: State, e: Event)
    requires Sound(s) && Enabled(s, e) && !Next(s, e).server.freed
    ensures Sound(Next(s, e))
  {
    hide Ok, RefsOk, NextServer, NextConns, NextFront, Enabled;
    StepOk(s, e);
    LimitsStay(s, e);
  }

  lemma MayStart(s: State)
    requires Sound(s) && s.front.listener == NotStarted
    ensures Enabled(s, Start) && Next(s, Start).front.listener == Queued && !Next(s, Start).server.freed
  {
    hide TracesOk, ResumesOk, ListenerOk;
  }

  /** The server is started, if it was not. */
  lemma Underway(s: State) returns (t: State)
    requires Sound(s) && !Settled(s)
    ensures Leads(s, t) && Sound(t) && Started(t) && !Settled(t)
  {
    hide Sound, Leads;
    t := s;
    Stay(t);
    if t.front.listener == NotStarted {
      MayStart(t);
      SoundOn(t, Start);
      Stay(Next(t, Start));
      StepFirst(t, Start, Next(t, Start));
      t := Next(t, Start);
    }
    if t.front.listener == Queued {
      var e := Listen(false, false);
      assert !t.server.freed by { SoundIsLive(t); }
      SoundOn(t, e);
      Stay(Next(t, e));
      StepFirst(t, e, Next(t, e));
      Onward(s, t, Next(t, e));
      t := Next(t, e);
    }
  }

  lemma SoundIsLive(s: State)
    requires Sound(s)
    ensures !s.server.freed
  {
  }

  lemma Killed(s: State)
    requires Sound(s) && Started(s)
    ensures Enabled(s, CallKillServer) && Winding(Next(s, CallKillServer))
    ensures !Next(s, CallKillServer).server.freed && Aside(s, Next(s, CallKillServer))
  {
    hide Ok, RefsOk;
    StepOk(s, CallKillServer);
    LimitsStay(s, CallKillServer);
  }

  /** The last holder of a winding server has let go. */
  lemma NobodyLeft(s: State)
    requires Winding(s) && s.server.holds == 0 && s.conns.active == map[]
    ensures !ListenerHolds(s.front.listener) ==> s.server.freed
    ensures s.front.listener == Releasing ==>
              && Enabled(s, Listen(false, false))
              && Hazard(Next(s, Listen(false, false)))
  {
    hide Ok, NextConns;
  }

  lemma HazardAhead(s: State) returns (t: State)
    requires Sound(s) && !Settled(s)
    ensures Leads(s, t) && Hazard(t)
  {
    hide *;
    var u := Underway(s);
    var e := Listen(false, false);
    Killed(u);
    var k := Next(u, CallKillServer);
    Stay(k);
    StepFirst(u, CallKillServer, k);
    Onward(s, u, k);
    if ListenerHolds(k.front.listener) {
      var v := ToReleasing(k);
      t := DrainAll(v);
      Onward(k, v, t);
      AsideSame(v, t);
      NobodyLeft(t);
      Stay(Next(t, e));
      StepFirst(t, e, Next(t, e));
      Onward(k, t, Next(t, e));
      t := Next(t, e);
    } else {
      t := DrainAll(k);
      NobodyLeft(t);
      StillHazardous(u, k, t);
    }
    Onward(s, k, t);
  }

  lemma AsideSame(s: State, t: State)
    requires Aside(s, t)
    ensures t.front.listener == s.front.listener
  {
  }

  lemma StillHazardous(s: State, t: State, u: State)
    requires Started(s) && !Settled(s) && Aside(s, t) && Aside(t, u) && !ListenerHolds(t.front.listener)
    requires !ListenerHolds(u.front.listener) ==> u.server.freed
    ensures Hazard(u)
  {
  }

  /** From a live server, some run of the callers, the listener and the workers comes to a step that
      would touch the freed server exactly when the server has not settled. */
  lemma HazardAheadIff(s: State)
    requires Reachable(s) && RoomBelowSentinel(s.server.maxGuest, s.server.maxHolds) && !s.server.freed
    ensures (exists es: seq<Event> :: Possible(s, es) && Hazard(After(s, es))) <==> !Settled(s)
  {
    hide Hazard, Settled, Enabled, Next, Possible, After, Ok, RefsOk, Reachable;
    if Settled(s) {
      forall es: seq<Event> | Possible(s, es)
        ensures !Hazard(After(s, es))
      {
        SafeRelease(s, es);
      }
    } else {
      ReachableOk(s);
      var t := HazardAhead(s);
      var es :| LeadsBy(s, es, t);
      assert Possible(s, es) && Hazard(After(s, es));
    }
  }
}
