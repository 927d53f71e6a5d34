/** What every reachable state of the threaded server keeps: the guest count, the reference
    count and the connections' own bookkeeping. */
module RuntimeInvariant {
  import opened RefCounting
  import opened Status
  import opened Runtime

  // ---- slots ----

  /** A slot is taken and the listener has not decided yet what to do with it. */
  function PendingSlot(l: Listener): nat {
    if l == Accepting || l == Deciding || l == Dispatching then 1 else 0
  }

  /** A connection is in one phase of its life, under a number that was handed out. */
  ghost predicate PhasesOk(c: Conns) {
    && (forall id :: id in c.queued ==> id < c.nextId)
    && (forall id :: id in c.active ==> id < c.nextId && id !in c.queued)
    && (forall id :: id in c.leaving ==> id < c.nextId && id !in c.queued && id !in c.active)
    && (forall id :: id in c.finished ==>
          id < c.nextId && id !in c.queued && id !in c.active && id !in c.leaving)
  }

  function Size(c: Conns): nat {
    |c.queued| + |c.active| + |c.leaving|
  }

  ghost predicate SlotsOk(s: State) {
    && s.front.count == Size(s.conns) + s.front.failed + s.front.refused + PendingSlot(s.front.listener)
    && s.front.count <= s.server.maxGuest
    && (s.front.listener == TakeSlot ==> s.front.count < s.server.maxGuest)
    && (s.front.listener == NotStarted || s.front.listener == Queued ==> s.front.count == 0)
  }

  lemma MapGrows<K, V>(m: map<K, V>, k: K, v: V)
    ensures |m[k := v]| == if k in m then |m| else |m| + 1
  {
    assert m[k := v].Keys == m.Keys + {k};
  }

  lemma MapShrinks<K, V>(m: map<K, V>, k: K)
    requires k in m
    ensures |m - {k}| == |m| - 1
  {
    assert (m - {k}).Keys == m.Keys - {k};
  }

  lemma PhasesStep(s: State, e: Event)
    requires PhasesOk(s.conns) && Enabled(s, e)
    ensures PhasesOk(NextConns(s, e))
  {
    hide WorkerStep;
  }

  /** How the number of unfinished connections moves. */
  function SizeChange(s: State, e: Event): int {
    match e
    case Listen(_, _) => if s.front.listener == Dispatching then 1 else 0
    case Leave(_) => -1
    case _ => 0
  }

  lemma SizeStep(s: State, e: Event)
    requires PhasesOk(s.conns) && Enabled(s, e)
    ensures Size(NextConns(s, e)) == Size(s.conns) + SizeChange(s, e)
    ensures |NextConns(s, e).active| == |s.conns.active|
              + (if e.Begin? then 1 else 0)
              - (if e.Work? && s.conns.active[e.id].place == Release then 1 else 0)
  {
    hide WorkerStep;
    var conns := s.conns;
    match e
    case Listen(_, _) => assert |conns.queued + {conns.nextId}| == |conns.queued| + 1;
    case Begin(id) =>
      MapGrows(conns.active, id, NewConn());
      assert |conns.queued - {id}| == |conns.queued| - 1;
    case Work(id, received, handled) =>
      var c := conns.active[id];
      if c.place == Release {
        MapShrinks(conns.active, id);
        MapGrows(conns.leaving, id, c);
      } else {
        MapGrows(conns.active, id, WorkerStep(c, s.server.status, received, handled));
      }
    case Leave(id) => MapShrinks(conns.leaving, id);
    case CallSuspendQueue(id) => MapGrows(conns.active, id, AfterSuspendQueue(conns.active[id]));
    case CallResumeQueue(id) => MapGrows(conns.active, id, AfterResumeQueue(conns.active[id]));
    case _ =>
  }

  lemma SlotsListen(s: State, accepted: bool, allowed: bool)
    requires SlotsOk(s)
    ensures var f := FrontStep(s.front, s.server.status, s.server.maxGuest, accepted, allowed);
            && f.count - f.failed - f.refused - PendingSlot(f.listener)
            == Size(s.conns) + (if s.front.listener == Dispatching then 1 else 0)
            && f.count <= s.server.maxGuest
            && (f.listener == TakeSlot ==> f.count < s.server.maxGuest)
            && (f.listener == NotStarted || f.listener == Queued ==> f.count == 0)
  {
    hide Size;
  }

  lemma SlotsStep(s: State, e: Event)
    requires PhasesOk(s.conns) && SlotsOk(s) && Enabled(s, e)
    ensures SlotsOk(Next(s, e))
  {
    SizeStep(s, e);
    if e.Listen? { SlotsListen(s, e.accepted, e.allowed); }
    hide NextConns, Size, FrontStep;
  }

  // ---- references ----

  predicate ListenerHolds(l: Listener) {
    l != NotStarted && l != Notifying && l != Finished
  }

  function Holders(s: State): int {
    s.server.holds + (if ListenerHolds(s.front.listener) then 1 else 0) + |s.conns.active|
  }

  /** The count is the number of holders, and the server is freed when the last one lets go. */
  ghost predicate RefsOk(s: State) {
    && (s.server.freed ==> Holders(s) == 0)
    && (!s.server.freed ==> s.server.refCount == Holders(s) > 0)
    && s.server.holds <= s.server.maxHolds
  }

  /** With room below the sentinel for every reference that can exist at once, it is never met. */
  lemma BelowSentinel(s: State)
    requires SlotsOk(s) && RefsOk(s) && s.server.maxHolds + s.server.maxGuest + 1 < WEAK
    ensures s.server.freed || s.server.refCount < WEAK
  {
  }

  lemma RefsListen(s: State, accepted: bool, allowed: bool)
    requires RefsOk(s) && Enabled(s, Listen(accepted, allowed)) && s.server.refCount < WEAK
    requires |NextConns(s, Listen(accepted, allowed)).active| == |s.conns.active|
    ensures RefsOk(Next(s, Listen(accepted, allowed)))
  {
    ListenerLetsGo(s.front, s.server, accepted, allowed);
    hide NextConns, FrontStep, ListenerActs;
  }

  lemma RefsWork(s: State, e: Event)
    requires e.Work? && RefsOk(s) && Enabled(s, e) && s.server.refCount < WEAK
    requires |NextConns(s, e).active|
          == |s.conns.active| - if s.conns.active[e.id].place == Release then 1 else 0
    ensures RefsOk(Next(s, e))
  {
    hide NextConns;
  }

  lemma RefsOthers(s: State, e: Event)
    requires !e.Work? && !e.Listen? && RefsOk(s) && Enabled(s, e)
    requires s.server.freed || s.server.refCount < WEAK
    requires |NextConns(s, e).active| == |s.conns.active| + if e.Begin? then 1 else 0
    ensures RefsOk(Next(s, e))
  {
    hide NextConns;
  }

  lemma RefsStep(s: State, e: Event)
    requires PhasesOk(s.conns) && SlotsOk(s) && RefsOk(s) && Enabled(s, e)
    requires s.server.maxHolds + s.server.maxGuest + 1 < WEAK
    ensures RefsOk(Next(s, e))
  {
    hide *;
    if e.Work? || e.Listen? { NeedsServer(s, e); }
    BelowSentinel(s);
    SizeStep(s, e);
    match e
    case Work(_, _, _) => RefsWork(s, e);
    case Listen(accepted, allowed) => RefsListen(s, accepted, allowed);
    case _ => RefsOthers(s, e);
  }

  lemma NeedsServer(s: State, e: Event)
    requires Enabled(s, e) && (e.Work? || e.Listen?)
    ensures !s.server.freed
  {
  }

  /** The listener holds its reference until it releases it. */
  lemma ListenerLetsGo(f: Front, server: Server, accepted: bool, allowed: bool)
    ensures f.listener != NotStarted ==>
              ListenerHolds(FrontStep(f, server.status, server.maxGuest, accepted, allowed).listener)
              == (ListenerHolds(f.listener) && f.listener != Releasing)
    ensures ListenerActs(server, f.listener).holds == server.holds
    ensures ListenerActs(server, f.listener).maxHolds == server.maxHolds
    ensures ListenerActs(server, f.listener).refCount
         == if f.listener == Releasing then Released(server.refCount) else server.refCount
    ensures ListenerActs(server, f.listener).freed
         == (server.freed || (f.listener == Releasing && Frees(server.refCount)))
  {
  }

  // ---- the connections' own bookkeeping ----

  /** Reads the callbacks of one connection in order. */
  datatype Heard = Nothing | Serving(toldSuspend: bool) | Killed | Closed | Wrong

  function Hear(h: Heard, what: Callback): Heard {
    match (h, what)
    case (Nothing, DidConnect) => Serving(false)
    case (Serving(b), Data) => Serving(b)
    case (Serving(b), DidResume) => Serving(b)
    case (Serving(false), WillSuspend) => Serving(true)
    case (Serving(_), WillKill) => Killed
    case (Serving(_), DidDisconnect) => Closed
    case (Killed, DidDisconnect) => Closed
    case _ => Wrong
  }

  function HearAll(trace: seq<Callback>): Heard {
    if trace == [] then Nothing else Hear(HearAll(trace[..|trace| - 1]), trace[|trace| - 1])
  }

  function CountOf(trace: seq<Callback>, what: Callback): nat {
    if trace == [] then 0
    else CountOf(trace[..|trace| - 1], what) + if trace[|trace| - 1] == what then 1 else 0
  }

  lemma OneMore(trace: seq<Callback>, what: Callback)
    ensures HearAll(trace + [what]) == Hear(HearAll(trace), what)
  {
    assert (trace + [what])[..|trace|] == trace;
  }

  lemma CountMore(trace: seq<Callback>, what: Callback, w: Callback)
    ensures CountOf(trace + [what], w) == CountOf(trace, w) + if what == w then 1 else 0
  {
    assert (trace + [what])[..|trace|] == trace;
  }

  /** What a connection's handlers have heard, by where its worker is. */
  predicate HeardOk(place: Place, suspended: bool, h: Heard) {
    match place
    case Connected => h == Nothing && !suspended
    case Exit => h == Serving(suspended) || h == Killed
    case Release => h == Closed
    case _ => h == Serving(suspended)
  }

  predicate TraceOk(c: Conn) {
    HeardOk(c.place, c.suspended, HearAll(c.trace))
  }

  /** What a worker tells the handlers at each place. */
  function Says(c: Conn): seq<Callback> {
    match c.place
    case Connected => [DidConnect]
    case Deliver => [Data]
    case AckResume => [DidResume]
    case NoteSuspend => if c.suspended then [] else [WillSuspend]
    case DeliverLate => [Data]
    case AnnounceKill => [WillKill]
    case Exit => [DidDisconnect]
    case _ => []
  }

  lemma StepSays(c: Conn, server: Status, received: int, handled: nat)
    requires c.place != Release
    ensures WorkerStep(c, server, received, handled).trace == c.trace + Says(c)
  {
  }

  lemma HeardStep(c: Conn, h: Heard, server: Status, received: int, handled: nat)
    requires c.place != Release && HeardOk(c.place, c.suspended, h)
    ensures var c' := WorkerStep(c, server, received, handled);
            HeardOk(c'.place, c'.suspended, if Says(c) == [] then h else Hear(h, Says(c)[0]))
  {
  }

  /** How a connection stands under a running server. */
  predicate ResumeOk(c: Conn) {
    && c.status in {Running, Suspend, Resuming}
    && c.place != CopyStatus && c.place != AnnounceKill
    && (c.place == ResumeNow ==> c.status == Resuming)
    && (c.place in {NoteSuspend, ReceiveQuiet, CheckAgain} ==> c.status in {Suspend, Resuming})
    && (c.place == DeliverLate ==> c.status == Resuming)
    && c.resumes == CountOf(c.trace, DidResume) + (if c.status == Resuming then 1 else 0)
                    + (if c.place == AckResume then 1 else 0)
  }

  lemma TraceStep(c: Conn, server: Status, received: int, handled: nat)
    requires TraceOk(c) && c.place != Release
    ensures TraceOk(WorkerStep(c, server, received, handled))
  {
    StepSays(c, server, received, handled);
    HeardStep(c, HearAll(c.trace), server, received, handled);
    if Says(c) != [] { OneMore(c.trace, Says(c)[0]); }
    assert Says(c) == [] || Says(c) == [Says(c)[0]];
    assert c.trace + [] == c.trace;
    hide WorkerStep, HearAll, HeardOk, Says, Hear;
  }

  lemma ResumeStep(c: Conn, received: int, handled: nat)
    requires ResumeOk(c) && c.place != Release
    ensures ResumeOk(WorkerStep(c, Running, received, handled))
  {
    forall what {
      CountMore(c.trace, what, DidResume);
    }
    hide CountOf;
    match c.place
    case Switch =>
    case AckResume =>
    case ResumeNow =>
    case _ =>
  }

  /** The listener block has stored the running status (line 351). */
  predicate Started(s: State) {
    s.front.listener != NotStarted && s.front.listener != Queued
  }

  /** An idle status means that the server has not started or that the listener is leaving, and
      the listener leaves only a server that is to terminate. A running server has started. */
  predicate ListenerOk(s: State) {
    && (s.server.status == Running ==> Started(s))
    && (s.server.status == Idle ==> s.front.listener in {NotStarted, Queued, Releasing, Notifying, Finished})
    && (s.front.listener == Idling ==> s.server.status == ShouldTerminate)
  }

  ghost predicate TracesOk(c: Conns) {
    && (forall id :: id in c.active ==> TraceOk(c.active[id]))
    && (forall id :: id in c.leaving ==> c.leaving[id].place == Release && TraceOk(c.leaving[id]))
    && (forall id :: id in c.finished ==> c.finished[id].place == Release && TraceOk(c.finished[id]))
  }

  lemma TracesStep(s: State, e: Event)
    requires TracesOk(s.conns) && Enabled(s, e)
    ensures TracesOk(NextConns(s, e))
  {
    if e.Work? && s.conns.active[e.id].place != Release {
      TraceStep(s.conns.active[e.id], s.server.status, e.received, e.handled);
    }
    hide WorkerStep, HearAll;
  }

  /** Under a running server every connection accounts for its resumes. */
  ghost predicate ResumesOk(s: State) {
    s.server.status == Running ==> forall id :: id in s.conns.active ==> ResumeOk(s.conns.active[id])
  }

  lemma ListenerStaysOk(s: State, e: Event)
    requires SlotsOk(s) && ListenerOk(s) && Enabled(s, e)
    ensures ListenerOk(Next(s, e))
    ensures NextServer(s, e).status == Running ==> s.server.status == Running || s.conns.active == map[]
  {
    hide NextConns, WorkerStep;
    if e.Listen? && s.front.listener == Queued { NobodyYet(s); }
  }

  lemma NobodyYet(s: State)
    requires SlotsOk(s) && s.front.listener == Queued
    ensures s.conns.active == map[]
  {
  }

  lemma ResumesStep(s: State, e: Event)
    requires ResumesOk(s) && SlotsOk(s) && ListenerOk(s) && Enabled(s, e)
    ensures ResumesOk(Next(s, e)) && ListenerOk(Next(s, e))
  {
    ListenerStaysOk(s, e);
    hide ListenerOk, SlotsOk, NextServer, NextFront, WorkerStep, CountOf, ResumeOk, NewConn, AfterSuspendQueue,
         AfterResumeQueue;
    match e
    case Work(id, received, handled) =>
      WorkServesSame(s, e);
      if s.conns.active[id].place != Release && s.server.status == Running {
        ResumeStep(s.conns.active[id], received, handled);
      }
    case CallSuspendQueue(id) => QueueCallsKeepResumes(s.conns.active[id]);
    case CallResumeQueue(id) => QueueCallsKeepResumes(s.conns.active[id]);
    case Begin(_) => NewConnResumes();
    case _ =>
  }

  lemma WorkServesSame(s: State, e: Event)
    requires Enabled(s, e) && e.Work?
    ensures NextServer(s, e).status == s.server.status
  {
  }

  lemma QueueCallsKeepResumes(c: Conn)
    ensures ResumeOk(c) ==> ResumeOk(AfterSuspendQueue(c)) && ResumeOk(AfterResumeQueue(c))
  {
  }

  lemma NewConnResumes()
    ensures ResumeOk(NewConn())
  {
  }

  // ---- every reachable state ----

  /** What holds in every reachable state, whatever the limits. */
  ghost predicate Ok(s: State) {
    PhasesOk(s.conns) && SlotsOk(s) && TracesOk(s.conns) && ResumesOk(s) && ListenerOk(s)
  }

  lemma InitOk(maxGuest: nat, maxHolds: nat)
    requires maxHolds > 0
    ensures Ok(Init(maxGuest, maxHolds)) && RefsOk(Init(maxGuest, maxHolds))
  {
  }

  lemma LimitsStay(s: State, e: Event)
    requires Enabled(s, e)
    ensures NextServer(s, e).maxGuest == s.server.maxGuest && NextServer(s, e).maxHolds == s.server.maxHolds
  {
  }

  lemma StepOk(s: State, e: Event)
    requires Ok(s) && Enabled(s, e)
    ensures Ok(Next(s, e))
    ensures RefsOk(s) && s.server.maxHolds + s.server.maxGuest + 1 < WEAK ==> RefsOk(Next(s, e))
  {
    PhasesStep(s, e);
    SlotsStep(s, e);
    TracesStep(s, e);
    ResumesStep(s, e);
    if RefsOk(s) && s.server.maxHolds + s.server.maxGuest + 1 < WEAK { RefsStep(s, e); }
    hide PhasesOk, SlotsOk, TracesOk, ResumesOk, ListenerOk, RefsOk, NextConns, NextFront, NextServer;
  }

  lemma {:induction false} RunOk(s: State, es: seq<Event>)
    requires Ok(s) && Possible(s, es)
    ensures Ok(After(s, es))
    ensures After(s, es).server.maxGuest == s.server.maxGuest
    ensures After(s, es).server.maxHolds == s.server.maxHolds
    ensures RefsOk(s) && s.server.maxHolds + s.server.maxGuest + 1 < WEAK ==> RefsOk(After(s, es))
    decreases |es|
  {
    hide Ok, RefsOk, NextServer, NextConns, NextFront;
    if es != [] {
      StepOk(s, es[0]);
      LimitsStay(s, es[0]);
      RunOk(Next(s, es[0]), es[1..]);
    }
  }

  lemma ReachableOk(s: State)
    requires Reachable(s)
    ensures Ok(s)
    ensures s.server.maxHolds + s.server.maxGuest + 1 < WEAK ==> RefsOk(s)
  {
    hide Ok, RefsOk;
    var maxGuest, maxHolds, es :| Reaches(maxGuest, maxHolds, es, s);
    InitOk(maxGuest, maxHolds);
    RunOk(Init(maxGuest, maxHolds), es);
  }
}
