/** The threaded server (Examples/HTTP-proxy/SXServer.c:333-482) as a transition system: one
    listener, any number of workers and the callers of the interface, interleaved in any order.
    Every read or write of a shared field is a step of its own, except that each interface call
    checks and sets a status in one step. A server is started once. */
module Runtime {
  import opened RefCounting
  import opened Status

  /** Where the listener block is (lines 350-480). */
  datatype Listener =
    | NotStarted
    | Queued          // dispatched, line 351 not reached
    | Loop            // at the loop condition, line 358
    | Listening       // line 360
    | CheckTerminate  // line 362
    | CheckSuspend    // line 363
    | CheckRoom       // line 365
    | TakeSlot        // line 368
    | Accepting       // line 371
    | Deciding        // line 380
    | Dispatching     // line 386
    | Idling          // line 475
    | Releasing       // line 476
    | Notifying       // line 478
    | Finished

  /** Where a worker block is (lines 405-468), once it holds a reference to the server. */
  datatype Place =
    | Connected       // line 406
    | Top             // the test at line 412
    | CopyStatus      // the assignment at line 413
    | Switch          // line 415
    | Receive         // line 418
    | Deliver         // line 421
    | ResumeNow       // line 425
    | AckResume       // line 426
    | NoteSuspend     // lines 430-432
    | ReceiveQuiet    // line 435
    | CheckAgain      // line 439
    | DeliverLate     // line 446
    | AnnounceKill    // line 457
    | TestS           // line 464
    | Exit            // lines 467-468
    | Release         // line 469

  datatype Callback = DidConnect | Data | DidResume | WillSuspend | WillKill | DidDisconnect

  /** A connection that a worker serves. `resumes` counts the successful calls of SXResumeQueue. */
  datatype Conn = Conn(
    status: Status, place: Place, s: nat, suspended: bool, trace: seq<Callback>, resumes: nat)

  /** The shared server object; `holds` counts the references that callers own. */
  datatype Server = Server(
    maxGuest: nat, maxHolds: nat, status: Status, refCount: int, freed: bool, holds: nat)

  /** The listener block with its counter; `failed` and `refused` count connections that took a
      slot and never reached a worker. */
  datatype Front = Front(listener: Listener, count: int, failed: nat, refused: nat)

  /** Workers not yet begun, holding a server reference, past releasing it, and done. */
  datatype Conns = Conns(
    queued: set<nat>, active: map<nat, Conn>, leaving: map<nat, Conn>, finished: map<nat, Conn>,
    nextId: nat)

  datatype State = State(server: Server, front: Front, conns: Conns)

  /** What happens next. The environment chooses the results of accept, recv and the handlers. */
  datatype Event =
    | Start
    | Listen(accepted: bool, allowed: bool)
    | Begin(id: nat)
    | Work(id: nat, received: int, handled: nat)
    | Leave(id: nat)
    | CallSuspendServer
    | CallResumeServer
    | CallKillServer
    | CallSuspendQueue(id: nat)
    | CallResumeQueue(id: nat)
    | CallRetainServer
    | CallReleaseServer

  function Init(maxGuest: nat, maxHolds: nat): State {
    State(Server(maxGuest, maxHolds, Idle, 1, false, 1),
          Front(NotStarted, 0, 0, 0),
          Conns({}, map[], map[], map[], 0))
  }

  // ---- one step of a worker (lines 405-468) ----

  function NewConn(): Conn {
    Conn(Running, Connected, 1, false, [], 0)
  }

  function Log(c: Conn, what: Callback): Conn {
    c.(trace := c.trace + [what])
  }

  function WorkerStep(c: Conn, server: Status, received: int, handled: nat): Conn
    requires c.place != Release
  {
    match c.place
    case Connected => Log(c, DidConnect).(place := Top)
    case Top => c.(place := if server != Running then CopyStatus else Switch)
    case CopyStatus => c.(status := server, place := Switch)
    case Switch =>
      (match c.status
       case Running => c.(place := Receive)
       case Resuming => c.(place := ResumeNow)
       case Suspend => c.(place := NoteSuspend)
       case ShouldTerminate => c.(place := AnnounceKill)
       case Idle => c.(place := AnnounceKill)
       case _ => c.(place := TestS))
    case Receive => if received == -1 then c.(place := Exit) else c.(place := Deliver)
    case Deliver => Log(c, Data).(s := handled, place := TestS)
    case ResumeNow => c.(status := Running, place := AckResume)
    case AckResume => Log(c, DidResume).(place := TestS)
    case NoteSuspend =>
      (if c.suspended then c else Log(c, WillSuspend)).(suspended := true, place := ReceiveQuiet)
    case ReceiveQuiet =>
      if received == 0 || received == -1 then c.(place := Exit) else c.(place := CheckAgain)
    case CheckAgain =>
      (match c.status
       case ShouldTerminate => c.(place := Exit)
       case Idle => c.(place := Exit)
       case Resuming => c.(place := DeliverLate)
       case Running => c.(place := DeliverLate)
       case _ => c.(place := TestS))
    case DeliverLate => Log(c, Data).(s := handled, place := TestS)
    case AnnounceKill => Log(c, WillKill).(place := Exit)
    case TestS => c.(place := if c.s > 0 then Top else Exit)
    case Exit => Log(c, DidDisconnect).(place := Release)
  }

  // ---- one step of the listener (lines 351-478) ----

  function FrontStep(f: Front, status: Status, maxGuest: nat, accepted: bool, allowed: bool): Front {
    match f.listener
    case NotStarted => f
    case Queued => f.(count := 0, listener := Loop)
    case Loop => f.(listener := if status == ShouldTerminate then Idling else Listening)
    case Listening => f.(listener := CheckTerminate)
    case CheckTerminate => f.(listener := if status == ShouldTerminate then Idling else CheckSuspend)
    case CheckSuspend => f.(listener := if status == Suspend then Loop else CheckRoom)
    case CheckRoom => f.(listener := if f.count >= maxGuest then Loop else TakeSlot)
    case TakeSlot => f.(count := f.count + 1, listener := Accepting)
    case Accepting =>
      if accepted then f.(listener := Deciding) else f.(failed := f.failed + 1, listener := Loop)
    case Deciding =>
      if allowed then f.(listener := Dispatching) else f.(refused := f.refused + 1, listener := Loop)
    case Dispatching => f.(listener := Loop)
    case Idling => f.(listener := Releasing)
    case Releasing => f.(listener := Notifying)
    case Notifying => f.(listener := Finished)
    case Finished => f
  }

  /** What the listener does to the server at each place. */
  function ListenerActs(server: Server, listener: Listener): Server {
    match listener
    case Queued => server.(status := Running)
    case Idling => server.(status := Idle)
    case Releasing => Drop(server)
    case _ => server
  }

  /** What the listener does to the connections at each place. */
  function Dispatched(conns: Conns, listener: Listener): Conns {
    if listener == Dispatching then
      conns.(queued := conns.queued + {conns.nextId}, nextId := conns.nextId + 1)
    else conns
  }

  /** SXRetainServer */
  function Take(server: Server): Server {
    server.(refCount := Retained(server.refCount))
  }

  /** SXReleaseServer: the last reference frees the server. */
  function Drop(server: Server): Server {
    server.(refCount := Released(server.refCount), freed := server.freed || Frees(server.refCount))
  }

  // ---- all steps ----

  /** The party that an event moves is there, and does not touch a freed server. */
  predicate Enabled(s: State, e: Event) {
    match e
    case Start => s.front.listener == NotStarted && !s.server.freed && s.server.holds > 0
    case Listen(_, _) => s.front.listener != NotStarted && s.front.listener != Finished && !s.server.freed
    case Begin(id) => id in s.conns.queued && !s.server.freed
    case Work(id, received, _) => id in s.conns.active && received >= -1 && !s.server.freed
    case Leave(id) => id in s.conns.leaving
    case CallSuspendServer => !s.server.freed
    case CallResumeServer => !s.server.freed
    case CallKillServer => !s.server.freed
    case CallSuspendQueue(id) => id in s.conns.active
    case CallResumeQueue(id) => id in s.conns.active
    case CallRetainServer => !s.server.freed && 0 < s.server.holds < s.server.maxHolds
    case CallReleaseServer => !s.server.freed && s.server.holds > 0
  }

  function NextServer(s: State, e: Event): Server
    requires Enabled(s, e)
  {
    match e
    case Start => Take(s.server)
    case Listen(_, _) => ListenerActs(s.server, s.front.listener)
    case Begin(_) => Take(s.server)
    case Work(id, _, _) => if s.conns.active[id].place == Release then Drop(s.server) else s.server
    case CallSuspendServer => s.server.(status := Suspended(s.server.status))
    case CallResumeServer => s.server.(status := Resumed(s.server.status))
    case CallKillServer => s.server.(status := ShouldTerminate)
    case CallRetainServer => Take(s.server).(holds := s.server.holds + 1)
    case CallReleaseServer => Drop(s.server).(holds := s.server.holds - 1)
    case _ => s.server
  }

  function NextFront(s: State, e: Event): Front
    requires Enabled(s, e)
  {
    match e
    case Start => s.front.(listener := Queued)
    case Listen(accepted, allowed) =>
      FrontStep(s.front, s.server.status, s.server.maxGuest, accepted, allowed)
    case Leave(_) => s.front.(count := s.front.count - 1)
    case _ => s.front
  }

  function NextConns(s: State, e: Event): Conns
    requires Enabled(s, e)
  {
    var conns := s.conns;
    match e
    case Listen(_, _) => Dispatched(conns, s.front.listener)
    case Begin(id) => conns.(queued := conns.queued - {id}, active := conns.active[id := NewConn()])
    case Work(id, received, handled) =>
      var c := conns.active[id];
      if c.place == Release then
        conns.(active := conns.active - {id}, leaving := conns.leaving[id := c])
      else
        conns.(active := conns.active[id := WorkerStep(c, s.server.status, received, handled)])
    case Leave(id) =>
      conns.(leaving := conns.leaving - {id}, finished := conns.finished[id := conns.leaving[id]])
    case CallSuspendQueue(id) =>
      conns.(active := conns.active[id := AfterSuspendQueue(conns.active[id])])
    case CallResumeQueue(id) =>
      conns.(active := conns.active[id := AfterResumeQueue(conns.active[id])])
    case _ => conns
  }

  function AfterSuspendQueue(c: Conn): Conn {
    c.(status := Suspended(c.status))
  }

  function AfterResumeQueue(c: Conn): Conn {
    c.(status := Resumed(c.status), resumes := c.resumes + if MayResume(c.status) then 1 else 0)
  }

  function Next(s: State, e: Event): State
    requires Enabled(s, e)
  {
    State(NextServer(s, e), NextFront(s, e), NextConns(s, e))
  }

  /** The same state with another connection under `id`. */
  function WithConn(s: State, id: nat, c: Conn): State {
    s.(conns := s.conns.(active := s.conns.active[id := c]))
  }

  // ---- runs ----

  predicate Possible(s: State, es: seq<Event>)
    decreases |es|
  {
    es == [] || (Enabled(s, es[0]) && Possible(Next(s, es[0]), es[1..]))
  }

  function After(s: State, es: seq<Event>): State
    requires Possible(s, es)
    decreases |es|
  {
    if es == [] then s else After(Next(s, es[0]), es[1..])
  }

  /** Some run of the server reaches `s`. */
  ghost predicate Reachable(s: State) {
    exists maxGuest: nat, maxHolds: nat, es: seq<Event> :: Reaches(maxGuest, maxHolds, es, s)
  }

  ghost predicate Reaches(maxGuest: nat, maxHolds: nat, es: seq<Event>, s: State) {
    maxHolds > 0 && Possible(Init(maxGuest, maxHolds), es) && After(Init(maxGuest, maxHolds), es) == s
  }

  lemma {:induction false} Extend(s: State, es: seq<Event>, e: Event)
    requires Possible(s, es) && Enabled(After(s, es), e)
    ensures Possible(s, es + [e]) && After(s, es + [e]) == Next(After(s, es), e)
    decreases |es|
  {
    hide NextConns, NextFront, NextServer, Enabled;
    if es == [] {
      assert [e][1..] == [];
    } else {
      Extend(Next(s, es[0]), es[1..], e);
      assert (es + [e])[1..] == es[1..] + [e];
    }
  }

  /** Some run leads from `s` to `t`. */
  ghost predicate Leads(s: State, t: State) {
    exists es: seq<Event> :: LeadsBy(s, es, t)
  }

  ghost predicate LeadsBy(s: State, es: seq<Event>, t: State) {
    Possible(s, es) && After(s, es) == t
  }

  lemma Stay(s: State)
    ensures Leads(s, s)
  {
    assert LeadsBy(s, [], s);
  }

  lemma StepFirst(s: State, e: Event, t: State)
    requires Enabled(s, e) && Leads(Next(s, e), t)
    ensures Leads(s, t)
  {
    hide Enabled, Next;
    var es :| LeadsBy(Next(s, e), es, t);
    assert ([e] + es)[1..] == es;
    assert LeadsBy(s, [e] + es, t);
  }

  lemma Onward(s: State, t: State, u: State)
    requires Leads(s, t) && Leads(t, u)
    ensures Leads(s, u)
  {
    var es :| LeadsBy(s, es, t);
    OnwardBy(s, es, t, u);
  }

  lemma {:induction false} OnwardBy(s: State, es: seq<Event>, t: State, u: State)
    requires LeadsBy(s, es, t) && Leads(t, u)
    ensures Leads(s, u)
    decreases |es|
  {
    hide Leads, Enabled, Next;
    if es != [] {
      OnwardBy(Next(s, es[0]), es[1..], t, u);
      StepFirst(s, es[0], u);
    }
  }
}
