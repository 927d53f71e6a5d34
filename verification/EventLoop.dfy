/** The event-queue variant of the server (Examples/HTTP-proxy/SXServer.c:484-649): one thread that
    serves every connection from batches of events. */
module EventLoop {
  import opened Status
  import opened Runtime
  import opened RuntimeInvariant

  /** One entry of a batch. For the listening socket, `accept` answers with a descriptor chosen
      among those not open, or -1. For a connection, the entry carries its queue and what the
      surroundings do while it is served: the server status at the two reads (lines 573-574), the
      calls made before the switch and while recv blocks, the results of recv and of the handler,
      and the garbage in the two variables that are never initialised (lines 568-569). */
  datatype KEvent =
    | Incoming(accept: set<nat> -> int)
    | Ready(fd: nat, queue: SXQueue, server: Status, serverAgain: Status, before: seq<QueueCall>,
            received: int, during: seq<QueueCall>, handled: int, junk: int, junkSuspended: bool)

  // ---- one served event, on values ----

  /** What serving one event does: the new status, the callbacks, and whether the connection stays. */
  datatype Reaction = Reaction(status: Status, says: seq<Callback>, stays: bool)

  function AtSwitch(e: KEvent, status: Status): Status
    requires e.Ready?
  {
    Called(if e.server != Running then e.serverAgain else status, e.before)
  }

  /** Lines 567-640, from the status at the switch. */
  function React(e: KEvent, status: Status): Reaction
    requires e.Ready?
  {
    match status
    case Running =>
      var after := Called(status, e.during);
      if e.received == -1 then Reaction(after, [DidDisconnect], false)
      else if e.handled == -1 || e.handled == 0 then Reaction(after, [Data, DidDisconnect], false)
      else Reaction(after, [Data], true)
    case Resuming =>
      if e.junk == 0 then Reaction(Running, [DidResume, DidDisconnect], false)
      else Reaction(Running, [DidResume], true)
    case Suspend =>
      var after := Called(status, e.during);
      var told := if e.junkSuspended then [] else [WillSuspend];
      if e.received == 0 || e.received == -1 then Reaction(after, told + [DidDisconnect], false)
      else if after == ShouldTerminate || after == Idle then Reaction(after, told + [DidDisconnect], false)
      else if after == Resuming || after == Running then
        Reaction(after, told + [Data, WillKill, DidDisconnect], false)
      else Reaction(after, told + [WillKill, DidDisconnect], false)
    case ShouldTerminate => Reaction(status, [WillKill, DidDisconnect], false)
    case Idle => Reaction(status, [WillKill, DidDisconnect], false)
    case _ =>
      if e.junk == 0 then Reaction(status, [DidDisconnect], false) else Reaction(status, [], true)
  }

  // ---- what a connection is told over its life ----

  /** An open connection has been told of deliveries and resumes only. */
  ghost predicate OpenTrace(trace: seq<Callback>) {
    forall k :: 0 <= k < |trace| ==> trace[k] == Data || trace[k] == DidResume
  }

  /** A closed one was told of a suspension, if at all, just before it was closed. */
  ghost predicate ClosedTrace(trace: seq<Callback>) {
    exists body: seq<Callback>, suspend: seq<Callback>, last: seq<Callback>, kill: seq<Callback> ::
      Life(trace, body, suspend, last, kill)
  }

  ghost predicate Life(trace: seq<Callback>, body: seq<Callback>, suspend: seq<Callback>,
                       last: seq<Callback>, kill: seq<Callback>) {
    && trace == body + suspend + last + kill + [DidDisconnect] && OpenTrace(body)
    && (suspend == [] || suspend == [WillSuspend])
    && (last == [] || last == [Data] || (last == [DidResume] && suspend == []))
    && (kill == [] || kill == [WillKill])
  }

  lemma Closes(trace: seq<Callback>, says: seq<Callback>, suspend: seq<Callback>, last: seq<Callback>,
               kill: seq<Callback>)
    requires OpenTrace(trace) && says == suspend + last + kill + [DidDisconnect]
    requires suspend == [] || suspend == [WillSuspend]
    requires last == [] || last == [Data] || (last == [DidResume] && suspend == [])
    requires kill == [] || kill == [WillKill]
    ensures ClosedTrace(trace + says)
  {
    assert trace + says == trace + suspend + last + kill + [DidDisconnect];
    assert Life(trace + says, trace, suspend, last, kill);
  }

  /** Every event keeps what an open connection has been told, or closes it properly. */
  lemma ReactionKeepsLife(e: KEvent, status: Status, trace: seq<Callback>)
    requires e.Ready? && OpenTrace(trace)
    ensures React(e, status).stays ==> OpenTrace(trace + React(e, status).says)
    ensures !React(e, status).stays ==> ClosedTrace(trace + React(e, status).says)
  {
    hide Called, ClosedTrace;
    var r := React(e, status);
    if !r.stays {
      hide OpenTrace;
      match status
      case Running =>
        Closes(trace, r.says, [], if e.received == -1 then [] else [Data], []);
      case Resuming =>
        Closes(trace, r.says, [], [DidResume], []);
      case Suspend =>
        var told := if e.junkSuspended then [] else [WillSuspend];
        if r.says == told + [DidDisconnect] {
          Closes(trace, r.says, told, [], []);
        } else if r.says == told + [WillKill, DidDisconnect] {
          Closes(trace, r.says, told, [], [WillKill]);
        } else {
          Closes(trace, r.says, told, [Data], [WillKill]);
        }
      case ShouldTerminate =>
        Closes(trace, r.says, [], [], [WillKill]);
      case Idle =>
        Closes(trace, r.says, [], [], [WillKill]);
      case _ =>
        Closes(trace, r.says, [], [], []);
    }
  }

  /** A missing break (line 613): an event on a suspended connection always closes it, also when it
      was resumed while the payload was awaited. */
  lemma SuspendedIsClosed(e: KEvent)
    requires e.Ready?
    ensures !React(e, Suspend).stays
    ensures Data in React(e, Suspend).says <==>
              && e.received != 0 && e.received != -1
              && (Called(Suspend, e.during) == Resuming || Called(Suspend, e.during) == Running)
  {
  }

  /** What a served connection is told, for every status that the switch can find;
      `second` is the status found after a payload came in under suspension. */
  lemma ReactionTells(e: KEvent, status: Status, second: Status)
    requires e.Ready? && second == Called(Suspend, e.during)
    ensures Data in React(e, status).says <==>
              || (status == Running && e.received != -1)
              || (status == Suspend && e.received != 0 && e.received != -1 && second in {Resuming, Running})
    ensures DidResume in React(e, status).says <==> status == Resuming
    ensures WillSuspend in React(e, status).says <==> status == Suspend && !e.junkSuspended
    ensures WillKill in React(e, status).says <==>
              || status == ShouldTerminate || status == Idle
              || (status == Suspend && e.received != 0 && e.received != -1
                  && second != ShouldTerminate && second != Idle)
    ensures DidDisconnect in React(e, status).says <==> !React(e, status).stays
    ensures DidConnect !in React(e, status).says
  {
    hide Called;
  }

  lemma ReactionIsOrdered(e: KEvent, status: Status)
    requires e.Ready?
    ensures Ordered(React(e, status).says)
  {
    hide Called;
  }

  /** A suspension comes first, then a payload or a resume, then a kill, then the end; nothing twice. */
  ghost predicate Ordered(says: seq<Callback>) {
    forall i, j :: 0 <= i < j < |says| ==> Rank(says[i]) < Rank(says[j])
  }

  function Rank(what: Callback): nat {
    match what
    case DidConnect => 0
    case WillSuspend => 1
    case Data => 2
    case DidResume => 2
    case WillKill => 3
    case DidDisconnect => 4
  }

  /** The status that a served connection is left with: a resumed one runs, calls that came in while
      recv was waited for are kept, and any other status stays. */
  lemma ReactionLeaves(e: KEvent, status: Status)
    requires e.Ready?
    ensures status == Resuming ==> React(e, status).status == Running
    ensures status == Running || status == Suspend ==> React(e, status).status == Called(status, e.during)
    ensures status !in {Running, Suspend, Resuming} ==> React(e, status).status == status
  {
  }

  /** A server that does not run hands its status to the connection, whatever that one was
      (lines 573-574); a running server leaves it as it is. */
  lemma ServerRules(e: KEvent, status: Status, other: Status)
    requires e.Ready?
    ensures e.server != Running ==> AtSwitch(e, status) == AtSwitch(e, other)
    ensures e.server != Running && e.before == [] ==> AtSwitch(e, status) == e.serverAgain
    ensures e.server == Running && e.before == [] ==> AtSwitch(e, status) == status
  {
  }

  /** Exactly which events keep a connection: those of a running one whose handler asks for more,
      and those that never assign the uninitialised variable, when it happens not to be zero. */
  lemma StaysIff(e: KEvent, status: Status)
    requires e.Ready?
    ensures React(e, status).stays <==>
              || (status == Running && e.received != -1 && e.handled != -1 && e.handled != 0)
              || (e.junk != 0 && (status == Resuming || status == Ignored || status == ShouldKill))
  {
  }

  // ---- the loop ----

  /** accept answers -1 or a descriptor that is not open. */
  ghost predicate Fresh(accept: set<nat> -> int) {
    forall open: set<nat> :: accept(open) == -1 || (accept(open) >= 0 && accept(open) !in open)
  }

  /** What kevent hands out: distinct descriptors, each with the queue registered for it. */
  ghost predicate Batch(events: seq<KEvent>, listenFd: nat, live: map<nat, SXQueue>) {
    && (forall i, j :: 0 <= i < j < |events| ==> Ident(events[i], listenFd) != Ident(events[j], listenFd))
    && (forall i :: 0 <= i < |events| ==> Registered(events[i], live))
  }

  function Ident(e: KEvent, listenFd: nat): nat {
    if e.Incoming? then listenFd else e.fd
  }

  ghost predicate Registered(e: KEvent, live: map<nat, SXQueue>) {
    match e
    case Incoming(accept) => Fresh(accept)
    case Ready(fd, queue, _, _, _, _, _, _, _, _) => fd in live && live[fd] == queue
  }

  function Idents(events: seq<KEvent>, listenFd: nat): (r: set<nat>) {
    if events == [] then {} else {Ident(events[0], listenFd)} + Idents(events[1..], listenFd)
  }

  lemma {:induction false} InIdents(events: seq<KEvent>, listenFd: nat, d: nat)
    ensures d in Idents(events, listenFd) <==> exists i :: 0 <= i < |events| && Ident(events[i], listenFd) == d
    decreases |events|
  {
    hide Ident;
    if events != [] {
      var more := events[1..];
      InIdents(more, listenFd, d);
      assert forall i :: 0 <= i < |more| ==> more[i] == events[i + 1];
      if i :| 0 <= i < |events| && Ident(events[i], listenFd) == d && i > 0 {
        assert Ident(more[i - 1], listenFd) == d;
      }
    }
  }

  lemma {:induction false} IdentsOf(events: seq<KEvent>, listenFd: nat)
    requires forall i, j :: 0 <= i < j < |events| ==> Ident(events[i], listenFd) != Ident(events[j], listenFd)
    ensures |Idents(events, listenFd)| == |events|
    decreases |events|
  {
    hide Ident;
    if events != [] {
      var d, more := Ident(events[0], listenFd), events[1..];
      assert forall i :: 0 <= i < |more| ==> more[i] == events[i + 1];
      InIdents(more, listenFd, d);
      assert d !in Idents(more, listenFd);
      IdentsOf(more, listenFd);
    }
  }

  lemma Bounded(small: set<nat>, large: set<nat>)
    requires small <= large
    ensures |small| <= |large|
  {
    assert large == small + (large - small);
  }

  /** A batch fits the array that is declared for it (lines 501, 530): at most one entry for each
      connection and one for the listening socket. */
  lemma BatchFits(events: seq<KEvent>, listenFd: nat, live: map<nat, SXQueue>, maxGuest: nat)
    requires Batch(events, listenFd, live) && |live| <= maxGuest
    ensures |events| <= maxGuest + 1
  {
    IdentsOf(events, listenFd);
    forall d | d in Idents(events, listenFd)
      ensures d in live.Keys + {listenFd}
    {
      InIdents(events, listenFd, d);
    }
    Bounded(Idents(events, listenFd), live.Keys + {listenFd});
  }

  // ---- the books of the loop ----

  /** The kernel's table of registered connections, the released queues in order, and what every
      queue was told. */
  ghost predicate Books(live: map<nat, SXQueue>, released: seq<SXQueue>, told: map<SXQueue, seq<Callback>>,
                        listenFd: nat) {
    && listenFd !in live
    && (forall f, g :: f in live && g in live && live[f] == live[g] ==> f == g)
    && (forall f :: f in live ==> live[f] !in released && live[f] in told && OpenTrace(told[live[f]]))
    && (forall i, j :: 0 <= i < j < |released| ==> released[i] != released[j])
    && (forall i :: 0 <= i < |released| ==> released[i] in told && ClosedTrace(told[released[i]]))
    && |told| == |live| + |released|
  }

  lemma NothingYet()
    ensures OpenTrace([])
  {
  }

  lemma BooksOpen(live: map<nat, SXQueue>, released: seq<SXQueue>, told: map<SXQueue, seq<Callback>>,
                  listenFd: nat, fd: nat, queue: SXQueue)
    requires Books(live, released, told, listenFd)
    requires fd !in live && fd != listenFd && queue !in told
    ensures Books(live[fd := queue], released, told[queue := []], listenFd)
    ensures |live[fd := queue]| == |live| + 1
  {
    hide ClosedTrace, OpenTrace;
    NothingYet();
    MapGrows(live, fd, queue);
    MapGrows(told, queue, []);
    assert forall f :: f in live ==> live[f] != queue;
    assert queue !in released;
  }

  /** A connection in the table is in no other entry and has not been released. */
  lemma BooksApart(live: map<nat, SXQueue>, released: seq<SXQueue>, told: map<SXQueue, seq<Callback>>,
                   listenFd: nat, fd: nat)
    requires Books(live, released, told, listenFd) && fd in live
    ensures live[fd] !in released && live[fd] in told && OpenTrace(told[live[fd]])
    ensures forall f :: f in live && f != fd ==> live[f] != live[fd]
  {
    hide ClosedTrace, OpenTrace;
  }

  lemma BooksTell(live: map<nat, SXQueue>, released: seq<SXQueue>, told: map<SXQueue, seq<Callback>>,
                  listenFd: nat, fd: nat, trace: seq<Callback>)
    requires Books(live, released, told, listenFd)
    requires fd in live && OpenTrace(trace)
    ensures Books(live, released, told[live[fd] := trace], listenFd)
  {
    hide ClosedTrace, OpenTrace;
    assert told[live[fd] := trace].Keys == told.Keys;
  }

  lemma BooksClose(live: map<nat, SXQueue>, released: seq<SXQueue>, told: map<SXQueue, seq<Callback>>,
                   listenFd: nat, fd: nat, trace: seq<Callback>)
    requires Books(live, released, told, listenFd)
    requires fd in live && ClosedTrace(trace)
    ensures Books(live - {fd}, released + [live[fd]], told[live[fd] := trace], listenFd)
    ensures |live - {fd}| == |live| - 1
  {
    hide ClosedTrace, OpenTrace;
    assert told[live[fd] := trace].Keys == told.Keys;
    assert live.Keys == (live - {fd}).Keys + {fd};
  }

  /** Every connection in the table is in one entry only and has not been released. */
  lemma BooksAside(live: map<nat, SXQueue>, released: seq<SXQueue>, told: map<SXQueue, seq<Callback>>,
                   listenFd: nat)
    requires Books(live, released, told, listenFd)
    ensures listenFd !in live
    ensures forall f :: f in live ==> live[f] !in released && live[f] in told
    ensures forall q :: q in released ==> q in told
    ensures forall f, g :: f in live && g in live && live[f] == live[g] ==> f == g
  {
    hide ClosedTrace, OpenTrace;
  }

  // ---- a batch, on values ----

  datatype Seen = Seen(status: Status, trace: seq<Callback>)

  /** The loop at one moment: the table, the released queues and what is known of every queue. */
  datatype View = View(live: map<nat, SXQueue>, released: seq<SXQueue>, queues: map<SXQueue, Seen>)
  {
    ghost predicate Holds(e: KEvent) {
      e.Ready? && e.fd in live && live[e.fd] == e.queue && e.queue in queues
    }
  }

  ghost predicate Fits(v: View) {
    && (forall f :: f in v.live ==> v.live[f] in v.queues)
    && (forall f, g :: f in v.live && g in v.live && v.live[f] == v.live[g] ==> f == g)
  }

  function Served(v: View, e: KEvent): Reaction
    requires e.Ready? && e.queue in v.queues
  {
    React(e, AtSwitch(e, v.queues[e.queue].status))
  }

  /** Below the limit, and when accept finds a connection, that one is registered: a new queue, running,
      told nothing. Otherwise nothing changes. */
  ghost predicate Opens(v: View, accept: set<nat> -> int, w: View, maxGuest: nat, listenFd: nat) {
    var fd := accept(v.live.Keys + {listenFd});
    if |v.live| >= maxGuest || fd == -1 then w == v
    else
      && fd >= 0 && fd !in v.live && fd != listenFd && fd in w.live && w.live[fd] !in v.queues
      && w == View(v.live[fd := w.live[fd]], v.released, v.queues[w.live[fd] := Seen(Running, [])])
  }

  /** What one entry of a batch does to the loop. */
  ghost predicate Step(v: View, e: KEvent, w: View, maxGuest: nat, listenFd: nat) {
    match e
    case Incoming(accept) => Opens(v, accept, w, maxGuest, listenFd)
    case Ready(_, _, _, _, _, _, _, _, _, _) =>
      && v.Holds(e)
      && var r := Served(v, e);
      w == View(if r.stays then v.live else v.live - {e.fd},
                if r.stays then v.released else v.released + [e.queue],
                v.queues[e.queue := Seen(r.status, v.queues[e.queue].trace + r.says)])
  }

  /** An entry met its queue as it was when the batch was handed out; its effect is there. */
  ghost predicate Handled(v: View, e: KEvent, w: View) {
    e.Ready? ==>
      && v.Holds(e) && e.queue in w.queues
      && var r := Served(v, e);
      && w.queues[e.queue] == Seen(r.status, v.queues[e.queue].trace + r.says)
      && (if r.stays then e.fd in w.live && w.live[e.fd] == e.queue else e.queue in w.released)
  }

  /** The connection at a descriptor is as it was. */
  ghost predicate Untouched(v: View, f: nat, w: View) {
    f in v.live ==>
      f in w.live && w.live[f] == v.live[f] && w.live[f] in v.queues && w.live[f] in w.queues
      && w.queues[w.live[f]] == v.queues[v.live[f]]
  }

  ghost predicate NotIn(f: nat, events: seq<KEvent>, listenFd: nat) {
    forall j :: 0 <= j < |events| ==> Ident(events[j], listenFd) != f
  }

  /** A queue of the batch whose own entry closes it. */
  ghost predicate ClosedBy(v: View, e: KEvent, q: SXQueue) {
    e.Ready? && e.queue == q && v.Holds(e) && !Served(v, e).stays
  }

  ghost predicate Justified(v: View, events: seq<KEvent>, q: SXQueue) {
    q in v.released || exists j :: 0 <= j < |events| && ClosedBy(v, events[j], q)
  }

  /** The descriptors of the old table less those that their own entries closed. */
  ghost function Remaining(v: View, events: seq<KEvent>): set<nat>
    decreases |events|
  {
    if events == [] then v.live.Keys
    else
      var e := events[|events| - 1];
      Remaining(v, events[..|events| - 1]) - if e.Ready? && ClosedBy(v, e, e.queue) then {e.fd} else {}
  }

  /** The entry of the listening socket, at its turn: what it could have registered is registered
      now, and nothing else was added to the table. */
  ghost predicate Admission(v: View, events: seq<KEvent>, j: nat, w: View, maxGuest: nat, listenFd: nat)
    requires j < |events| && events[j].Incoming?
  {
    var keys := Remaining(v, events[..j]);
    var fd := events[j].accept(keys + {listenFd});
    if |keys| < maxGuest && fd != -1 then
      && fd >= 0 && fd !in keys && fd in w.live && w.live[fd] !in v.queues
      && w.live[fd] in w.queues && w.queues[w.live[fd]] == Seen(Running, [])
      && w.live.Keys == Remaining(v, events) + {fd}
    else w.live.Keys == Remaining(v, events)
  }

  ghost predicate Doors(v: View, events: seq<KEvent>, w: View, maxGuest: nat, listenFd: nat) {
    && (forall j :: 0 <= j < |events| && events[j].Incoming? ==> Admission(v, events, j, w, maxGuest, listenFd))
    && ((forall j :: 0 <= j < |events| ==> events[j].Ready?) ==> w.live.Keys == Remaining(v, events))
  }

  /** What a batch does to the loop: every entry takes effect, each on the connection it was made
      out for; the other connections are left alone; and queues are released by their entries only. */
  ghost predicate Effect(v: View, events: seq<KEvent>, listenFd: nat, w: View) {
    && (forall j :: 0 <= j < |events| ==> Handled(v, events[j], w))
    && (forall f :: NotIn(f, events, listenFd) ==> Untouched(v, f, w))
    && (forall q :: q in w.released ==> Justified(v, events, q))
  }

  lemma StepHandled(v: View, d: KEvent, w: View, e: KEvent, x: View, maxGuest: nat, listenFd: nat)
    requires Fits(v) && Handled(v, d, w) && Step(w, e, x, maxGuest, listenFd) && (e.Ready? ==> v.Holds(e))
    requires Ident(d, listenFd) != Ident(e, listenFd)
    ensures Handled(v, d, x)
  {
    hide React, AtSwitch;
  }

  lemma StepUntouched(v: View, f: nat, w: View, e: KEvent, x: View, maxGuest: nat, listenFd: nat)
    requires Fits(v) && Untouched(v, f, w) && Step(w, e, x, maxGuest, listenFd)
    requires e.Ready? ==> v.Holds(e) && f != e.fd
    ensures Untouched(v, f, x)
  {
    hide React, AtSwitch;
  }

  lemma StepOwn(v: View, e: KEvent, w: View, x: View, maxGuest: nat, listenFd: nat)
    requires e.Ready? ==> v.Holds(e) && Untouched(v, e.fd, w)
    requires Step(w, e, x, maxGuest, listenFd)
    ensures Handled(v, e, x)
    ensures w.released <= x.released
    ensures forall q :: q in x.released ==> q in w.released || ClosedBy(v, e, q)
  {
    hide React, AtSwitch;
  }

  lemma StepJustified(v: View, events: seq<KEvent>, e: KEvent, q: SXQueue)
    requires Justified(v, events, q) || ClosedBy(v, e, q)
    ensures Justified(v, events + [e], q)
  {
    hide ClosedBy;
    if q !in v.released {
      if ClosedBy(v, e, q) {
        assert (events + [e])[|events|] == e;
      } else {
        var j :| 0 <= j < |events| && ClosedBy(v, events[j], q);
        assert (events + [e])[j] == events[j];
      }
    }
  }

  /** One more entry. */
  lemma EffectStep(v: View, events: seq<KEvent>, e: KEvent, w: View, x: View, maxGuest: nat, listenFd: nat)
    requires Fits(v) && Effect(v, events, listenFd, w) && Step(w, e, x, maxGuest, listenFd)
    requires NotIn(Ident(e, listenFd), events, listenFd) && (e.Ready? ==> v.Holds(e))
    ensures Effect(v, events + [e], listenFd, x)
  {
    hide Fits, Handled, Untouched, Step, Served, Justified, ClosedBy;
    var more := events + [e];
    assert e.Ready? ==> NotIn(e.fd, events, listenFd);
    StepOwn(v, e, w, x, maxGuest, listenFd);
    forall j | 0 <= j < |more| ensures Handled(v, more[j], x) {
      if j < |events| {
        StepHandled(v, events[j], w, e, x, maxGuest, listenFd);
      }
    }
    forall f | NotIn(f, more, listenFd) ensures Untouched(v, f, x) {
      assert more[|events|] == e;
      assert forall j :: 0 <= j < |events| ==> more[j] == events[j];
      StepUntouched(v, f, w, e, x, maxGuest, listenFd);
    }
    forall q | q in x.released ensures Justified(v, more, q) {
      StepJustified(v, events, e, q);
    }
  }

  /** The entry that is next: not seen before, and its queue is registered now as it was at first. */
  lemma BatchEntry(v: View, events: seq<KEvent>, i: nat, listenFd: nat, w: View)
    requires Batch(events, listenFd, v.live) && Fits(v) && i < |events| && Effect(v, events[..i], listenFd, w)
    ensures NotIn(Ident(events[i], listenFd), events[..i], listenFd)
    ensures Registered(events[i], w.live)
    ensures events[i].Ready? ==> v.Holds(events[i]) && Untouched(v, events[i].fd, w)
  {
    hide Handled, Justified, Fresh;
    assert NotIn(Ident(events[i], listenFd), events[..i], listenFd);
    assert Untouched(v, Ident(events[i], listenFd), w);
  }

  lemma IsRefused(v: View, accept: set<nat> -> int, w: View, maxGuest: nat, listenFd: nat)
    requires |v.live| >= maxGuest || accept(v.live.Keys + {listenFd}) == -1
    requires w.live == v.live && w.released == v.released && w.queues.Keys == v.queues.Keys
    requires forall q :: q in v.queues ==> w.queues[q] == v.queues[q]
    ensures Opens(v, accept, w, maxGuest, listenFd)
  {
    assert w.queues == v.queues;
  }

  lemma IsOpened(v: View, accept: set<nat> -> int, fd: nat, queue: SXQueue, w: View, maxGuest: nat, listenFd: nat)
    requires |v.live| < maxGuest && fd == accept(v.live.Keys + {listenFd})
    requires fd !in v.live && fd != listenFd && queue !in v.queues
    requires w.live == v.live[fd := queue] && w.released == v.released
    requires w.queues == v.queues[queue := Seen(Running, [])]
    ensures Opens(v, accept, w, maxGuest, listenFd)
  {
  }

  lemma IncomingStep(v: View, e: KEvent, w: View, maxGuest: nat, listenFd: nat)
    requires e.Incoming? && Opens(v, e.accept, w, maxGuest, listenFd)
    ensures Step(v, e, w, maxGuest, listenFd)
  {
  }

  lemma ServedFrom(v: View, e: KEvent)
    requires e.Ready? && e.queue in v.queues
    ensures Served(v, e) == React(e, AtSwitch(e, v.queues[e.queue].status))
  {
  }

  lemma StepReady(v: View, e: KEvent, r: Reaction, w: View, maxGuest: nat, listenFd: nat)
    requires v.Holds(e) && r == Served(v, e) && w.queues.Keys == v.queues.Keys
    requires w.live == (if r.stays then v.live else v.live - {e.fd})
    requires w.released == (if r.stays then v.released else v.released + [e.queue])
    requires forall q :: q in v.queues && q != e.queue ==> w.queues[q] == v.queues[q]
    requires w.queues[e.queue] == Seen(r.status, v.queues[e.queue].trace + r.says)
    ensures Step(v, e, w, maxGuest, listenFd)
  {
    hide Served;
    assert w.queues == v.queues[e.queue := w.queues[e.queue]];
  }

  lemma BooksFit(live: map<nat, SXQueue>, released: seq<SXQueue>, told: map<SXQueue, seq<Callback>>,
                 listenFd: nat, v: View)
    requires Books(live, released, told, listenFd) && v.live == live && v.queues.Keys == told.Keys
    ensures Fits(v)
  {
    BooksAside(live, released, told, listenFd);
    hide Books;
  }

  /** Descriptors that no entry names are still there, and the rest of the table only shrinks. */
  lemma {:induction false} RemainingKeeps(v: View, events: seq<KEvent>, listenFd: nat, f: nat)
    requires f in v.live && NotIn(f, events, listenFd)
    ensures f in Remaining(v, events)
    decreases |events|
  {
    hide ClosedBy;
    if events != [] {
      var prefix := events[..|events| - 1];
      assert forall j :: 0 <= j < |prefix| ==> prefix[j] == events[j];
      RemainingKeeps(v, prefix, listenFd, f);
      assert Ident(events[|events| - 1], listenFd) != f;
    }
  }

  lemma RemainingMore(v: View, events: seq<KEvent>, e: KEvent)
    ensures Remaining(v, events + [e])
         == Remaining(v, events) - if e.Ready? && ClosedBy(v, e, e.queue) then {e.fd} else {}
  {
    assert (events + [e])[..|events|] == events;
  }

  lemma StepKeys(v: View, e: KEvent, w: View, x: View, maxGuest: nat, listenFd: nat)
    requires e.Ready? && v.Holds(e) && Untouched(v, e.fd, w) && Step(w, e, x, maxGuest, listenFd)
    ensures x.live.Keys == w.live.Keys - if ClosedBy(v, e, e.queue) then {e.fd} else {}
    ensures forall f :: f in x.live ==> x.live[f] == w.live[f]
    ensures x.queues.Keys == w.queues.Keys
    ensures forall q :: q in w.queues && q != e.queue ==> x.queues[q] == w.queues[q]
  {
    hide React, AtSwitch;
  }

  /** An earlier entry of the listening socket keeps its effect when another entry is served. */
  lemma AdmissionStep(v: View, events: seq<KEvent>, j: nat, e: KEvent, w: View, x: View, maxGuest: nat, listenFd: nat)
    requires j < |events| && events[j].Incoming? && Admission(v, events, j, w, maxGuest, listenFd)
    requires e.Ready? && v.Holds(e) && Untouched(v, e.fd, w) && Step(w, e, x, maxGuest, listenFd)
    requires NotIn(e.fd, events, listenFd)
    ensures Admission(v, events + [e], j, x, maxGuest, listenFd)
  {
    var before := events[..j];
    assert (events + [e])[..j] == before && (events + [e])[j] == events[j];
    assert NotIn(e.fd, before, listenFd) by {
      assert forall k :: 0 <= k < j ==> before[k] == events[k];
    }
    RemainingKeeps(v, before, listenFd, e.fd);
    RemainingMore(v, events, e);
    StepKeys(v, e, w, x, maxGuest, listenFd);
    hide Step, ClosedBy, Untouched, NotIn, Remaining;
  }

  lemma OpensKeys(v: View, accept: set<nat> -> int, w: View, maxGuest: nat, listenFd: nat)
    requires Opens(v, accept, w, maxGuest, listenFd)
    ensures var fd := accept(v.live.Keys + {listenFd});
            if |v.live| < maxGuest && fd != -1 then
              && fd >= 0 && fd !in v.live.Keys && fd in w.live && w.live[fd] !in v.queues && w.live[fd] in w.queues
              && w.queues[w.live[fd]] == Seen(Running, []) && w.live.Keys == v.live.Keys + {fd}
            else w.live.Keys == v.live.Keys
    ensures v.queues.Keys <= w.queues.Keys
  {
  }

  /** The entry of the listening socket, when it is served. */
  lemma AdmissionNow(v: View, events: seq<KEvent>, e: KEvent, w: View, x: View, maxGuest: nat, listenFd: nat)
    requires e.Incoming? && w.live.Keys == Remaining(v, events) && Opens(w, e.accept, x, maxGuest, listenFd)
    requires v.queues.Keys <= w.queues.Keys
    ensures Admission(v, events + [e], |events|, x, maxGuest, listenFd)
    ensures v.queues.Keys <= x.queues.Keys
  {
    assert (events + [e])[..|events|] == events;
    RemainingMore(v, events, e);
    OpensKeys(w, e.accept, x, maxGuest, listenFd);
    hide Remaining, Opens;
    SameKeys(w.live, Remaining(v, events));
    assert Remaining(v, events + [e]) == Remaining(v, events);
  }

  lemma SameKeys<K, V>(m: map<K, V>, keys: set<K>)
    requires m.Keys == keys
    ensures |m| == |keys|
  {
  }

  lemma DoorsOpen(v: View, events: seq<KEvent>, e: KEvent, w: View, x: View, maxGuest: nat, listenFd: nat)
    requires e.Incoming? && Doors(v, events, w, maxGuest, listenFd)
    requires Opens(w, e.accept, x, maxGuest, listenFd)
    requires v.queues.Keys <= w.queues.Keys && NotIn(listenFd, events, listenFd)
    ensures Doors(v, events + [e], x, maxGuest, listenFd)
    ensures v.queues.Keys <= x.queues.Keys
  {
    hide Remaining, Admission, Opens;
    assert forall j :: 0 <= j < |events| ==> events[j].Ready?;
    AdmissionNow(v, events, e, w, x, maxGuest, listenFd);
    var more := events + [e];
    assert forall j :: 0 <= j < |events| ==> more[j] == events[j];
    assert more[|events|] == e;
  }

  lemma DoorsStay(v: View, events: seq<KEvent>, e: KEvent, w: View, x: View, maxGuest: nat, listenFd: nat)
    requires e.Ready? && Doors(v, events, w, maxGuest, listenFd) && Step(w, e, x, maxGuest, listenFd)
    requires v.Holds(e) && Untouched(v, e.fd, w) && NotIn(e.fd, events, listenFd)
    ensures Doors(v, events + [e], x, maxGuest, listenFd)
    ensures x.queues.Keys == w.queues.Keys
  {
    StepKeys(v, e, w, x, maxGuest, listenFd);
    RemainingMore(v, events, e);
    hide Untouched, Remaining, Admission, Step, NotIn, ClosedBy;
    var more := events + [e];
    assert forall j :: 0 <= j < |events| ==> more[j] == events[j];
    assert more[|events|] == e;
    forall j | 0 <= j < |more| && more[j].Incoming?
      ensures Admission(v, more, j, x, maxGuest, listenFd)
    {
      AdmissionStep(v, events, j, e, w, x, maxGuest, listenFd);
    }
  }

  lemma DoorsStep(v: View, events: seq<KEvent>, e: KEvent, w: View, x: View, maxGuest: nat, listenFd: nat)
    requires Doors(v, events, w, maxGuest, listenFd) && Step(w, e, x, maxGuest, listenFd)
    requires v.queues.Keys <= w.queues.Keys
    requires NotIn(Ident(e, listenFd), events, listenFd)
    requires e.Ready? ==> v.Holds(e) && Untouched(v, e.fd, w)
    ensures Doors(v, events + [e], x, maxGuest, listenFd)
    ensures v.queues.Keys <= x.queues.Keys
  {
    assert e.Incoming? ==> Opens(w, e.accept, x, maxGuest, listenFd);
    hide Doors, Step, Untouched, Opens, NotIn;
    if e.Incoming? {
      DoorsOpen(v, events, e, w, x, maxGuest, listenFd);
    } else {
      DoorsStay(v, events, e, w, x, maxGuest, listenFd);
    }
  }

  /** Everything that is known once these entries have been served: their effect on their connections,
      and what came in at the listening socket. */
  ghost predicate Batched(v: View, events: seq<KEvent>, w: View, maxGuest: nat, listenFd: nat) {
    Effect(v, events, listenFd, w) && Doors(v, events, w, maxGuest, listenFd) && v.queues.Keys <= w.queues.Keys
  }

  lemma BatchedNext(v: View, events: seq<KEvent>, i: nat, w: View, maxGuest: nat, listenFd: nat)
    requires Batch(events, listenFd, v.live) && Fits(v) && i < |events|
    requires Batched(v, events[..i], w, maxGuest, listenFd)
    ensures Registered(events[i], w.live)
  {
    hide Effect, Doors, Batch, Fits, Registered;
    BatchEntry(v, events, i, listenFd, w);
  }

  lemma BatchedStep(v: View, events: seq<KEvent>, i: nat, w: View, x: View, maxGuest: nat, listenFd: nat)
    requires Batch(events, listenFd, v.live) && Fits(v) && i < |events|
    requires Batched(v, events[..i], w, maxGuest, listenFd) && Step(w, events[i], x, maxGuest, listenFd)
    ensures Batched(v, events[..i + 1], x, maxGuest, listenFd)
  {
    hide Effect, Doors, Batch, Fits, Step, NotIn, Untouched, Registered;
    BatchEntry(v, events, i, listenFd, w);
    EffectStep(v, events[..i], events[i], w, x, maxGuest, listenFd);
    DoorsStep(v, events[..i], events[i], w, x, maxGuest, listenFd);
    assert events[..i] + [events[i]] == events[..i + 1];
  }

  lemma BatchedNone(v: View, events: seq<KEvent>, maxGuest: nat, listenFd: nat)
    requires Fits(v)
    ensures Batched(v, events[..0], v, maxGuest, listenFd)
  {
    assert events[..0] == [];
    hide Effect, Doors, Fits;
    EffectOfNone(v, listenFd);
    DoorsOfNone(v, maxGuest, listenFd);
  }

  lemma BatchedAll(v: View, events: seq<KEvent>, w: View, maxGuest: nat, listenFd: nat)
    requires Batched(v, events[..|events|], w, maxGuest, listenFd)
    ensures Batched(v, events, w, maxGuest, listenFd)
  {
    assert events[..|events|] == events;
  }

  lemma DoorsOfNone(v: View, maxGuest: nat, listenFd: nat)
    ensures Doors(v, [], v, maxGuest, listenFd)
  {
  }

  lemma EffectOfNone(v: View, listenFd: nat)
    requires Fits(v)
    ensures Effect(v, [], listenFd, v)
  {
  }

  class Loop {
    const maxGuest: nat
    const listenFd: nat
    var count: int
    var live: map<nat, SXQueue>
    ghost var released: seq<SXQueue>
    ghost var told: map<SXQueue, seq<Callback>>

    /** `count` is the number of registered connections; each is held once, a released one no more. */
    ghost predicate Valid()
      reads this, live.Values, released
    {
      && count == |live| <= maxGuest
      && Books(live, released, told, listenFd)
      && (forall f :: f in live ==> live[f].refCount == 1)
      && (forall i :: 0 <= i < |released| ==> released[i].refCount == 0)
    }

    constructor (maxGuest: nat, listenFd: nat)
      ensures Valid() && live == map[] && released == [] && this.maxGuest == maxGuest && this.listenFd == listenFd
    {
      this.maxGuest, this.listenFd, count, live, released, told := maxGuest, listenFd, 0, map[], [], map[];
    }

    /** Lines 534-562 */
    method ServeIncoming(accept: set<nat> -> int)
      requires Valid() && Fresh(accept)
      modifies this
      ensures Valid() && Opens(old(Now()), accept, Now(), maxGuest, listenFd)
      ensures forall f :: f in live ==> fresh(live[f]) || (f in old(live) && live[f] == old(live)[f])
    {
      ghost var v := Now();
      hide Books, Opens, Now;
      if !(count >= maxGuest) {
        var fd := accept(live.Keys + {listenFd});
        if fd != -1 {
          RegisterSeen(fd);
          IsOpened(v, accept, fd, live[fd], Now(), maxGuest, listenFd);
          return;
        }
      }
      IsRefused(v, accept, Now(), maxGuest, listenFd);
    }

    /** Lines 548-559: a new queue is registered for the descriptor, and counted. */
    method Register(fd: nat)
      requires Valid() && fd !in live && fd != listenFd && |live| < maxGuest
      modifies this
      ensures Valid() && fd in live && fresh(live[fd]) && live[fd].status == Running
      ensures live == old(live)[fd := live[fd]] && released == old(released)
      ensures told == old(told)[live[fd] := []]
      ensures forall q :: q in old(told) ==> q.status == old(q.status)
    {
      hide Books;
      var queue := new SXQueue();
      BooksOpen(live, released, told, listenFd, fd, queue);
      live := live[fd := queue];
      count := count + 1;
      told := told[queue := []];
    }

    /** The same, as it looks from outside. */
    method RegisterSeen(fd: nat)
      requires Valid() && fd !in live && fd != listenFd && |live| < maxGuest
      modifies this
      ensures Valid() && fd in live && fresh(live[fd])
      ensures live == old(live)[fd := live[fd]] && released == old(released)
      ensures Now().queues == old(Now()).queues[live[fd] := Seen(Running, [])]
      ensures live[fd] !in old(Now()).queues
    {
      hide *;
      ghost var before := Now().queues;
      Register(fd);
      ghost var after := Now().queues;
      forall q | q in before
        ensures q != live[fd] && after[q] == before[q]
      {
        assert q in old(told);
      }
      assert after.Keys == before.Keys + {live[fd]};
      assert after[live[fd]] == Seen(Running, []);
      assert after == before[live[fd] := Seen(Running, [])];
    }

    /** Lines 567-640 */
    method ServeReady(e: KEvent)
      requires Valid() && e.Ready? && Registered(e, live)
      modifies this, e.queue
      ensures Valid()
      ensures var r := React(e, AtSwitch(e, old(e.queue.status)));
              && e.queue.status == r.status
              && told == old(told)[e.queue := old(told[e.queue]) + r.says]
              && live == (if r.stays then old(live) else old(live) - {e.fd})
              && released == (if r.stays then old(released) else old(released) + [e.queue])
    {
      hide Books, ClosedTrace, OpenTrace, React, Called, Fresh;
      BooksApart(live, released, told, listenFd, e.fd);
      ghost var trace := told[e.queue];
      if e.server != Running {
        e.queue.status := e.serverAgain;
      }
      var _ := Perform(e.queue, e.before);
      ghost var status := e.queue.status;
      var stays, says := ServeByStatus(e);
      ReactionKeepsLife(e, status, trace);
      if stays {
        BooksTell(live, released, told, listenFd, e.fd, trace + says);
        told := told[e.queue := trace + says];
      } else {
        Close(e.fd, e.queue, trace + says);
      }
    }

    /** Lines 626-639 */
    method Close(fd: nat, queue: SXQueue, ghost trace: seq<Callback>)
      requires Valid() && fd in live && live[fd] == queue && ClosedTrace(trace)
      modifies this, queue`refCount
      ensures Valid()
      ensures live == old(live) - {fd} && released == old(released) + [queue]
      ensures told == old(told)[queue := trace]
    {
      hide Books, ClosedTrace, OpenTrace;
      BooksApart(live, released, told, listenFd, fd);
      BooksClose(live, released, told, listenFd, fd, trace);
      told := told[queue := trace];
      released := released + [queue];
      live := live - {fd};
      var _ := queue.ReleaseQueue();
      count := count - 1;
    }

    ghost function Now(): (v: View)
      reads this, told.Keys
      ensures v.live == live && v.released == released && v.queues.Keys == told.Keys
      ensures forall q :: q in told ==> v.queues[q] == Seen(q.status, told[q])
    {
      View(live, released, map q | q in told :: Seen(q.status, told[q]))
    }

    method EnterReady(e: KEvent)
      requires Valid() && e.Ready? && Registered(e, live)
      modifies this, e.queue
      ensures Valid() && Step(old(Now()), e, Now(), maxGuest, listenFd)
      ensures forall f :: f in live ==> f in old(live) && live[f] == old(live)[f]
    {
      BooksApart(live, released, told, listenFd, e.fd);
      hide Books, React, AtSwitch, Step, Now, Valid, Served, OpenTrace, ClosedTrace, Fresh;
      ghost var v := Now();
      ghost var r := Served(v, e);
      ServedFrom(v, e);
      ServeReady(e);
      StepReady(v, e, r, Now(), maxGuest, listenFd);
    }

    /** One entry of a batch. */
    method Serve(e: KEvent)
      requires Valid() && Registered(e, live)
      modifies this, if e.Ready? then {e.queue} else {}
      ensures Valid() && Step(old(Now()), e, Now(), maxGuest, listenFd)
      ensures forall f :: f in live ==> fresh(live[f]) || (f in old(live) && live[f] == old(live)[f])
    {
      RegisteredHere(e, live);
      hide Books, Step, Opens, Now;
      if e.Incoming? {
        ServeIncoming(e.accept);
        IncomingStep(old(Now()), e, Now(), maxGuest, listenFd);
      } else {
        EnterReady(e);
      }
    }

    /** The next entry of a batch. */
    method ServeEntry(events: seq<KEvent>, i: nat, ghost start: View)
      requires Valid() && Batch(events, listenFd, start.live) && Fits(start) && i < |events|
      requires Batched(start, events[..i], Now(), maxGuest, listenFd)
      modifies this, live.Values
      ensures Valid() && Batched(start, events[..i + 1], Now(), maxGuest, listenFd)
      ensures forall f :: f in live ==> fresh(live[f]) || (f in old(live) && live[f] == old(live)[f])
    {
      hide *;
      ghost var before := Now();
      BatchedNext(start, events, i, before, maxGuest, listenFd);
      RegisteredHere(events[i], live);
      Serve(events[i]);
      BatchedStep(start, events, i, before, Now(), maxGuest, listenFd);
    }

    /** Lines 532-641. Every entry of a batch finds its queue still registered, whatever the entries
        before it did. The entry of the listening socket registers a new running connection exactly
        when there is room at its turn and accept finds one; nothing else is added to the table. */
    method ServeBatch(events: seq<KEvent>)
      requires Valid() && Batch(events, listenFd, live)
      modifies this, live.Values
      ensures Valid() && Batched(old(Now()), events, Now(), maxGuest, listenFd)
      ensures forall f :: f in live ==> fresh(live[f]) || live[f] in old(live).Values
    {
      ghost var start := Now();
      BooksFit(live, released, told, listenFd, start);
      hide *;
      BatchedNone(start, events, maxGuest, listenFd);
      for i := 0 to |events|
        invariant Valid() && Batched(start, events[..i], Now(), maxGuest, listenFd)
        invariant forall f :: f in live ==> fresh(live[f]) || live[f] in old(live).Values
      {
        ServeEntry(events, i, start);
      }
      BatchedAll(start, events, Now(), maxGuest, listenFd);
    }
  }

  lemma RegisteredHere(e: KEvent, live: map<nat, SXQueue>)
    requires Registered(e, live)
    ensures e.Ready? ==> e.fd in live && live[e.fd] == e.queue
  {
  }

  /** Lines 575-624; `stays` says that the exit label is not reached. */
  method ServeByStatus(e: KEvent) returns (stays: bool, ghost says: seq<Callback>)
    requires e.Ready?
    modifies e.queue`status
    ensures e.queue.status == React(e, old(e.queue.status)).status
    ensures stays == React(e, old(e.queue.status)).stays
    ensures says == React(e, old(e.queue.status)).says
  {
    hide Called;
    var s, suspended := e.junk, e.junkSuspended;
    var fallsThrough := false;
    says := [];
    match e.queue.status {
      case Running =>
        var _ := Perform(e.queue, e.during);
        s := e.received;
        if s == -1 {
          return false, says + [DidDisconnect];
        }
        says := says + [Data];
        s := e.handled;
        if s == -1 {
          return false, says + [DidDisconnect];
        }
      case Resuming =>
        e.queue.status := Running;
        says := says + [DidResume];
      case Suspend =>
        if !suspended {
          says := says + [WillSuspend];
        }
        suspended := true;
        var _ := Perform(e.queue, e.during);
        if e.received == 0 || e.received == -1 {
          return false, says + [DidDisconnect];
        }
        match e.queue.status {
          case ShouldTerminate =>
            return false, says + [DidDisconnect];
          case Idle =>
            return false, says + [DidDisconnect];
          case Resuming =>
            says := says + [Data];
            s := e.handled;
          case Running =>
            says := says + [Data];
            s := e.handled;
          case _ =>
        }
        fallsThrough := true;
      case ShouldTerminate =>
        fallsThrough := true;
      case Idle =>
        fallsThrough := true;
      case _ =>
    }
    if fallsThrough {
      return false, says + [WillKill, DidDisconnect];
    }
    if s == 0 {
      return false, says + [DidDisconnect];
    }
    return true, says;
  }
}
