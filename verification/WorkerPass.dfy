/** What one pass of a worker's loop does (Examples/HTTP-proxy/SXServer.c:409-464), said by what the
    pass finds: the status of the server, the calls of other threads, and what recv and the handler
    answer. Calls may come before every step. */
module WorkerPass {
  import opened Status
  import opened Runtime
  import opened WorkerBlock

  // ---- one step, by where the worker is ----

  lemma Turn0(c: Conn, t: seq<Turn>)
    ensures Turns(c, t[..0]) == c
  {
  }

  lemma AtSwitch(c: Conn, t: Turn)
    requires c.place == Switch
    ensures var d, look := TakeTurn(c, t), Called(c.status, t.calls);
            && d.trace == c.trace && d.s == c.s && d.suspended == c.suspended && d.status == look
            && d.place == match look {
                 case Running => Receive
                 case Resuming => ResumeNow
                 case Suspend => NoteSuspend
                 case ShouldTerminate => AnnounceKill
                 case Idle => AnnounceKill
                 case _ => TestS }
  {
    hide Called, Granted;
  }

  lemma AtReceive(c: Conn, t: Turn)
    requires c.place == Receive
    ensures var d := TakeTurn(c, t);
            d.place == (if t.received == -1 then Exit else Deliver) && d.trace == c.trace
  {
    hide Called, Granted;
  }

  lemma AtDelivery(c: Conn, t: Turn)
    requires c.place == Deliver || c.place == DeliverLate
    ensures var d := TakeTurn(c, t); d.place == TestS && d.trace == c.trace + [Data] && d.s == t.handled
  {
    hide Called, Granted;
  }

  lemma AtResume(c: Conn, t: Turn)
    requires c.place == ResumeNow
    ensures var d := TakeTurn(c, t); d.place == AckResume && d.trace == c.trace && d.s == c.s && d.status == Running
  {
    hide Called, Granted;
  }

  lemma AtAcknowledgement(c: Conn, t: Turn)
    requires c.place == AckResume
    ensures var d := TakeTurn(c, t);
            && d.place == TestS && d.trace == c.trace + [DidResume] && d.s == c.s
            && d.status == Called(c.status, t.calls)
  {
    hide Called, Granted;
  }

  lemma AtNote(c: Conn, t: Turn)
    requires c.place == NoteSuspend
    ensures var d := TakeTurn(c, t);
            && d.place == ReceiveQuiet && d.suspended && d.s == c.s && d.status == Called(c.status, t.calls)
            && d.trace == c.trace + if c.suspended then [] else [WillSuspend]
  {
    hide Called, Granted;
  }

  lemma AtQuiet(c: Conn, t: Turn)
    requires c.place == ReceiveQuiet
    ensures var d := TakeTurn(c, t);
            && d.suspended == c.suspended && d.s == c.s && d.trace == c.trace && d.status == Called(c.status, t.calls)
            && d.place == if t.received == 0 || t.received == -1 then Exit else CheckAgain
  {
    hide Called, Granted;
  }

  lemma AtSecondLook(c: Conn, t: Turn)
    requires c.place == CheckAgain
    ensures var d, look := TakeTurn(c, t), Called(c.status, t.calls);
            && d.trace == c.trace && d.s == c.s
            && d.place == if look in {Resuming, Running} then DeliverLate
                          else if look in {ShouldTerminate, Idle} then Exit else TestS
  {
    hide Called, Granted;
  }

  lemma AtAnnouncement(c: Conn, t: Turn)
    requires c.place == AnnounceKill
    ensures var d := TakeTurn(c, t); d.place == Exit && d.trace == c.trace + [WillKill]
  {
    hide Called, Granted;
  }

  // ---- a whole pass ----

  /** Up to the switch: a server that does not run hands its status to the connection, whatever that
      one was; under a running server the connection keeps its own. */
  lemma PassToSwitch(c: Conn, t: seq<Turn>)
    requires c.place == Top && |t| >= 2
    ensures var n := if t[0].server == Running then 1 else 2;
            var d := Turns(c, t[..n]);
            && d.place == Switch && d.trace == c.trace && d.s == c.s && d.suspended == c.suspended
            && d.status == if t[0].server == Running then Called(c.status, t[0].calls) else t[1].server
  {
    Turn0(c, t);
    OneMoreTurn(c, t, 0);
    OneMoreTurn(c, t, 1);
    hide Turns;
  }

  /** A running connection: a recv that fails leaves the loop and tells nothing; anything else that it
      brings, an empty payload included, goes to the handler. */
  lemma PassRunning(c: Conn, t: seq<Turn>)
    requires c.place == Switch && |t| >= 3 && Called(c.status, t[0].calls) == Running
    ensures t[1].received == -1 ==> Turns(c, t[..2]).place == Exit && Turns(c, t[..2]).trace == c.trace
    ensures t[1].received != -1 ==>
              var d := Turns(c, t[..3]);
              d.place == TestS && d.trace == c.trace + [Data] && d.s == t[2].handled
  {
    Turn0(c, t);
    OneMoreTurn(c, t, 0);
    OneMoreTurn(c, t, 1);
    OneMoreTurn(c, t, 2);
    AtSwitch(c, t[0]);
    var receiving := TakeTurn(c, t[0]);
    AtReceive(receiving, t[1]);
    if t[1].received != -1 { AtDelivery(TakeTurn(receiving, t[1]), t[2]); }
    hide Turns, TakeTurn, Called;
  }

  /** A resumed connection runs again and is told so. */
  lemma PassResuming(c: Conn, t: seq<Turn>)
    requires c.place == Switch && |t| >= 3 && Called(c.status, t[0].calls) == Resuming
    ensures var d := Turns(c, t[..3]);
            && d.place == TestS && d.trace == c.trace + [DidResume] && d.s == c.s
            && d.status == Called(Running, t[2].calls)
  {
    Turn0(c, t);
    OneMoreTurn(c, t, 0);
    OneMoreTurn(c, t, 1);
    OneMoreTurn(c, t, 2);
    AtSwitch(c, t[0]);
    var resuming := TakeTurn(c, t[0]);
    AtResume(resuming, t[1]);
    AtAcknowledgement(TakeTurn(resuming, t[1]), t[2]);
    hide Turns, TakeTurn, Called;
  }

  /** A suspended connection is told so the first time, and takes what recv brings. */
  lemma PassSuspended(c: Conn, t: seq<Turn>)
    requires c.place == Switch && |t| >= 3 && Called(c.status, t[0].calls) == Suspend
    ensures var d := Turns(c, t[..3]);
            && d.suspended && d.s == c.s
            && d.trace == c.trace + (if c.suspended then [] else [WillSuspend])
            && d.status == Called(Called(Suspend, t[1].calls), t[2].calls)
            && d.place == if t[2].received == 0 || t[2].received == -1 then Exit else CheckAgain
  {
    Turn0(c, t);
    OneMoreTurn(c, t, 0);
    OneMoreTurn(c, t, 1);
    OneMoreTurn(c, t, 2);
    AtSwitch(c, t[0]);
    var noting := TakeTurn(c, t[0]);
    AtNote(noting, t[1]);
    AtQuiet(TakeTurn(noting, t[1]), t[2]);
    hide Turns, TakeTurn, Called;
  }

  /** The second look at the status decides about that payload: it is delivered to a connection that
      was resumed, dropped without a word by one that is to end, and dropped by one still suspended. */
  lemma PassSecondLook(c: Conn, t: seq<Turn>)
    requires c.place == CheckAgain && |t| >= 2
    ensures var look := Called(c.status, t[0].calls);
            && (look == Resuming || look == Running ==>
                  var d := Turns(c, t[..2]);
                  d.place == TestS && d.trace == c.trace + [Data] && d.s == t[1].handled)
            && (look == ShouldTerminate || look == Idle ==>
                  Turns(c, t[..1]).place == Exit && Turns(c, t[..1]).trace == c.trace)
            && (look !in {Resuming, Running, ShouldTerminate, Idle} ==>
                  var d := Turns(c, t[..1]);
                  d.place == TestS && d.trace == c.trace && d.s == c.s)
  {
    Turn0(c, t);
    OneMoreTurn(c, t, 0);
    OneMoreTurn(c, t, 1);
    AtSecondLook(c, t[0]);
    if TakeTurn(c, t[0]).place == DeliverLate { AtDelivery(TakeTurn(c, t[0]), t[1]); }
    hide Turns, TakeTurn, Called;
  }

  /** A connection that is to end is told so, and leaves the loop. Any other status does nothing. */
  lemma PassOther(c: Conn, t: seq<Turn>)
    requires c.place == Switch && |t| >= 2
    ensures Called(c.status, t[0].calls) in {ShouldTerminate, Idle} ==>
              Turns(c, t[..2]).place == Exit && Turns(c, t[..2]).trace == c.trace + [WillKill]
    ensures Called(c.status, t[0].calls) in {Ignored, ShouldKill} ==>
              var d := Turns(c, t[..1]);
              d.place == TestS && d.trace == c.trace && d.s == c.s
  {
    Turn0(c, t);
    OneMoreTurn(c, t, 0);
    OneMoreTurn(c, t, 1);
    AtSwitch(c, t[0]);
    if TakeTurn(c, t[0]).place == AnnounceKill { AtAnnouncement(TakeTurn(c, t[0]), t[1]); }
    hide Turns, TakeTurn, Called;
  }

  /** The loop goes on exactly when the last answer of the handler was not 0. */
  lemma PassTest(c: Conn, t: seq<Turn>)
    requires c.place == TestS && |t| >= 1
    ensures Turns(c, t[..1]).place == if c.s == 0 then Exit else Top
    ensures Turns(c, t[..1]).trace == c.trace && Turns(c, t[..1]).s == c.s
  {
    Turn0(c, t);
    OneMoreTurn(c, t, 0);
    hide Turns, Called, Granted;
  }

  /** Around the loop: the connection is announced before it and closed after it. */
  lemma PassAround(c: Conn, t: seq<Turn>)
    requires |t| >= 1
    ensures c.place == Connected ==> Turns(c, t[..1]).place == Top && Turns(c, t[..1]).trace == c.trace + [DidConnect]
    ensures c.place == Exit ==> Turns(c, t[..1]).place == Release && Turns(c, t[..1]).trace == c.trace + [DidDisconnect]
  {
    Turn0(c, t);
    OneMoreTurn(c, t, 0);
    hide Turns, Called, Granted;
  }
}
