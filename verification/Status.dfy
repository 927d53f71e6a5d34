/** Statuses, their checks and the calls that change them (Examples/HTTP-proxy/SXQueue.c:54-125,
    Examples/HTTP-proxy/SXServer.c:190-265). */
module Status {
  import opened RefCounting

  datatype Status = Idle | Running | Resuming | Suspend | ShouldTerminate | Ignored | ShouldKill
  {
    /** The value of the enumeration (Examples/HTTP-proxy/SXQueue.h:49-57). */
    function Code(): int {
      match this
      case Idle => 0
      case Running => 1
      case Resuming => 2
      case Suspend => 3
      case ShouldTerminate => 4
      case Ignored => 5
      case ShouldKill => 6
    }
  }

  /** The numbers that callers see, negated, when a call is refused. */
  lemma Codes()
    ensures Idle.Code() == 0 && Running.Code() == 1 && Resuming.Code() == 2 && Suspend.Code() == 3
    ensures ShouldTerminate.Code() == 4 && Ignored.Code() == 5 && ShouldKill.Code() == 6
  {
  }

  type SXError = int
  const SUCCESS: SXError := 0
  const INVALID_SERVER: SXError := -2

  /** Examples/HTTP-proxy/SXQueue.c:103-108 */
  function CheckStatus(current: Status, required: Status): SXError {
    if current == required then SUCCESS else -current.Code()
  }

  /** Examples/HTTP-proxy/SXQueue.c:111-117 */
  method CheckCompatibleStatus(current: Status, allowed: seq<Status>) returns (err: SXError)
    ensures err == SUCCESS <==> current in allowed || current == Idle
    ensures err != SUCCESS ==> err == -current.Code()
  {
    for i := 0 to |allowed|
      invariant current !in allowed[..i]
    {
      if current == allowed[i] {
        return SUCCESS;
      }
    }
    return -current.Code();
  }

  /** Examples/HTTP-proxy/SXQueue.c:119-125 */
  method CheckIncompatibleStatus(current: Status, refused: seq<Status>) returns (err: SXError)
    ensures err == SUCCESS <==> current !in refused || current == Idle
    ensures err != SUCCESS ==> err == -current.Code()
  {
    for i := 0 to |refused|
      invariant current !in refused[..i]
    {
      if current == refused[i] {
        return -current.Code();
      }
    }
    return SUCCESS;
  }

  /** A failed check reports the status negated, and for an idle object that is the code of
      success: every check lets an idle object through. */
  lemma IdlePassesEveryCheck(current: Status, required: Status)
    ensures CheckStatus(current, required) == SUCCESS <==> current == required || current == Idle
  {
    assert current.Code() == 0 <==> current == Idle;
  }

  // ---- what the calls make of a status ----

  predicate MaySuspend(status: Status) {
    status == Running || status == Idle
  }

  predicate MayResume(status: Status) {
    status == Suspend || status == Idle
  }

  /** What the two calls make of every status. */
  lemma CallsMake(status: Status)
    ensures Suspended(status) == if status in {Idle, Running} then Suspend else status
    ensures Resumed(status) == if status in {Idle, Suspend} then Resuming else status
  {
  }

  function Suspended(status: Status): Status {
    if MaySuspend(status) then Suspend else status
  }

  function Resumed(status: Status): Status {
    if MayResume(status) then Resuming else status
  }

  /** Calls that other threads make on a connection. */
  datatype QueueCall = SuspendIt | ResumeIt

  function Called(status: Status, calls: seq<QueueCall>): Status
    decreases |calls|
  {
    if calls == [] then status
    else Called(if calls[0] == SuspendIt then Suspended(status) else Resumed(status), calls[1..])
  }

  /** The resumes among them that are granted. */
  function Granted(status: Status, calls: seq<QueueCall>): nat
    decreases |calls|
  {
    if calls == [] then 0
    else if calls[0] == SuspendIt then Granted(Suspended(status), calls[1..])
    else Granted(Resumed(status), calls[1..]) + if MayResume(status) then 1 else 0
  }

  /** Calls of other threads reach the queue one after the other. */
  method Perform(queue: SXQueue, calls: seq<QueueCall>) returns (granted: nat)
    modifies queue`status
    ensures queue.status == Called(old(queue.status), calls)
    ensures granted == Granted(old(queue.status), calls)
  {
    granted := 0;
    for i := 0 to |calls|
      invariant Called(queue.status, calls[i..]) == Called(old(queue.status), calls)
      invariant granted + Granted(queue.status, calls[i..]) == Granted(old(queue.status), calls)
    {
      assert calls[i..][0] == calls[i] && calls[i..][1..] == calls[i + 1..];
      if calls[i] == SuspendIt {
        var _ := queue.SuspendQueue();
      } else {
        var err := queue.ResumeQueue();
        granted := granted + if err == SUCCESS then 1 else 0;
      }
    }
  }

  /** The connection object. */
  class SXQueue {
    var status: Status
    var refCount: int

    constructor ()
      ensures status == Running && refCount == 1
    {
      status, refCount := Running, 1;
    }

    /** Examples/HTTP-proxy/SXQueue.c:54-64 */
    method SuspendQueue() returns (err: SXError)
      modifies this`status
      ensures status == Suspended(old(status)) && (err == SUCCESS <==> MaySuspend(old(status)))
      ensures err != SUCCESS ==> err == -old(status).Code()
    {
      err := CheckCompatibleStatus(status, [Idle, Running]);
      if err != SUCCESS {
        return;
      }
      status := Suspend;
    }

    /** Examples/HTTP-proxy/SXQueue.c:66-75 */
    method ResumeQueue() returns (err: SXError)
      modifies this`status
      ensures status == Resumed(old(status)) && (err == SUCCESS <==> MayResume(old(status)))
      ensures err != SUCCESS ==> err == -old(status).Code()
    {
      IdlePassesEveryCheck(status, Suspend);
      err := CheckStatus(status, Suspend);
      if err != SUCCESS {
        return;
      }
      status := Resuming;
    }

    /** Examples/HTTP-proxy/SXQueue.c:85-91 */
    method RetainQueue()
      modifies this`refCount
      ensures refCount == Retained(old(refCount))
    {
      if refCount != WEAK {
        refCount := refCount + 1;
      }
    }

    /** Examples/HTTP-proxy/SXQueue.c:93-101; the result says whether the queue is freed. */
    method ReleaseQueue() returns (freed: bool)
      modifies this`refCount
      ensures refCount == Released(old(refCount)) && freed == Frees(old(refCount))
    {
      freed := false;
      if refCount != WEAK {
        refCount := refCount - 1;
        freed := refCount == 0;
      }
    }
  }

  /** The parts of the server that the calls read and write. */
  class SXServer {
    var status: Status
    var refCount: int

    /** Examples/HTTP-proxy/SXServer.c:66-72: a new server is idle and held once. */
    constructor ()
      ensures status == Idle && refCount == 1
    {
      status, refCount := Idle, 1;
    }

    /** Examples/HTTP-proxy/SXServer.c:224-234 */
    method SuspendServer() returns (err: SXError)
      modifies this`status
      ensures refCount == 0 ==> err == INVALID_SERVER && status == old(status)
      ensures refCount != 0 ==> status == Suspended(old(status)) && (err == SUCCESS <==> MaySuspend(old(status)))
      ensures refCount != 0 && err != SUCCESS ==> err == -old(status).Code()
    {
      if refCount == 0 {
        return INVALID_SERVER;
      }
      err := CheckCompatibleStatus(status, [Idle, Running]);
      if err != SUCCESS {
        return;
      }
      status := Suspend;
    }

    /** Examples/HTTP-proxy/SXServer.c:236-245 */
    method ResumeServer() returns (err: SXError)
      modifies this`status
      ensures refCount == 0 ==> err == INVALID_SERVER && status == old(status)
      ensures refCount != 0 ==> status == Resumed(old(status)) && (err == SUCCESS <==> MayResume(old(status)))
      ensures refCount != 0 && err != SUCCESS ==> err == -old(status).Code()
    {
      if refCount == 0 {
        return INVALID_SERVER;
      }
      IdlePassesEveryCheck(status, Suspend);
      err := CheckStatus(status, Suspend);
      if err != SUCCESS {
        return;
      }
      status := Resuming;
    }

    /** Examples/HTTP-proxy/SXServer.c:247-265 */
    method KillServer() returns (err: SXError)
      modifies this`status
      ensures refCount == 0 ==> err == INVALID_SERVER && status == old(status)
      ensures refCount != 0 ==> status == ShouldTerminate && (err == SUCCESS <==> old(status) != ShouldTerminate)
      ensures refCount != 0 && err != SUCCESS ==> err == -ShouldTerminate.Code()
    {
      if refCount == 0 {
        return INVALID_SERVER;
      }
      if status == Suspend {
        var _ := ResumeServer();
      }
      err := CheckIncompatibleStatus(status, [ShouldTerminate]);
      if err != SUCCESS {
        return;
      }
      status := ShouldTerminate;
    }

    /** Examples/HTTP-proxy/SXServer.c:190-196 */
    method RetainServer()
      modifies this`refCount
      ensures refCount == Retained(old(refCount))
    {
      if refCount != WEAK {
        refCount := refCount + 1;
      }
    }

    /** Examples/HTTP-proxy/SXServer.c:198-219. The kill inside the free sees a count of zero and
        does nothing, whatever the status. */
    method ReleaseServer() returns (freed: bool)
      modifies this
      ensures refCount == Released(old(refCount)) && freed == Frees(old(refCount))
      ensures status == old(status)
    {
      freed := false;
      if refCount != WEAK {
        refCount := refCount - 1;
        if refCount == 0 {
          if status != Idle {
            var _ := KillServer();
          }
          freed := true;
        }
      }
    }
  }
}
