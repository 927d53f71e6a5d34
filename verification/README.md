# A Dafny model of spartanX

spartanX is a small socket-server library in C with a Swift port and an example HTTP proxy. This
project models its two intricate parts and proves what they keep.

**The byte-string engine.** `Splitting.dfy` defines searching, splitting, joining, replacing and
removing on sequences and proves how they relate: uniqueness of the split, replacement as split and
join, invertibility, agreement of removal and replacement. The C loops are then written out over heap
strings, vectors and a heap that records live blocks (`CMemory.dfy`, `Strings.dfy`, `Locations.dfy`,
`StringSplitting.dfy`, `StringReplacing.dfy`, `StringRemoving.dfy`) and proved against those
definitions, including which blocks each call allocates and frees. Whatever is read, written or freed
has to be allocated at that moment, so nothing is used after its release. `HttpProxy.dfy` and
`OriginForm.dfy` compose them into the proxy's rewrite of a request from the absolute form to the
origin form (sections 5.3.1 and 5.3.2 of RFC 7230). `Segments.dfy` is the Swift iterator that splits
incrementally.

**The connection runtime.** `Status.dfy` has the statuses, their checks, and the calls on a
connection and on the server, as methods of classes; `RefCounting.dfy` has the reference counts with
their sentinel. `Runtime.dfy` is the threaded server as a transition system: a listener, any number
of workers and the callers of the interface, in any interleaving, with arbitrary answers from
`accept`, `recv` and the handlers. `RuntimeInvariant.dfy` proves what every reachable state keeps;
`RuntimeGuarantees.dfy`, `RuntimeWindows.dfy`, `RuntimeShutdown.dfy` and `RuntimeLifetime.dfy` prove
what callers can rely on over whole runs; `RuntimeService.dfy` proves what the answers of `recv`, of the
handler and of `shouldConnect` decide; `RuntimeHazard.dfy`, `RuntimeAdmission.dfy` and
`RuntimeWitnesses.dfy` prove, by building runs, that these bounds and conditions are met.
`WorkerBlock.dfy` and `ListenerBlock.dfy` write the two loops out in the form they have in C, with other threads acting between any two steps,
and prove that they take exactly the steps of the transition system, and that every run of the
transition system is, for each of them, such a sequence of steps. `WorkerPass.dfy` says what one pass of
the worker's loop does by what the pass finds. `EventLoop.dfy` is the variant driven by batches
of kernel events.

Where the code does not do what its documentation or its callers expect, the model follows the code,
and the exact condition is proved:

- A suspended connection can still hand one payload to the data handler, contrary to readme.md:31;
  this happens exactly when its worker had already taken the receiving branch (`LatePayloadIff`).
- Resuming a suspended server does not bring it back: unless it is started a second time, a server that
  has begun and is not running never runs again (`NeverRunsAgain`), after a resume its connections get
  at most one more payload each (`ResumedServerStarves`), and from a new server there is, for every
  number, a run in which one resume is acknowledged that many times (`OneResumeAcknowledged`).
- A kill can be lost: `SXServerStart` returns before the listener block stores the running status, and
  a kill that comes in between is overwritten. The server can come to run after a kill exactly when
  the block had not begun (`KillLostIff`, `EarlyKillIsLost`).
- A status check that fails reports the negated status, which for an idle object is the code of
  success, so an idle object passes every check (`IdlePassesEveryCheck`).
- The rewriter removes the scheme with an offset that is right exactly for schemes one character
  longer than the method, or longer with a lucky continuation (`TrimDropsSchemeIff`); "GET http://" is
  right and "POST http://" is not (`PostIsMangled`).
- The rewriter removes the host wherever it meets it, not only where the line names it first: the
  request comes out right if and only if the method does not hold the host and neither does what
  follows it, but for the first character, which the removal skips (`AbsoluteToOrigin`). A query that
  names the host again is spoilt (`RepeatedHostIsMangled`).
- Removal in place skips the character after each splice, so it agrees, where occurrences do not
  overlap, with replacement by nothing exactly when no occurrence begins where another ends
  (`SkippingIsReplacingIff`).
- With 408 guests or more (407 is the last safe limit for a creator that holds one reference) the reference count can meet the sentinel of a weak object, and the server
  is then never freed (`SentinelIff`, `WeakForEver`).
- The listener calls `didKill` after its release, and a worker takes its reference only once it runs,
  so a caller that lets go too early leaves a step that would touch a freed server
  (`KillAndReleaseIsHazardous`). From a live server some run comes to such a step exactly when the
  server has not settled: the listener has not returned or a dispatched worker has not taken its
  reference (`HazardAheadIff`).
- A `break` is missing after the suspend case of the event loop: an event on a suspended connection
  always closes it (`SuspendedIsClosed`).

## Model

| member | source | states |
|---|---|---|
| Splitting.SpacedEverywhereIffBorderless | src/SXString.c:54-69 | a separator's occurrences never overlap, in any string, exactly when no proper prefix of it is also a suffix |
| Splitting.JoinSplit | src/SXString.c:92-119 | rejoining the pieces with the separator gives the original back |
| Splitting.SplitPiecesFree | src/SXString.c:92-119 | no piece contains the separator |
| Splitting.SplitUnique | src/SXString.c:92-119 | without overlaps, every separator-free list that rejoins to the original is the split |
| Splitting.ReplaceIsJoinSplit | src/SXString.c:186-213 | left-to-right replacement is the split joined by the replacement |
| Splitting.ReplaceInvertible | src/SXString.c:186-213 | replacing by a fresh marker without border and back gives the string back, and the marker cuts the output exactly where the target cut the input |
| Splitting.SkippingIsReplacingIff | src/SXString.c:238-245 | without overlaps, removal that skips past each splice equals replacement by nothing if and only if no two occurrences touch |
| Splitting.SkippingRemovesLess | src/SXString.c:238-245 | the skipping removal never leaves less than replacement by nothing, and strictly more after a touching pair |
| Locations.RangesSoundIffSpaced | src/SXString.c:100-110 | the piece lengths computed from the list of all occurrences are all non-negative exactly when no two occurrences overlap |
| Locations.SplitAtLocations | src/SXString.c:100-110 | the ranges between consecutive locations hold exactly the pieces of the split, one more than there are locations |
| Locations.MeetLocation | src/SXString.c:142-155 | at a listed location the rest of the output is the replacement followed by what replacing after the target yields |
| Locations.CopyCharacter | src/SXString.c:142-155 | elsewhere it is one copied character, also when the position list is used up |
| CMemory.SameUpToIsPrefix | src/SXString.c:46-47 | on a terminated string and a pattern without terminator, strncmp answers zero exactly for an occurrence |
| RefCounting.BalancedIffBelowSentinel | src/sx_object.c:51-68 | balanced retains and releases restore a count exactly when they never reach 410; otherwise the object is never freed |
| RefCounting.SXObject.Retain | src/sx_object.c:51-58 | the count goes up by one unless it is the sentinel |
| RefCounting.SXObject.Release | src/sx_object.c:60-68 | the count goes down by one unless it is the sentinel, and dealloc is called exactly on reaching zero, at most once in the object's life |
| Strings.SXVector.Empty | src/SXVector.c:11-18 | a new vector is empty, held once, in two new blocks |
| Strings.SXVector.FromArray | src/SXVector.c:28-40 | a new vector holds the first n elements of the array, in order |
| Strings.SXVector.ObjectAt | src/SXVector.c:42-44 | the element stored at the index of a vector that is still allocated |
| Strings.SXString.FromCString | src/SXString.c:11-23 | the new string holds the source up to its terminator or the given length, in new blocks, and is terminated exactly when the next source byte is a terminator |
| Strings.SubstringInRange | src/SXString.c:25-34 | the new string holds exactly the range of a string that is still allocated; the temporary buffer is freed, after its last use |
| Strings.RetainString | src/SXString.c:255-260 | only the count changes, and not at the sentinel |
| Strings.ReleaseString | src/SXString.c:261-274 | the last release gives back struct and characters, any other only counts |
| Strings.SubStringLocation | src/SXString.c:40-52 | the n-th occurrence, or -1 exactly when there are not so many |
| Strings.CollectLocations | src/SXString.c:54-62 | the array's prefix lists every occurrence in increasing order |
| Strings.SubCStringLocations | src/SXString.c:54-69 | the vector lists every occurrence, overlapping ones included, in increasing order; null exactly when there is none |
| StringSplitting.PieceRange | src/SXString.c:101-110 | the three branches compute the range between two neighbouring locations |
| StringSplitting.SubStringsTrimmedByString | src/SXString.c:92-119 | the returned vector holds exactly the pieces of the split, each a string of its own held once; nothing else stays allocated, and the locations are not read after their release |
| StringSplitting.SubStringsTrimmedByCString | src/SXString.c:122-128 | the same for a C string, whose temporary copy is freed after its last use |
| StringSplitting.ReleaseLocations | src/SXVector.c:73-89 | the last release of a vector of numbers gives its two blocks back |
| StringSplitting.DropElements | src/SXVector.c:82-85 | the loop drops one reference from each element of a vector still allocated and frees exactly those held once |
| StringSplitting.ReleaseStrings | src/SXVector.c:73-89 | the last release of a vector of strings drops one reference from each string and frees vector and block |
| StringReplacing.OutputFits | src/SXString.c:130-155 | the loop bound is the exact length of the output, and output and terminator fit the buffer of length plus replacement times length plus one |
| StringReplacing.FillReplaced | src/SXString.c:142-155 | the two-cursor loop writes exactly the replaced string and a terminator, inside the buffer, ending by the read cursor also for an empty replacement; strings, positions and buffer are allocated throughout |
| StringReplacing.ByReplacingOccurrencesOfString | src/SXString.c:186-213 | a new string with the replaced text; the position list is freed, and neither it nor the local buffer is used after its end |
| StringReplacing.ReplacingOccurrencesOfString | src/SXString.c:130-166 | the same text in place; buffer, positions and old characters are freed, and none is used afterwards |
| StringReplacing.MarkerRoundTrip | src/SXString.c:186-213 | replacing by a fresh marker and back is within the preconditions of both calls, gives the text back, and the marker occurs as often as the target did |
| StringRemoving.RemovingRange | src/SXString.c:228-236 | the range is cut out, the string stays terminated and its block is replaced |
| StringRemoving.RemoveRound | src/SXString.c:241-244 | one round keeps what the whole loop is to leave, although the string shrinks under it |
| StringRemoving.RemoveOccurrenceOfCString | src/SXString.c:238-245 | the loop leaves exactly the skipping removal of the text it found |
| HttpProxy.TrimURLProtocol | Examples/HTTP-proxy/main.c:54-57 | the removed range starts where the first "://" lies, less the offset, and is that long plus three |
| HttpProxy.TrimDropsSchemeIff | Examples/HTTP-proxy/main.c:54-57 | this drops the scheme of "M S://R" if and only if S is one longer than M, or longer by characters with which R begins |
| HttpProxy.SeparatorsNeverOverlap | Examples/HTTP-proxy/main.c:73-85 | the three separators that the rewriter uses have no overlapping occurrences in any string |
| HttpProxy.RemoveHost | Examples/HTTP-proxy/main.c:84-93 | returns the second word of the second line and removes it from the first line; the words are released after the host was read for the last time |
| HttpProxy.RemoveWord | Examples/HTTP-proxy/main.c:87-91 | copies the host and removes it while the vector that holds it is allocated |
| HttpProxy.RewriteFirstLine | Examples/HTTP-proxy/main.c:78-95 | the first line without scheme and host; every temporary block is freed, and none is used afterwards |
| HttpProxy.RewriteByLines | Examples/HTTP-proxy/main.c:74-99 | from the split lines to the rewritten request: the lines are read and rewritten while their vector is allocated, and then released |
| HttpProxy.ParseRequest | Examples/HTTP-proxy/main.c:71-102 | the request is rewritten in place and the host returned; the host and the request's characters are the only blocks that the call leaves behind; no string is used after its vector is released |
| OriginForm.LinesOfRequest | Examples/HTTP-proxy/main.c:73-84 | the first two lines of a request are read off whatever follows them |
| OriginForm.AbsoluteToOrigin | Examples/HTTP-proxy/main.c:59-102 | for every method, host, path, fitting scheme and remainder, with a first line that occurs once, the host is returned, and the absolute form is rewritten to the origin form if and only if the method does not hold the host and what follows it does not after its first character |
| OriginForm.RepeatedHostIsMangled | Examples/HTTP-proxy/main.c:90-91 | a path that names the host again fails that condition |
| Splitting.RemovedOnceIff | src/SXString.c:238-245 | the removal from x c t y, with c outside t, leaves x c y if and only if t occurs neither in x nor in y after its first character |
| OriginForm.PostIsMangled | Examples/HTTP-proxy/main.c:54-57 | "POST http://" is never trimmed to "POST " |
| Segments.FindBytes | Swift/spartanX/Helper.swift:36-52 | nothing exactly for an impossible range, otherwise the first match from the offset on, or the end of the data |
| Segments.PiecesAreSplit | Swift/spartanX/Helper.swift:69-77 | the iterator yields the pieces of the split, without a last piece shorter than the separator |
| Segments.TwoSplittersAgree | Swift/spartanX/Helper.swift:69-85 | piece by piece, the ranges of the C splitter; a last range is left out exactly when it is shorter than the separator |
| Segments.PiecesRebuild | Swift/spartanX/Helper.swift:69-85 | no piece holds the separator, and with the tail that is not yielded they rebuild the data |
| Segments.PiecesBound | Swift/spartanX/Helper.swift:79-85 | at most as many pieces as separators fit the data |
| Segments.NSDataSegment.Next | Swift/spartanX/Helper.swift:69-77 | one call takes the first pending piece off; with an empty separator it never moves |
| Segments.NSDataSegment.FindAll | Swift/spartanX/Helper.swift:79-85 | hands out the pending pieces up to the first that the handler refuses, stands on the last piece handed out, and has exactly the pieces after it still to yield |
| Segments.NSDataSegment.FindWithin | Swift/spartanX/Helper.swift:79-85 | the loop ends, and then within one round more than the data is long, exactly when the separator is not empty, the data is empty or the handler refuses an empty piece |
| Segments.SplitData | Swift/spartanX/Helper.swift:79-90 | a fresh iterator hands out all pieces within the bound |
| Status.CheckCompatibleStatus | Examples/HTTP-proxy/SXQueue.c:111-117 | success exactly for an allowed status or an idle one |
| Status.CheckIncompatibleStatus | Examples/HTTP-proxy/SXQueue.c:119-125 | success exactly for a status that is not refused or an idle one |
| Status.IdlePassesEveryCheck | Examples/HTTP-proxy/SXQueue.c:103-108 | a check for one status succeeds exactly for that status and for idle |
| Status.Codes | Examples/HTTP-proxy/SXQueue.h:49-57 | the numbers of the statuses, which callers see negated when a call is refused |
| Status.CallsMake | Examples/HTTP-proxy/SXQueue.c:54-75 | a suspend turns exactly a running or idle status into suspended, a resume exactly a suspended or idle one into resuming |
| Status.SXQueue.SuspendQueue | Examples/HTTP-proxy/SXQueue.c:54-64 | suspends exactly a running or idle connection; otherwise the error is the negated status |
| Status.SXQueue.ResumeQueue | Examples/HTTP-proxy/SXQueue.c:66-75 | makes exactly a suspended or idle connection resuming; otherwise the error is the negated status |
| Status.SXQueue.RetainQueue | Examples/HTTP-proxy/SXQueue.c:85-91 | counts up unless weak |
| Status.SXQueue.ReleaseQueue | Examples/HTTP-proxy/SXQueue.c:93-101 | counts down unless weak, freeing at zero |
| Status.SXServer.SuspendServer | Examples/HTTP-proxy/SXServer.c:224-234 | suspends exactly a held server that is running or idle; otherwise the error is the negated status |
| Status.SXServer.ResumeServer | Examples/HTTP-proxy/SXServer.c:236-245 | makes exactly a held server that is suspended or idle resuming; otherwise the error is the negated status |
| Status.SXServer.KillServer | Examples/HTTP-proxy/SXServer.c:247-265 | a held server is to terminate afterwards, whatever it was; an error exactly when it already was |
| Status.SXServer.RetainServer | Examples/HTTP-proxy/SXServer.c:190-196 | counts up unless weak |
| Status.SXServer.ReleaseServer | Examples/HTTP-proxy/SXServer.c:198-219 | counts down unless weak, frees at zero, and leaves the status although the free calls kill |
| RuntimeInvariant.SlotsStep | Examples/HTTP-proxy/SXServer.c:365-381 | every step keeps the guest count equal to the connections that hold a slot |
| RuntimeInvariant.RefsStep | Examples/HTTP-proxy/SXServer.c:190-206 | every step keeps the reference count equal to the number of holders |
| RuntimeInvariant.TracesStep | Examples/HTTP-proxy/SXServer.c:405-468 | every step keeps what each connection has told its handlers in line with where its worker is |
| RuntimeInvariant.ResumesStep | Examples/HTTP-proxy/SXServer.c:412-427 | every step keeps each connection's account of granted and acknowledged resumes while the server runs |
| RuntimeInvariant.RunOk | Examples/HTTP-proxy/SXServer.c:333-482 | the whole invariant holds after any run from any state that has it |
| RuntimeInvariant.ReachableOk | Examples/HTTP-proxy/SXServer.c:333-482 | it holds in every state that some run reaches |
| RuntimeGuarantees.ClosedIffInLanguage | Examples/HTTP-proxy/SXServer.c:405-468 | reading callbacks one by one against the worker's places accepts exactly: connect, a mix of data, resumes and at most one suspension, at most one kill, disconnect |
| RuntimeGuarantees.FinishedInLanguage | Examples/HTTP-proxy/SXServer.c:405-471 | in every reachable state, every finished connection has such a trace |
| RuntimeWitnesses.LanguageIffFinished | Examples/HTTP-proxy/SXServer.c:405-471 | the traces of the connections that finish in some run are exactly the words of that language: none else occurs and every one does |
| RuntimeGuarantees.SlotConservation | Examples/HTTP-proxy/SXServer.c:365-381 | the guest count is dispatched and unfinished workers plus failed accepts plus refused connections plus a pending accept, between 0 and the limit |
| RuntimeGuarantees.LostServerStaysLost | Examples/HTTP-proxy/SXServer.c:365-381 | once failed and refused connections fill the limit, no run dispatches a connection again |
| RuntimeGuarantees.NoResumeLost | Examples/HTTP-proxy/SXServer.c:424-427 | under a running server, granted resumes minus acknowledgements, but for the instant between the worker's status write and its callback, are 0 or 1, and 1 exactly while resuming |
| RuntimeWindows.SuspendStopsDelivery | Examples/HTTP-proxy/SXServer.c:409-464 | from a successful suspend under a running server to the next resume of that connection, whatever becomes of the server, at most one payload is delivered, and only by a worker already on the receiving branch |
| RuntimeWindows.LatePayloadIff | readme.md:31 | such a late payload exists in some run, with whatever calls on the server, exactly when the worker was on the receiving branch |
| RuntimeWindows.AtMostOneMore | Examples/HTTP-proxy/SXServer.c:412-464 | while the server status stays out of service, no run delivers more than one further payload on a connection, given, where the server may be idle, that nobody suspends or resumes the connection while its own status is idle |
| RuntimeWindows.DrainsWithin | Examples/HTTP-proxy/SXServer.c:412-469 | while the server winds down, a worker takes at most as many more steps as its rank |
| RuntimeShutdown.ListenerDrains | Examples/HTTP-proxy/SXServer.c:358-384 | while the server winds down, the listener dispatches at most one more connection and ends within its rank |
| RuntimeShutdown.KillDrains | Examples/HTTP-proxy/SXServer.c:247-265 | after a kill of a server whose listener block has begun (line 351 passed), with no suspend or resume: one more payload per worker, twelve more steps per worker, one more dispatch, ten more listener steps, at most |
| RuntimeShutdown.KillLostIff | Examples/HTTP-proxy/SXServer.c:350-351 | a killed server can still come to run, with no suspend or resume, if and only if the listener block had not stored the running status when the kill came |
| RuntimeShutdown.EarlyKillIsLost | Examples/HTTP-proxy/SXServer.c:350-351 | the run of a new server that starts, is killed and then begins ends with the server running |
| RuntimeShutdown.NeverRunsAgain | Examples/HTTP-proxy/SXServer.c:236-245 | a server that has begun and is not running is not running after any run, given that it is started once |
| RuntimeShutdown.ResumedServerStarves | Examples/HTTP-proxy/SXServer.c:236-245 | after a resume of a server that has begun and is started once, until it is killed, it stays resuming and each connection gets at most one more payload |
| RuntimeShutdown.OneResumeManyAcknowledgements | Examples/HTTP-proxy/SXServer.c:412-427 | under a resuming server a worker's own steps, with no further call, acknowledge n more times, for every n |
| RuntimeWitnesses.OneResumeAcknowledged | Examples/HTTP-proxy/SXServer.c:236-245 | from a new server, for every n, a run with exactly one resume of the server, none of a connection, and n acknowledgements on one connection |
| RuntimeService.ZeroEndsConnection | Examples/HTTP-proxy/SXServer.c:421-471 | after a delivery that the handler answers with 0, in every run: nothing more is delivered, and three steps of the worker later the connection is closed and was told so last |
| RuntimeService.PositiveGoesOn | Examples/HTTP-proxy/SXServer.c:421-464 | after a delivery answered with more than 0, whatever the others do, the worker's next step takes it back to the top of its loop |
| RuntimeService.PayloadIsDelivered | Examples/HTTP-proxy/SXServer.c:418-421 | whatever recv brings on the running branch, an empty payload included, is delivered once by the worker's next step |
| RuntimeService.FailedRecvEnds | Examples/HTTP-proxy/SXServer.c:418-436 | a recv that fails, and under suspension one that brings nothing, ends the connection without a delivery, within two steps, in every run |
| RuntimeService.KillIsAnnounced | Examples/HTTP-proxy/SXServer.c:454-458 | a worker that finds a terminating or idle status tells of the kill with its next step and leaves |
| RuntimeService.ResumeIsAcknowledged | Examples/HTTP-proxy/SXServer.c:424-427 | a resumed connection runs again and is told of it with the next step |
| RuntimeService.SuspendedTakesNobody | Examples/HTTP-proxy/SXServer.c:363-386 | in every run under a suspended server at most one connection is dispatched and one slot taken, and only by a listener that had passed the test for suspension |
| RuntimeAdmission.SuspendedDispatchIff | Examples/HTTP-proxy/SXServer.c:363-386 | some run under suspension dispatches a connection if and only if the listener has a slot in hand, or stands before the test for room and not all slots are lost |
| RuntimeAdmission.MakeRoom | Examples/HTTP-proxy/SXServer.c:405-471 | where a dispatched connection is unfinished, some run under suspension gives its slot back |
| RuntimeService.AllowedAreDispatched | Examples/HTTP-proxy/SXServer.c:371-386 | in every run exactly the connections that shouldConnect allows are dispatched, exactly the refused ones are counted as refused and exactly the failing accepts as failed |
| RuntimeService.LeavingMakesIdle | Examples/HTTP-proxy/SXServer.c:475-478 | a listener that leaves makes the server idle, and idle it stays unless somebody calls |
| RuntimeLifetime.CountIsHolders | Examples/HTTP-proxy/SXServer.c:190-206 | with room below the sentinel, the reference count is callers plus listener plus workers between retain and release, and never 410 |
| RuntimeLifetime.FreedWithLastHolder | Examples/HTTP-proxy/SXServer.c:198-206 | a step frees the server exactly when it takes the last holder away |
| RuntimeLifetime.WeakForEver | Examples/HTTP-proxy/SXServer.c:190-206 | a count at 410 stays there and the server is never freed, in any run |
| RuntimeLifetime.SentinelIff | Examples/HTTP-proxy/sx_global.h:63 | some run meets the sentinel exactly when callers' references, guests and the listener can add up to 410 |
| RuntimeLifetime.HazardIffKeptBack | Examples/HTTP-proxy/SXServer.c:476-478 | after the free, the hazard is exactly that a library step is possible but for the free |
| RuntimeLifetime.SafeRelease | Examples/HTTP-proxy/SXServer.c:198-206 | a caller's own reference keeps the server, and letting go after the server has settled never leads to the hazard |
| RuntimeHazard.HazardAheadIff | Examples/HTTP-proxy/SXServer.c:395-478 | from every reachable state with a live server, some run comes to a step that would touch the freed server if and only if the server has not settled |
| RuntimeHazard.DrainAll | Examples/HTTP-proxy/SXServer.c:412-469 | from every winding server some run lets all workers leave and all callers let go, with the listener where it was |
| RuntimeLifetime.KillAndReleaseIsHazardous | Examples/HTTP-proxy/SXServer.c:475-478 | a run in which killing and releasing at once leaves the listener's last callback on a freed server |
| WorkerBlock.TurnIsEvents | Examples/HTTP-proxy/SXServer.c:409-464 | what the block does in one turn is a run of the transition system: the calls before it and one worker step |
| WorkerBlock.RunIsTurns | Examples/HTTP-proxy/SXServer.c:405-471 | in every run of the transition system, with the server status changing at any step, a connection becomes what its own turns, read off the run, make of it |
| WorkerBlock.TurnsKeepTrace | Examples/HTTP-proxy/SXServer.c:405-468 | no sequence of turns leaves the callback protocol |
| WorkerBlock.Worker.Pass | Examples/HTTP-proxy/SXServer.c:409-464 | one pass of the worker loop, with calls of other threads between any two steps, ends where the machine's steps lead, and goes on only after an answer that is not 0 |
| WorkerPass.PassToSwitch | Examples/HTTP-proxy/SXServer.c:412-413 | a server that does not run hands its status to the connection; under a running one it keeps its own |
| WorkerPass.PassRunning | Examples/HTTP-proxy/SXServer.c:417-422 | a running connection: a failing recv leaves the loop and tells nothing, anything else goes to the handler |
| WorkerPass.PassResuming | Examples/HTTP-proxy/SXServer.c:424-427 | a resumed connection runs again and is told so |
| WorkerPass.PassSuspended | Examples/HTTP-proxy/SXServer.c:429-436 | a suspended connection is told so the first time; a recv that fails or brings nothing leaves the loop |
| WorkerPass.PassSecondLook | Examples/HTTP-proxy/SXServer.c:438-451 | the payload that came in under suspension is delivered exactly when the connection runs or is resumed at the second look, and one that is to end leaves without a word |
| WorkerPass.PassOther | Examples/HTTP-proxy/SXServer.c:454-462 | a connection that is to end or idle is told of the kill and leaves; any other status does nothing |
| WorkerPass.PassTest | Examples/HTTP-proxy/SXServer.c:464-464 | the loop goes on exactly when the last answer was not 0 |
| WorkerPass.PassAround | Examples/HTTP-proxy/SXServer.c:406-468 | the connection is announced before the loop and closed after it |
| WorkerBlock.Worker.ByStatus | Examples/HTTP-proxy/SXServer.c:415-462 | the same for the switch over the status |
| WorkerBlock.Worker.WhileSuspended | Examples/HTTP-proxy/SXServer.c:435-453 | the same for the second look at the status after a payload came in under suspension |
| WorkerBlock.Worker.Run | Examples/HTTP-proxy/SXServer.c:405-468 | wherever it stops, the block is where the machine's steps lead; one that finishes has told its handlers a trace of the language |
| ListenerBlock.StepIsActed | Examples/HTTP-proxy/SXServer.c:358-384 | the block's steps are the listener's steps of the transition system |
| ListenerBlock.RunIsTurns | Examples/HTTP-proxy/SXServer.c:350-478 | in every run after the start, the listener and what it sees of the server become what its own turns, read off the run, make of them |
| ListenerBlock.Block.Pass | Examples/HTTP-proxy/SXServer.c:358-384 | one pass of the accept loop, with calls, references taken and given back and leaving workers between any two steps, ends where the machine's steps lead; a suspended server takes nobody in, one that is to terminate leaves the loop, and a running one with room dispatches exactly a connection that accept finds and shouldConnect allows |
| ListenerBlock.Block.Tests | Examples/HTTP-proxy/SXServer.c:358-366 | the tests before a slot is taken, by the status that the calls leave |
| ListenerBlock.Block.Admit | Examples/HTTP-proxy/SXServer.c:368-386 | the same for taking a slot, accepting, asking and dispatching: one more dispatched exactly when accepted and allowed |
| ListenerBlock.Block.Run | Examples/HTTP-proxy/SXServer.c:350-476 | wherever it stops, the block is where the machine's steps lead; one that finishes has let go of exactly its own reference |
| EventLoop.ReactionKeepsLife | Examples/HTTP-proxy/SXServer.c:575-640 | an open connection has been told of data and resumes only; a closed one of a suspension, a last payload and a kill at most once each, and of its end exactly once |
| EventLoop.ReactionTells | Examples/HTTP-proxy/SXServer.c:575-640 | for every status at the switch, exactly when a served connection is told of data, a resume, a suspension, a kill and its end |
| EventLoop.ReactionIsOrdered | Examples/HTTP-proxy/SXServer.c:575-640 | suspension, then payload or resume, then kill, then end, and nothing twice |
| EventLoop.ReactionLeaves | Examples/HTTP-proxy/SXServer.c:575-610 | the status that a served connection is left with |
| EventLoop.ServerRules | Examples/HTTP-proxy/SXServer.c:573-574 | a server that does not run hands its status to the connection, whatever that one was; a running one does not |
| EventLoop.SuspendedIsClosed | Examples/HTTP-proxy/SXServer.c:590-617 | an event on a suspended connection closes it whatever happens, and delivers its payload exactly when it was resumed while the payload was awaited |
| EventLoop.StaysIff | Examples/HTTP-proxy/SXServer.c:575-624 | exactly which events keep a connection, the value found in the uninitialised variable included |
| EventLoop.BatchFits | Examples/HTTP-proxy/SXServer.c:501-530 | a batch of distinct registered descriptors fits the array of max_guest + 1 events |
| EventLoop.EffectStep | Examples/HTTP-proxy/SXServer.c:532-641 | one more entry keeps the effect of the batch: each entry meets its queue as it was when the batch was handed out |
| EventLoop.DoorsStep | Examples/HTTP-proxy/SXServer.c:536-562 | one more entry keeps what the entry of the listening socket did and adds nothing else to the table |
| EventLoop.Loop.ServeIncoming | Examples/HTTP-proxy/SXServer.c:534-562 | below the limit and with a descriptor, exactly one new running connection is registered and counted; otherwise nothing changes |
| EventLoop.Loop.ServeReady | Examples/HTTP-proxy/SXServer.c:567-640 | one event has exactly its effect on its own connection, the table and the list of released queues, and keeps the books |
| EventLoop.Loop.ServeBatch | Examples/HTTP-proxy/SXServer.c:532-641 | every entry of a batch finds a live queue; count is the number of registered connections and at most max_guest; each queue is released by its own entry and only once; other connections are left alone; the entry of the listening socket registers a new running connection exactly when there is room at its turn and accept finds one |
| EventLoop.ServeByStatus | Examples/HTTP-proxy/SXServer.c:575-624 | the switch has exactly the effect of the reaction: status, callbacks, and whether the exit label is reached |

## Left out

- Sockets, name lookup, address conversion and error strings: results of foreign calls are arbitrary inputs.
- Dispatch queues, priorities and thread scheduling: steps interleave arbitrarily.
- Races on counters and status words: each increment, decrement and status access is one step, and a call on a server or a connection checks and sets its status in one step.
- RuntimeInvariant.ReachableOk: states the interleaved behaviour on values, because one run interleaves any number of blocks; the update in place of the two loops is in `WorkerBlock` and `ListenerBlock`, each with the others acting between its steps.
- RuntimeShutdown.NeverRunsAgain: a server is started once. A second `SXServerStart` on the same server, which stores the running status again (Examples/HTTP-proxy/SXServer.c:348-351), is no step of the transition system.
- RuntimeShutdown.ResumedServerStarves: a server is started once, as above.
- Handlers that are not set: every callback is logged as if its handler were set; `didStart` and `didKill` are not in a connection's trace.
- EventLoop.Loop.ServeBatch: the listening descriptor is fixed, where `SXKillServer` replaces the listening socket (Examples/HTTP-proxy/SXServer.c:258-263) and the comparison at line 539 may see another one within a batch.
- Extra references that users take on a connection: the event loop's queues are held by the loop alone.
- StringSplitting.SubStringsTrimmedByString: requires an occurrence, because the search returns null without one and the code reads through it (src/SXString.c:94-100); it also requires a non-empty separator without overlapping occurrences, and `RangesSoundIffSpaced` shows that this is exactly when the computed lengths make sense.
- StringReplacing.FillReplaced: reads the position list past its end as no match, where the code reads the entry after the last (src/SXString.c:144, 199); requires a non-empty target without overlapping occurrences.
- HttpProxy.ParseRequest: requires the parts of the request that the code reads without checking, and occurrences of the first line that do not overlap.
- Strings.ReleaseString: frees the characters and then the struct, where the code frees the struct before it reads the character pointer (src/SXString.c:271-272).
- StringRemoving.RemovingRange: copies the overlapping range forwards, byte by byte, where the code calls memcpy (src/SXString.c:230).
- Segments.FindBytes: a comparison past the end of the data is a mismatch, where the code compares memory beyond it (Swift/spartanX/Helper.swift:41-49).
- EventLoop.Loop.ServeReady: logs the callbacks before the release of the queue, where the code calls `didDisconnect` after it (Examples/HTTP-proxy/SXServer.c:637-638); the early release of the server at line 647 is not modelled.
- ListenerBlock.Block.Run: ends with the listener's release; `didKill`, which follows it, is a step of the transition system only.
- Integer widths: sizes, counts and descriptors are unbounded; the code's int casts agree below 2^31.
- Failures of malloc, kqueue and kevent, and payload bytes: only the lengths of payloads matter to the loops.
- `SXStringJoinCString` and `SXStringByJoiningSubStrings`: they never update the length; joining is defined on sequences instead.
- `SXStringContainsCString`, `SXStringRemoveOcurrencesOfCStrings`, `SXStringReplacingOccurrencesOfCString`, `SXVectorPushBack`, `SXVectorResize`, `SXVectorPopback`: they would add no harder property.
- `src/SXServer.c`, `src/SXQueue.c` and `src/SXClient.c`: variants of the same loops.
- The Swift server and queue loops: accepted connections are not counted there.
