/**
 * Admission's threads get on: what a caller of WaitIdle does once nothing is active, that every
 * step of a thread that does not wait brings it nearer to its end, and that from every reachable
 * state all threads can still come to their ends.
 */
module Progress {
  import opened Bytes
  import opened Admission
  import opened Handlers

  // ---------- WaitIdle ----------

  /** The system with one thread elsewhere. */
  function Placed(s: System, id: int, t: Thread): System {
    s.(threads := s.threads[id := t])
  }

  lemma PlacedTwice(s: System, id: int, t: Thread, u: Thread)
    ensures Placed(Placed(s, id, t), id, u) == Placed(s, id, u)
  {
    assert s.threads[id := t][id := u] == s.threads[id := u];
  }

  /** A waiter whose channel has been closed looks again, whatever the other threads do. */
  lemma WokenLooks(s: System, id: int, channel: nat, next: int)
    requires id in s.threads && s.threads[id] == Waiter(Blocked(channel)) && channel in s.closes
    ensures Next(s, Advance(id, next)) == Placed(s, id, Waiter(Looking))
  {
  }

  /** A waiter whose channel is open stays, until its context ends. */
  lemma OpenChannelWaits(s: System, id: int, channel: nat, next: int)
    requires id in s.threads && s.threads[id] == Waiter(Blocked(channel)) && channel !in s.closes
    ensures Next(s, Advance(id, next)) == s
    ensures Next(s, Timeout(id)) == Placed(s, id, Waiter(ReturnedError))
  {
    assert s.threads[id := s.threads[id]] == s.threads;
  }

  /** Where a caller of WaitIdle is after one look. */
  function AfterLook(s: System): WaiterAt {
    if s.active == {} then ReturnedNil(s.draining) else Blocked(s.idle)
  }

  /**
   * One turn of the loop of WaitIdle, uninterrupted: it returns nil if nothing is active, else it
   * waits for the current channel.
   */
  lemma LookedAlone(s: System, id: int)
    requires id in s.threads && s.threads[id] == Waiter(Looking) && s.lock.None?
    ensures Alone(s, id, 3) == Placed(s, id, Waiter(AfterLook(s)))
  {
    var rest := s.threads;
    assert rest == rest[id := Waiter(Looking)];
    Stepped(s, rest, id, Waiter(Looking), Waiter(Holding), TakeMutex, 2);
    var t := s.(threads := rest[id := Waiter(Holding)], lock := Some(id));
    var at := if s.active == {} then SawNone(s.draining) else SawIdle(s.idle);
    Stepped(t, rest, id, Waiter(Holding), Waiter(at), Nothing, 1);
    NothingChanged(t, rest, id, Waiter(Holding), Waiter(at));
    var u := t.(threads := rest[id := Waiter(at)]);
    Stepped(u, rest, id, Waiter(at), Waiter(AfterLook(s)), FreeMutex, 0);
    MutexFreed(u, rest, id, Waiter(at), Waiter(AfterLook(s)));
  }

  lemma {:induction false} ReturnedAlone(s: System, id: int, n: nat)
    requires id in s.threads && s.threads[id].Waiter?
    requires s.threads[id].waiter.ReturnedNil? || s.threads[id].waiter.ReturnedError?
    ensures Alone(s, id, n) == s
    decreases n
  {
    if n > 0 {
      assert s.threads[id := s.threads[id]] == s.threads;
      assert Next(s, Advance(id, 0)) == s;
      ReturnedAlone(s, id, n - 1);
    }
  }

  lemma {:induction false} AloneAdds(s: System, id: int, m: nat, n: nat)
    ensures Alone(s, id, m + n) == Alone(Alone(s, id, m), id, n)
    decreases m
  {
    if m > 0 {
      AloneAdds(Next(s, Advance(id, 0)), id, m - 1, n);
    }
  }

  /** With nothing active, a look ends the call. */
  lemma LookEnds(s: System, id: int, n: nat)
    requires id in s.threads && s.threads[id] == Waiter(Looking) && s.lock.None? && s.active == {}
    ensures Alone(s, id, 3 + n) == Placed(s, id, Waiter(ReturnedNil(s.draining)))
  {
    LookedAlone(s, id);
    AloneAdds(s, id, 3, n);
    ReturnedAlone(Placed(s, id, Waiter(ReturnedNil(s.draining))), id, n);
  }

  lemma WokenEnds(s: System, id: int, channel: nat, n: nat)
    requires id in s.threads && s.threads[id] == Waiter(Blocked(channel)) && channel in s.closes
    requires s.lock.None? && s.active == {}
    ensures Alone(s, id, 4 + n) == Placed(s, id, Waiter(ReturnedNil(s.draining)))
  {
    WokenLooks(s, id, channel, 0);
    var t := Placed(s, id, Waiter(Looking));
    AloneAdds(s, id, 1, 3 + n);
    LookEnds(t, id, n);
    PlacedTwice(s, id, Waiter(Looking), Waiter(ReturnedNil(s.draining)));
  }

  /** While nothing is active, every channel that a waiter knows has been closed. */
  lemma KnownClosed(s: System, id: int)
    requires Inv(s) && s.active == {} && id in s.threads && s.threads[id].Waiter?
    requires s.threads[id].waiter.SawIdle? || s.threads[id].waiter.Blocked?
    ensures s.threads[id].waiter.channel in s.closes
  {
    assert KnowsChannel(s, s.threads[id]);
  }

  /** A call of WaitIdle that has not returned. */
  predicate StillWaiting(s: System, id: int) {
    id in s.threads && s.threads[id].Waiter? && !s.threads[id].waiter.ReturnedNil?
    && !s.threads[id].waiter.ReturnedError?
  }

  predicate MutexAvailable(s: System, id: int) {
    s.lock.None? || s.lock.value == id
  }

  /** The system once the call has returned nil; nothing else has changed. */
  function NilReturned(s: System, id: int, at: WaiterAt): System {
    var drained := if at.SawNone? then at.drained else s.draining;
    s.(threads := s.threads[id := Waiter(ReturnedNil(drained))], lock := None)
  }

  /**
   * In every reachable state: once nothing is active, a caller of WaitIdle returns nil within six of
   * its own steps if no other thread takes the mutex meanwhile, wherever it was, blocked included.
   */
  lemma WaitIdleReturns(instrumented: nat, passthrough: nat, steps: seq<Step>, id: int)
    requires var s := Run(NewSystem(instrumented, passthrough), steps);
             s.active == {} && StillWaiting(s, id) && MutexAvailable(s, id)
    ensures var s := Run(NewSystem(instrumented, passthrough), steps);
            Alone(s, id, 6) == NilReturned(s, id, s.threads[id].waiter)
  {
    NewSystemInv(instrumented, passthrough);
    RunInv(NewSystem(instrumented, passthrough), steps);
    WaiterReturns(Run(NewSystem(instrumented, passthrough), steps), id);
  }

  lemma WaiterReturns(s: System, id: int)
    requires Inv(s) && s.active == {} && StillWaiting(s, id) && MutexAvailable(s, id)
    ensures Alone(s, id, 6) == NilReturned(s, id, s.threads[id].waiter)
  {
    var at := s.threads[id].waiter;
    if !HoldsMutex(s.threads[id]) {
      NotHeld(s, id);
    }
    if at.SawIdle? || at.Blocked? {
      KnownClosed(s, id);
    }
    ReturnsFrom(s, id, at);
  }

  lemma ReturnsFrom(s: System, id: int, at: WaiterAt)
    requires s.active == {} && StillWaiting(s, id) && s.threads[id] == Waiter(at)
    requires (at.Looking? || at.Blocked? ==> s.lock.None?)
          && (at.SawIdle? || at.Blocked? ==> at.channel in s.closes)
    ensures Alone(s, id, 6) == NilReturned(s, id, at)
  {
    match at
    case Looking =>
      LookEnds(s, id, 3);
      PlacedFree(s, id, at);
    case Holding => HoldingReturns(s, id);
    case SawNone(drained) => SawNoneReturns(s, id, drained, 5);
    case SawIdle(channel) => SawIdleReturns(s, id, channel);
    case Blocked(channel) =>
      WokenEnds(s, id, channel, 2);
      PlacedFree(s, id, at);
  }

  lemma PlacedFree(s: System, id: int, at: WaiterAt)
    requires s.lock.None? && !at.SawNone?
    ensures Placed(s, id, Waiter(ReturnedNil(s.draining))) == NilReturned(s, id, at)
  {
  }

  lemma NotHeld(s: System, id: int)
    requires Inv(s) && id in s.threads && MutexAvailable(s, id) && !HoldsMutex(s.threads[id])
    ensures s.lock.None?
  {
  }

  lemma HoldingReturns(s: System, id: int)
    requires id in s.threads && s.threads[id] == Waiter(Holding) && s.active == {}
    ensures Alone(s, id, 6) == s.(threads := s.threads[id := Waiter(ReturnedNil(s.draining))], lock := None)
  {
    var rest := s.threads;
    var seen, done := Waiter(SawNone(s.draining)), Waiter(ReturnedNil(s.draining));
    assert rest == rest[id := Waiter(Holding)];
    Stepped(s, rest, id, Waiter(Holding), seen, Nothing, 5);
    NothingChanged(s, rest, id, Waiter(Holding), seen);
    SawNoneReturns(s.(threads := rest[id := seen]), id, s.draining, 4);
    assert rest[id := seen][id := done] == rest[id := done];
  }

  lemma SawNoneReturns(s: System, id: int, drained: bool, n: nat)
    requires id in s.threads && s.threads[id] == Waiter(SawNone(drained))
    ensures Alone(s, id, n + 1) == s.(threads := s.threads[id := Waiter(ReturnedNil(drained))], lock := None)
  {
    var rest, done := s.threads, Waiter(ReturnedNil(drained));
    assert rest == rest[id := Waiter(SawNone(drained))];
    Stepped(s, rest, id, Waiter(SawNone(drained)), done, FreeMutex, n);
    MutexFreed(s, rest, id, Waiter(SawNone(drained)), done);
    ReturnedAlone(s.(threads := rest[id := done], lock := None), id, n);
  }

  lemma SawIdleReturns(s: System, id: int, channel: nat)
    requires s.active == {} && id in s.threads && s.threads[id] == Waiter(SawIdle(channel)) && channel in s.closes
    ensures Alone(s, id, 6) == s.(threads := s.threads[id := Waiter(ReturnedNil(s.draining))], lock := None)
  {
    var blocked := Waiter(Blocked(channel));
    UnlockedAlone(s, id, Waiter(SawIdle(channel)), blocked, 5);
    WokenUnlocked(s, id, channel, s.(threads := s.threads[id := blocked], lock := None), 1);
  }

  lemma WokenUnlocked(s: System, id: int, channel: nat, t: System, n: nat)
    requires s.active == {} && channel in s.closes
    requires t == s.(threads := s.threads[id := Waiter(Blocked(channel))], lock := None)
    ensures Alone(t, id, 4 + n) == s.(threads := s.threads[id := Waiter(ReturnedNil(s.draining))], lock := None)
  {
    WokenEnds(t, id, channel, n);
    UnlockedThenPlaced(s, id, Waiter(Blocked(channel)), Waiter(ReturnedNil(s.draining)));
  }

  lemma UnlockedAlone(s: System, id: int, t: Thread, u: Thread, n: nat)
    requires id in s.threads && s.threads[id] == t && Move(s, id, t, 0) == (u, FreeMutex)
    ensures Alone(s, id, n + 1) == Alone(s.(threads := s.threads[id := u], lock := None), id, n)
  {
    assert s.threads == s.threads[id := t];
    Stepped(s, s.threads, id, t, u, FreeMutex, n);
    MutexFreed(s, s.threads, id, t, u);
  }

  lemma UnlockedThenPlaced(s: System, id: int, t: Thread, u: Thread)
    ensures Placed(s.(threads := s.threads[id := t], lock := None), id, u)
         == s.(threads := s.threads[id := u], lock := None)
  {
    assert s.threads[id := t][id := u] == s.threads[id := u];
  }

  // ---------- Every thread gets on ----------

  predicate IsFinished(t: Thread) {
    match t
    case Request(_, at) => at.Gone? || at.Rejected?
    case Closer(at) => at.Returned?
    case Drainer(at) => at.AfterDrain?
    case Waiter(at) => at.ReturnedNil? || at.ReturnedError?
  }

  /** What a thread can be kept from: a mutex that is taken, or a channel that is open. */
  predicate IsKept(s: System, t: Thread) {
    match t
    case Request(_, at) => (at.Arrived? || at.Serving?) && s.lock.Some?
    case Closer(at) => at.Swapped? && s.lock.Some?
    case Drainer(at) => at.BeforeDrain? && s.lock.Some?
    case Waiter(at) => (at.Looking? && s.lock.Some?) || (at.Blocked? && at.channel !in s.closes)
  }

  /** How far a thread that is no waiter is from its end. */
  function StepsLeft(t: Thread): nat
    requires !t.Waiter?
  {
    match t
    case Request(_, at) => (
      match at
      case Arrived => 13 case Checking => 12 case NotDraining => 11 case NotForced => 10 case SlotTaken => 9
      case Inserted => 8 case Serving => 7 case Releasing => 6 case Removed => 5 case Unlocked => 4
      case SlotFreed => 3 case Refused => 2 case Rejecting => 1 case Rejected => 0 case Gone => 0
    )
    case Closer(at) => (
      match at
      case Beginning => 5 case Swapped => 4 case Snapshotting => 3 case Copied(_) => 2 case Cancelling(_) => 1
      case Returned(_) => 0
    )
    case Drainer(at) => (
      match at
      case BeforeDrain => 3 case Locked => 2 case Stored => 1 case AfterDrain => 0
    )
  }

  /** Closers have as many cancellations left as their snapshot has requests left. */
  function CancelsLeft(t: Thread): nat {
    if t.Closer? && t.closer.Cancelling? then |t.closer.rest| else 0
  }

  /** The next request that a closer cancels, if it has any left. */
  predicate Picks(t: Thread, next: int) {
    t.Closer? && t.closer.Cancelling? && t.closer.rest != {} ==> next in t.closer.rest
  }

  predicate Nearer(u: Thread, t: Thread)
    requires !t.Waiter?
  {
    && !u.Waiter?
    && (StepsLeft(u) < StepsLeft(t) || (StepsLeft(u) == StepsLeft(t) && CancelsLeft(u) < CancelsLeft(t)))
  }

  predicate GetsOn(s: System, r: System, id: int) {
    id in s.threads && id in r.threads && !s.threads[id].Waiter? && Nearer(r.threads[id], s.threads[id])
  }

  /**
   * In every state that the invariant allows, each step of a thread that is neither at its end nor
   * kept brings it nearer to its end, whatever the other threads have done.
   */
  lemma OwnStepGetsOn(s: System, id: int, next: int)
    requires Inv(s) && id in s.threads && !s.threads[id].Waiter?
    requires !IsFinished(s.threads[id]) && !IsKept(s, s.threads[id]) && Picks(s.threads[id], next)
    ensures GetsOn(s, Next(s, Advance(id, next)), id)
  {
    var t := s.threads[id];
    var (u, e) := Move(s, id, t, next);
    MovedKeeps(s, id, u, e);
    if t.Request? && t.request.Unlocked? {
      SlotHeld(s, id);
    }
    MoveGetsOn(s, id, t, next);
  }

  lemma SlotHeld(s: System, id: int)
    requires SlotsOK(s) && id in s.threads && s.threads[id].Request? && s.threads[id].request.Unlocked?
    ensures SlotsUsed(s, s.threads[id].class_) > 0
  {
    assert id in SlotHolders(s, s.threads[id].class_);
  }

  lemma MoveGetsOn(s: System, id: int, t: Thread, next: int)
    requires !t.Waiter? && !IsFinished(t) && !IsKept(s, t) && Picks(t, next)
    requires t.Request? && t.request.Unlocked? ==> SlotsUsed(s, t.class_) > 0
    ensures Nearer(Move(s, id, t, next).0, t)
  {
    match t
    case Request(c, at) => RequestGetsOn(s, id, c, at);
    case Closer(at) => CloserGetsOn(s, at, next);
    case Drainer(at) =>
  }

  lemma RequestGetsOn(s: System, id: int, c: Class, at: RequestAt)
    requires !IsFinished(Request(c, at)) && !IsKept(s, Request(c, at)) && (at.Unlocked? ==> SlotsUsed(s, c) > 0)
    ensures Nearer(RequestMove(s, id, c, at).0, Request(c, at))
  {
  }

  lemma CloserGetsOn(s: System, at: CloserAt, next: int)
    requires !at.Returned? && !(at.Swapped? && s.lock.Some?) && Picks(Closer(at), next)
    ensures Nearer(CloserMove(s, at, next).0, Closer(at))
  {
    if at.Cancelling? && at.rest != {} {
      assert |at.rest - {next}| == |at.rest| - 1;
    }
  }

  // ---------- All threads can come to their ends ----------

  /** Steps of threads that exist: none is spawned, no client leaves and no wait times out. */
  predicate AllOwn(steps: seq<Step>, ids: set<int>) {
    forall i :: 0 <= i < |steps| ==> steps[i].Advance? && steps[i].id in ids
  }

  /** Nobody holds the mutex, except perhaps this thread. */
  lemma NotKept(s: System, id: int)
    requires Inv(s) && id in s.threads && !s.threads[id].Waiter? && MutexAvailable(s, id)
    ensures !IsKept(s, s.threads[id])
  {
    if s.lock.Some? {
      assert HoldsMutex(s.threads[id]);
    }
  }

  lemma NextPick(t: Thread) returns (next: int)
    ensures Picks(t, next)
  {
    next := 0;
    if t.Closer? && t.closer.Cancelling? && t.closer.rest != {} {
      next := Member(t.closer.rest);
    }
  }

  /** What a step of one thread leaves as it was. */
  ghost predicate OthersSame(s: System, r: System, id: int) {
    r.threads.Keys == s.threads.Keys && forall x :: x in s.threads && x != id ==> r.threads[x] == s.threads[x]
  }

  lemma OwnStepLeavesOthers(s: System, id: int, next: int)
    requires Inv(s) && id in s.threads && MutexAvailable(s, id)
    ensures var r := Next(s, Advance(id, next)); OthersSame(s, r, id) && MutexAvailable(r, id)
  {
    var (u, e) := Move(s, id, s.threads[id], next);
    MovedKeeps(s, id, u, e);
    LockAfter(s, id, u, e);
  }

  lemma LockAfter(s: System, id: int, u: Thread, e: Effect)
    requires MutexAvailable(s, id)
    ensures MutexAvailable(Moved(s, id, u, e), id)
  {
  }

  lemma FinishedLetsGo(s: System, id: int)
    requires Inv(s) && id in s.threads && IsFinished(s.threads[id]) && MutexAvailable(s, id)
    ensures s.lock.None?
  {
    NotHeld(s, id);
  }

  /** A thread that is no waiter runs to its end if the others let it. */
  lemma {:induction false} RunsToItsEnd(s: System, id: int) returns (steps: seq<Step>)
    requires Inv(s) && id in s.threads && !s.threads[id].Waiter? && MutexAvailable(s, id)
    ensures AllOwn(steps, {id})
    ensures var r := Run(s, steps);
            Inv(r) && OthersSame(s, r, id) && IsFinished(r.threads[id]) && !r.threads[id].Waiter? && r.lock.None?
    decreases StepsLeft(s.threads[id]), CancelsLeft(s.threads[id])
  {
    if IsFinished(s.threads[id]) {
      FinishedLetsGo(s, id);
      steps := [];
    } else {
      var next := NextPick(s.threads[id]);
      NotKept(s, id);
      OwnStepGetsOn(s, id, next);
      OwnStepLeavesOthers(s, id, next);
      NextInv(s, Advance(id, next));
      var rest := RunsToItsEnd(Next(s, Advance(id, next)), id);
      steps := [Advance(id, next)] + rest;
      assert steps[1..] == rest;
    }
  }

  /** The same threads, and no wait has failed that had not failed before. */
  ghost predicate SameCalls(s: System, r: System) {
    && r.threads.Keys == s.threads.Keys
    && forall x :: x in s.threads ==>
         && (r.threads[x].Waiter? <==> s.threads[x].Waiter?)
         && (r.threads[x] == Waiter(ReturnedError) ==> s.threads[x] == Waiter(ReturnedError))
  }

  /** A waiter that holds the mutex frees it. */
  lemma WaiterFreesMutex(s: System, id: int) returns (steps: seq<Step>)
    requires Inv(s) && id in s.threads && s.threads[id].Waiter? && s.lock == Some(id)
    ensures AllOwn(steps, {id})
    ensures var r := Run(s, steps); Inv(r) && SameCalls(s, r) && r.lock.None?
    decreases if s.threads[id].waiter.Holding? then 1 else 0
  {
    assert HoldsMutex(s.threads[id]);
    var (u, e) := Move(s, id, s.threads[id], 0);
    NextInv(s, Advance(id, 0));
    MovedKeeps(s, id, u, e);
    if s.threads[id].waiter.Holding? {
      var rest := WaiterFreesMutex(Next(s, Advance(id, 0)), id);
      steps := [Advance(id, 0)] + rest;
      assert steps[1..] == rest;
    } else {
      steps := [Advance(id, 0)];
      assert steps[1..] == [];
    }
  }

  lemma MutexIsFreed(s: System) returns (steps: seq<Step>)
    requires Inv(s)
    ensures AllOwn(steps, s.threads.Keys)
    ensures var r := Run(s, steps); Inv(r) && SameCalls(s, r) && r.lock.None?
  {
    if s.lock.None? {
      steps := [];
    } else {
      var id := s.lock.value;
      assert id in s.threads;
      if s.threads[id].Waiter? {
        steps := WaiterFreesMutex(s, id);
      } else {
        steps := RunsToItsEnd(s, id);
      }
    }
  }

  ghost function OthersUnfinished(s: System): set<int> {
    set id | id in s.threads && !s.threads[id].Waiter? && !IsFinished(s.threads[id])
  }

  ghost function WaitersUnfinished(s: System): set<int> {
    set id | id in s.threads && s.threads[id].Waiter? && !IsFinished(s.threads[id])
  }

  lemma OneFewer(s: System, t: System, id: int)
    requires OthersSame(s, t, id) && id in s.threads && IsFinished(t.threads[id])
    requires t.threads[id].Waiter? <==> s.threads[id].Waiter?
    ensures OthersUnfinished(t) == OthersUnfinished(s) - {id}
    ensures WaitersUnfinished(t) == WaitersUnfinished(s) - {id}
  {
    forall x
      ensures x in OthersUnfinished(t) <==> x in OthersUnfinished(s) - {id}
      ensures x in WaitersUnfinished(t) <==> x in WaitersUnfinished(s) - {id}
    {
      assert x in t.threads.Keys <==> x in s.threads.Keys;
    }
  }

  lemma OwnAdd(x: seq<Step>, y: seq<Step>, ids: set<int>)
    requires AllOwn(x, ids) && AllOwn(y, ids)
    ensures AllOwn(x + y, ids)
  {
  }

  lemma {:induction false} OthersFinish(s: System) returns (steps: seq<Step>)
    requires Inv(s) && s.lock.None?
    ensures AllOwn(steps, s.threads.Keys)
    ensures var r := Run(s, steps); Inv(r) && SameCalls(s, r) && r.lock.None? && OthersUnfinished(r) == {}
    decreases |OthersUnfinished(s)|
  {
    if OthersUnfinished(s) == {} {
      steps := [];
    } else {
      var id := Member(OthersUnfinished(s));
      var first := RunsToItsEnd(s, id);
      var t := Run(s, first);
      OneFewer(s, t, id);
      var rest := OthersFinish(t);
      RunAppend(s, first, rest);
      OwnAdd(first, rest, s.threads.Keys);
      steps := first + rest;
    }
  }

  /** Once no request is on its way, nothing is active. */
  lemma NothingActive(s: System)
    requires ActiveOK(s) && OthersUnfinished(s) == {}
    ensures s.active == {}
  {
    forall id | id in s.active ensures id in OthersUnfinished(s) {
    }
  }

  lemma WaiterFinishes(s: System, id: int) returns (steps: seq<Step>)
    requires Inv(s) && s.active == {} && s.lock.None? && StillWaiting(s, id)
    ensures AllOwn(steps, {id})
    ensures var r := Run(s, steps);
            Inv(r) && OthersSame(s, r, id) && r.lock.None? && r.active == {}
            && r.threads[id].Waiter? && r.threads[id].waiter.ReturnedNil?
  {
    steps := seq(6, _ => Advance(id, 0));
    WaiterReturns(s, id);
    AloneIsRun(s, id, 6);
    RunInv(s, steps);
  }

  lemma {:induction false} WaitersFinish(s: System) returns (steps: seq<Step>)
    requires Inv(s) && s.lock.None? && s.active == {} && OthersUnfinished(s) == {}
    ensures AllOwn(steps, s.threads.Keys)
    ensures var r := Run(s, steps);
            SameCalls(s, r) && r.active == {} && OthersUnfinished(r) == {} && WaitersUnfinished(r) == {}
    decreases |WaitersUnfinished(s)|
  {
    if WaitersUnfinished(s) == {} {
      steps := [];
    } else {
      var id := Member(WaitersUnfinished(s));
      var first := WaiterFinishes(s, id);
      var t := Run(s, first);
      OneFewer(s, t, id);
      var rest := WaitersFinish(t);
      RunAppend(s, first, rest);
      OwnAdd(first, rest, s.threads.Keys);
      steps := first + rest;
    }
  }

  lemma CallsAdd(s: System, t: System, r: System)
    requires SameCalls(s, t) && SameCalls(t, r)
    ensures SameCalls(s, r)
  {
  }

  lemma AllFinish(s: System) returns (steps: seq<Step>)
    requires Inv(s)
    ensures AllOwn(steps, s.threads.Keys)
    ensures var r := Run(s, steps);
            SameCalls(s, r) && r.active == {} && OthersUnfinished(r) == {} && WaitersUnfinished(r) == {}
  {
    var x := MutexIsFreed(s);
    var a := Run(s, x);
    var y := OthersFinish(a);
    var b := Run(a, y);
    NothingActive(b);
    var z := WaitersFinish(b);
    RunAppend(s, x, y);
    RunAppend(s, x + y, z);
    CallsAdd(s, a, b);
    CallsAdd(s, b, Run(b, z));
    OwnAdd(x, y, s.threads.Keys);
    OwnAdd(x + y, z, s.threads.Keys);
    steps := x + y + z;
  }

  /** Every request is over, every call has returned, and every wait that had not failed returned nil. */
  ghost predicate AllOver(s: System, r: System) {
    && r.threads.Keys == s.threads.Keys && r.active == {}
    && (forall id :: id in r.threads ==> IsFinished(r.threads[id]))
    && (forall id :: id in r.threads && r.threads[id].Waiter? && s.threads[id] != Waiter(ReturnedError) ==>
          r.threads[id].waiter.ReturnedNil?)
  }

  ghost predicate CanFinish(s: System) {
    exists steps :: AllOwn(steps, s.threads.Keys) && AllOver(s, Run(s, steps))
  }

  /**
   * No deadlock: from every reachable state the threads that exist can all come to their ends by
   * steps of their own, with no new thread, no client that leaves and no wait that times out.
   */
  lemma NoDeadlock(instrumented: nat, passthrough: nat, before: seq<Step>)
    ensures CanFinish(Run(NewSystem(instrumented, passthrough), before))
  {
    NewSystemInv(instrumented, passthrough);
    RunInv(NewSystem(instrumented, passthrough), before);
    var s := Run(NewSystem(instrumented, passthrough), before);
    var steps := AllFinish(s);
    Over(s, Run(s, steps));
    assert AllOwn(steps, s.threads.Keys) && AllOver(s, Run(s, steps));
  }

  lemma Over(s: System, r: System)
    requires SameCalls(s, r) && r.active == {} && OthersUnfinished(r) == {} && WaitersUnfinished(r) == {}
    ensures AllOver(s, r)
  {
    forall id | id in r.threads ensures IsFinished(r.threads[id]) {
      assert id !in OthersUnfinished(r) && id !in WaitersUnfinished(r);
    }
  }

  // ---------- Why contexts are cancelled ----------

  ghost predicate SnapshotsOK(s: System) {
    forall c, r :: c in s.threads && r in StillToCancel(s.threads[c]) ==> r in s.threads && WasAdmitted(s.threads[r])
  }

  predicate ReasonOK(s: System, r: int, cause: Cause) {
    match cause
    case Done => r in s.threads && IsOver(s.threads[r])
    case ForcedClose => s.forcedClose && r in s.threads && WasAdmitted(s.threads[r])
    case ClientGone => r in s.threads && s.threads[r].Request?
  }

  ghost predicate ReasonsOK(s: System) {
    forall r :: r in s.causes ==> ReasonOK(s, r, s.causes[r])
  }

  /** What a thread that moves keeps: it is still over, or was still admitted, and stays a request. */
  predicate KeepsPast(t: Thread, u: Thread) {
    (IsOver(t) ==> IsOver(u)) && (WasAdmitted(t) ==> WasAdmitted(u)) && (t.Request? <==> u.Request?)
  }

  lemma MoveKeepsPast(s: System, id: int, t: Thread, next: int)
    ensures var (u, e) := Move(s, id, t, next);
            && KeepsPast(t, u)
            && StillToCancel(u) <= StillToCancel(t) + (if t == Closer(Snapshotting) then s.active else {})
            && (e.Cancel? ==> if e.cause == Done then e.request == id && IsOver(u)
                              else e.cause == ForcedClose && HasSwapped(t) && e.request in StillToCancel(t))
  {
    match t
    case Request(c, at) =>
    case Closer(at) =>
    case Drainer(at) =>
    case Waiter(at) =>
  }

  lemma ReasonsKept(s: System, id: int, t: Thread, u: Thread, e: Effect)
    requires SnapshotsOK(s) && ReasonsOK(s) && ActiveOK(s) && SwapOK(s)
    requires (id in s.threads ==> s.threads[id] == t) && KeepsPast(t, u)
    requires id !in s.threads ==> StillToCancel(u) == {} && e == Nothing
    requires id in s.threads ==>
               StillToCancel(u) <= StillToCancel(t) + (if t == Closer(Snapshotting) then s.active else {})
    requires e.Cancel? ==>
               match e.cause
               case Done => e.request == id && IsOver(u)
               case ForcedClose => HasSwapped(t) && e.request in StillToCancel(t)
               case ClientGone => e.request == id && u.Request?
    ensures SnapshotsOK(Moved(s, id, u, e)) && ReasonsOK(Moved(s, id, u, e))
  {
    var m := Moved(s, id, u, e);
    MovedKeeps(s, id, u, e);
    forall c, r | c in m.threads && r in StillToCancel(m.threads[c])
      ensures r in m.threads && WasAdmitted(m.threads[r])
    {
      assert r in s.threads && WasAdmitted(s.threads[r]);
    }
  }

  lemma {:induction false} ReasonsReachable(s: System, steps: seq<Step>)
    requires Inv(s) && SnapshotsOK(s) && ReasonsOK(s)
    ensures ReasonsOK(Run(s, steps))
    decreases |steps|
  {
    if steps != [] {
      ReasonsStep(s, steps[0]);
      NextInv(s, steps[0]);
      ReasonsReachable(Next(s, steps[0]), steps[1..]);
    }
  }

  lemma ReasonsStep(s: System, step: Step)
    requires Inv(s) && SnapshotsOK(s) && ReasonsOK(s)
    ensures SnapshotsOK(Next(s, step)) && ReasonsOK(Next(s, step))
  {
    match step
    case Spawn(id, t) =>
      if id !in s.threads && IsFresh(t) {
        ReasonsKept(s, id, t, t, Nothing);
      }
    case Advance(id, next) =>
      if id in s.threads {
        var (u, e) := Move(s, id, s.threads[id], next);
        MoveKeepsPast(s, id, s.threads[id], next);
        ReasonsKept(s, id, s.threads[id], u, e);
      }
    case ClientCancel(id) =>
      if id in s.threads && s.threads[id].Request? {
        ReasonsKept(s, id, s.threads[id], s.threads[id], Cancel(id, ClientGone));
      }
    case Timeout(id) =>
      if id in s.threads && s.threads[id].Waiter? && s.threads[id].waiter.Blocked? {
        ReasonsKept(s, id, s.threads[id], Waiter(ReturnedError), Nothing);
      }
  }

  /**
   * No context is cancelled for a wrong reason: Done only once the request is over, a forced close
   * only if one has begun and the request had been admitted.
   */
  lemma CancelledForAReason(instrumented: nat, passthrough: nat, steps: seq<Step>, id: int)
    requires id in Run(NewSystem(instrumented, passthrough), steps).causes
    ensures var s := Run(NewSystem(instrumented, passthrough), steps); ReasonOK(s, id, s.causes[id])
  {
    NewSystemInv(instrumented, passthrough);
    ReasonsReachable(NewSystem(instrumented, passthrough), steps);
  }
}
