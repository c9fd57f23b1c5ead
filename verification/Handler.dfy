/**
 * The handler of internal/proxy/proxy.go with its fields updated in place. What each method does
 * is what its thread's atomic steps do when no other thread interrupts them.
 */
module Handlers {
  import opened Bytes
  import opened Admission

  /** n steps of one thread, with no other in between. */
  function Alone(s: System, id: int, n: nat): System
    decreases n
  {
    if n == 0 then s else Alone(Next(s, Advance(id, 0)), id, n - 1)
  }

  /** Such a run is one of the interleavings that Admission's theorems are about. */
  lemma {:induction false} AloneIsRun(s: System, id: int, n: nat)
    ensures Alone(s, id, n) == Run(s, seq(n, _ => Advance(id, 0)))
    decreases n
  {
    if n > 0 {
      var steps := seq(n, _ => Advance(id, 0));
      assert steps[1..] == seq(n - 1, _ => Advance(id, 0));
      AloneIsRun(Next(s, Advance(id, 0)), id, n - 1);
    }
  }

  /** The next step of a thread that runs alone; `rest` is the table of threads without it. */
  lemma Stepped(s: System, rest: map<int, Thread>, id: int, t: Thread, u: Thread, e: Effect, n: nat)
    requires s.threads == rest[id := t] && Move(s, id, t, 0) == (u, e)
    ensures Alone(s, id, n + 1) == Alone(Moved(s, id, u, e), id, n)
    ensures Moved(s, id, u, e).threads == rest[id := u]
  {
    assert rest[id := t][id := u] == rest[id := u];
    MovedKeeps(s, id, u, e);
  }

  // ---------- What the calls do ----------

  predicate Refuses(s: System, c: Class) {
    s.draining || s.forcedClose || SlotsUsed(s, c) >= Capacity(s, c)
  }

  /** admitRequest */
  function Admitted(s: System, id: int, c: Class): System {
    if Refuses(s, c) then
      s.(threads := s.threads[id := Request(c, Rejected)], causes := Cancelled(s.causes, id, Done))
    else
      s.(threads := s.threads[id := Request(c, Serving)], slots := s.slots[c := SlotsUsed(s, c) + 1],
         active := s.active + {id}, idle := if s.active == {} then s.idle + 1 else s.idle)
  }

  /** The closure that admitRequest returns. */
  function ReleasedBy(s: System, id: int, c: Class): System
    requires SlotsUsed(s, c) > 0
  {
    var rest := s.active - {id};
    s.(threads := s.threads[id := Request(c, Gone)], slots := s.slots[c := SlotsUsed(s, c) - 1], active := rest,
       closes := if rest == {} then s.closes + [s.idle] else s.closes, causes := Cancelled(s.causes, id, Done))
  }

  function Drained(s: System, id: int): System {
    s.(threads := s.threads[id := Drainer(AfterDrain)], draining := true)
  }

  /** The system once a request that holds the mutex has been turned away; `rest` has the other threads. */
  function Turned(s: System, rest: map<int, Thread>, id: int, c: Class): System {
    s.(threads := rest[id := Request(c, Rejected)], lock := None, causes := Cancelled(s.causes, id, Done))
  }

  /** The system once a request that holds the mutex has been let in. */
  function LetIn(s: System, rest: map<int, Thread>, id: int, c: Class): System {
    s.(threads := rest[id := Request(c, Serving)], lock := None, active := s.active + {id},
       idle := if s.active == {} then s.idle + 1 else s.idle, slots := s.slots[c := SlotsUsed(s, c) + 1])
  }

  function Decided(s: System, rest: map<int, Thread>, id: int, c: Class): System {
    if Refuses(s, c) then Turned(s, rest, id, c) else LetIn(s, rest, id, c)
  }

  /** The system once a request that holds the mutex has left. */
  function Left(s: System, rest: map<int, Thread>, id: int, c: Class): System
    requires SlotsUsed(s, c) > 0
  {
    var left := s.active - {id};
    s.(threads := rest[id := Request(c, Gone)], lock := None, active := left,
       closes := if left == {} then s.closes + [s.idle] else s.closes,
       slots := s.slots[c := SlotsUsed(s, c) - 1], causes := Cancelled(s.causes, id, Done))
  }

  /** A request that is refused unlocks, and cancels its context. */
  lemma RefusedAlone(s: System, rest: map<int, Thread>, id: int, c: Class, n: nat)
    requires s.threads == rest[id := Request(c, Refused)] && s.lock == Some(id)
    ensures Alone(s, id, n + 2) == Turned(s, rest, id, c)
  {
    Stepped(s, rest, id, Request(c, Refused), Request(c, Rejecting), FreeMutex, n + 1);
    var t := Moved(s, id, Request(c, Rejecting), FreeMutex);
    Stepped(t, rest, id, Request(c, Rejecting), Request(c, Rejected), Cancel(id, Done), n);
    RejectedStays(Moved(t, id, Request(c, Rejected), Cancel(id, Done)), id, c, n);
  }

  lemma {:induction false} RejectedStays(s: System, id: int, c: Class, n: nat)
    requires id in s.threads && s.threads[id] == Request(c, Rejected)
    ensures Alone(s, id, n) == s
    decreases n
  {
    if n > 0 {
      assert s.threads[id := Request(c, Rejected)] == s.threads;
      assert Next(s, Advance(id, 0)) == s;
      RejectedStays(s, id, c, n - 1);
    }
  }

  /** A request that has a slot becomes active, and unlocks. */
  lemma TakenAlone(s: System, rest: map<int, Thread>, id: int, c: Class)
    requires s.threads == rest[id := Request(c, SlotTaken)] && s.lock == Some(id)
    ensures Alone(s, id, 2) == s.(threads := rest[id := Request(c, Serving)], lock := None, active := s.active + {id},
                                  idle := if s.active == {} then s.idle + 1 else s.idle)
  {
    Stepped(s, rest, id, Request(c, SlotTaken), Request(c, Inserted), Insert, 1);
    var t := Moved(s, id, Request(c, Inserted), Insert);
    Stepped(t, rest, id, Request(c, Inserted), Request(c, Serving), FreeMutex, 0);
  }

  /** A request that has passed both checks takes a slot if there is one. */
  lemma PassedAlone(s: System, rest: map<int, Thread>, id: int, c: Class)
    requires s.threads == rest[id := Request(c, NotForced)] && s.lock == Some(id)
    ensures Alone(s, id, 3) ==
            if SlotsUsed(s, c) >= Capacity(s, c) then Turned(s, rest, id, c) else LetIn(s, rest, id, c)
  {
    if SlotsUsed(s, c) >= Capacity(s, c) {
      Stepped(s, rest, id, Request(c, NotForced), Request(c, Refused), Nothing, 2);
      RefusedAlone(Moved(s, id, Request(c, Refused), Nothing), rest, id, c, 0);
    } else {
      Stepped(s, rest, id, Request(c, NotForced), Request(c, SlotTaken), TakeSlot(c), 2);
      TakenAlone(Moved(s, id, Request(c, SlotTaken), TakeSlot(c)), rest, id, c);
    }
  }

  /** A request that has not found the proxy draining looks whether it is being closed. */
  lemma NothingChanged(s: System, rest: map<int, Thread>, id: int, t: Thread, u: Thread)
    requires s.threads == rest[id := t]
    ensures Moved(s, id, u, Nothing) == s.(threads := rest[id := u])
  {
    assert rest[id := t][id := u] == rest[id := u];
  }

  lemma CheckedAlone(s: System, rest: map<int, Thread>, id: int, c: Class)
    requires s.threads == rest[id := Request(c, NotDraining)] && s.lock == Some(id) && !s.draining
    ensures Alone(s, id, 4) == Decided(s, rest, id, c)
  {
    if s.forcedClose {
      Stepped(s, rest, id, Request(c, NotDraining), Request(c, Refused), Nothing, 3);
      NothingChanged(s, rest, id, Request(c, NotDraining), Request(c, Refused));
      RefusedAlone(s.(threads := rest[id := Request(c, Refused)]), rest, id, c, 1);
    } else {
      Stepped(s, rest, id, Request(c, NotDraining), Request(c, NotForced), Nothing, 3);
      NothingChanged(s, rest, id, Request(c, NotDraining), Request(c, NotForced));
      PassedAlone(s.(threads := rest[id := Request(c, NotForced)]), rest, id, c);
    }
  }

  /** The steps of admitRequest, uninterrupted. */
  lemma AdmittedAlone(s: System, id: int, c: Class)
    requires id !in s.threads && s.lock.None?
    ensures Alone(Next(s, Spawn(id, Request(c, Arrived))), id, 6) == Admitted(s, id, c)
  {
    var s0 := Moved(s, id, Request(c, Arrived), Nothing);
    Stepped(s0, s.threads, id, Request(c, Arrived), Request(c, Checking), TakeMutex, 5);
    var s1 := s.(threads := s.threads[id := Request(c, Checking)], lock := Some(id));
    assert Moved(s0, id, Request(c, Checking), TakeMutex) == s1;
    LockedAlone(s1, s.threads, id, c);
    LetInAlone(s, s1, id, c);
  }

  /** Taking the mutex and giving it back shows in nothing else. */
  lemma LetInAlone(s: System, s1: System, id: int, c: Class)
    requires s.lock.None? && s1 == s.(threads := s1.threads, lock := s1.lock)
    ensures Decided(s1, s.threads, id, c) == Admitted(s, id, c)
  {
  }

  lemma LeftAlone(s: System, s1: System, id: int, c: Class)
    requires s.lock.None? && s1 == s.(threads := s1.threads, lock := s1.lock) && SlotsUsed(s, c) > 0
    ensures Left(s1, s.threads, id, c) == ReleasedBy(s, id, c)
  {
  }

  lemma LockedAlone(s: System, rest: map<int, Thread>, id: int, c: Class)
    requires s.threads == rest[id := Request(c, Checking)] && s.lock == Some(id)
    ensures Alone(s, id, 5) == Decided(s, rest, id, c)
  {
    if s.draining {
      DrainingAlone(s, rest, id, c);
    } else {
      var t := s.(threads := rest[id := Request(c, NotDraining)]);
      NotDrainingAlone(s, t, rest, id, c);
      CheckedAlone(t, rest, id, c);
      DecidedAlike(s, t, rest, id, c);
    }
  }

  lemma DecidedAlike(s: System, t: System, rest: map<int, Thread>, id: int, c: Class)
    requires t == s.(threads := t.threads)
    ensures Decided(t, rest, id, c) == Decided(s, rest, id, c)
  {
  }

  lemma NotDrainingAlone(s: System, t: System, rest: map<int, Thread>, id: int, c: Class)
    requires s.threads == rest[id := Request(c, Checking)] && !s.draining
    requires t == s.(threads := rest[id := Request(c, NotDraining)])
    ensures Alone(s, id, 5) == Alone(t, id, 4)
  {
    Stepped(s, rest, id, Request(c, Checking), Request(c, NotDraining), Nothing, 4);
    NothingChanged(s, rest, id, Request(c, Checking), Request(c, NotDraining));
  }

  lemma DrainingAlone(s: System, rest: map<int, Thread>, id: int, c: Class)
    requires s.threads == rest[id := Request(c, Checking)] && s.lock == Some(id) && s.draining
    ensures Alone(s, id, 5) == Turned(s, rest, id, c)
  {
    Stepped(s, rest, id, Request(c, Checking), Request(c, Refused), Nothing, 4);
    NothingChanged(s, rest, id, Request(c, Checking), Request(c, Refused));
    RefusedAlone(s.(threads := rest[id := Request(c, Refused)]), rest, id, c, 2);
  }

  /** A request that has freed its slot cancels its context. */
  lemma FreedAlone(s: System, rest: map<int, Thread>, id: int, c: Class)
    requires s.threads == rest[id := Request(c, Unlocked)] && SlotsUsed(s, c) > 0
    ensures Alone(s, id, 2) == s.(threads := rest[id := Request(c, Gone)],
                                  slots := s.slots[c := SlotsUsed(s, c) - 1], causes := Cancelled(s.causes, id, Done))
  {
    Stepped(s, rest, id, Request(c, Unlocked), Request(c, SlotFreed), FreeSlot(c), 1);
    var t := Moved(s, id, Request(c, SlotFreed), FreeSlot(c));
    Stepped(t, rest, id, Request(c, SlotFreed), Request(c, Gone), Cancel(id, Done), 0);
  }

  lemma MutexFreed(s: System, rest: map<int, Thread>, id: int, t: Thread, u: Thread)
    requires s.threads == rest[id := t]
    ensures Moved(s, id, u, FreeMutex) == s.(threads := rest[id := u], lock := None)
  {
    assert rest[id := t][id := u] == rest[id := u];
  }

  /** A request that is no longer active unlocks, and gives its slot back. */
  lemma GivenBackAlone(s: System, rest: map<int, Thread>, id: int, c: Class)
    requires s.threads == rest[id := Request(c, Removed)] && s.lock == Some(id) && SlotsUsed(s, c) > 0
    ensures Alone(s, id, 3) == s.(threads := rest[id := Request(c, Gone)], lock := None,
                                  slots := s.slots[c := SlotsUsed(s, c) - 1], causes := Cancelled(s.causes, id, Done))
  {
    Stepped(s, rest, id, Request(c, Removed), Request(c, Unlocked), FreeMutex, 2);
    MutexFreed(s, rest, id, Request(c, Removed), Request(c, Unlocked));
    FreedAlone(s.(threads := rest[id := Request(c, Unlocked)], lock := None), rest, id, c);
  }

  /** The system once a request that releases is no longer active; the last one closes the channel. */
  function Deleted(s: System, rest: map<int, Thread>, id: int, c: Class): System {
    var left := s.active - {id};
    s.(threads := rest[id := Request(c, Removed)], active := left,
       closes := if left == {} then s.closes + [s.idle] else s.closes)
  }

  lemma DeletedAlone(s: System, rest: map<int, Thread>, id: int, c: Class)
    requires s.threads == rest[id := Request(c, Releasing)]
    ensures Alone(s, id, 4) == Alone(Deleted(s, rest, id, c), id, 3)
  {
    Stepped(s, rest, id, Request(c, Releasing), Request(c, Removed), Delete, 3);
    assert Moved(s, id, Request(c, Removed), Delete) == Deleted(s, rest, id, c);
  }

  lemma RemovedAlone(s: System, t: System, rest: map<int, Thread>, id: int, c: Class)
    requires s.threads == rest[id := Request(c, Releasing)] && s.lock == Some(id) && SlotsUsed(s, c) > 0
    requires t == Deleted(s, rest, id, c)
    ensures Alone(t, id, 3) == Left(s, rest, id, c)
  {
    GivenBackAlone(t, rest, id, c);
  }

  /** The steps of the release closure, uninterrupted. */
  lemma ReleasedAlone(s: System, id: int, c: Class)
    requires id in s.threads && s.threads[id] == Request(c, Serving) && s.lock.None? && SlotsUsed(s, c) > 0
    ensures Alone(s, id, 5) == ReleasedBy(s, id, c)
  {
    assert s.threads == s.threads[id := Request(c, Serving)];
    Stepped(s, s.threads, id, Request(c, Serving), Request(c, Releasing), TakeMutex, 4);
    var t := s.(threads := s.threads[id := Request(c, Releasing)], lock := Some(id));
    MutexTaken(s, id, Request(c, Releasing));
    DeletedAlone(t, s.threads, id, c);
    RemovedAlone(t, Deleted(t, s.threads, id, c), s.threads, id, c);
    LeftAlone(s, t, id, c);
  }

  lemma MutexTaken(s: System, id: int, t: Thread)
    ensures Moved(s, id, t, TakeMutex) == s.(threads := s.threads[id := t], lock := Some(id))
    ensures Moved(s, id, t, FreeMutex) == s.(threads := s.threads[id := t], lock := None)
    ensures Moved(s, id, t, Nothing) == s.(threads := s.threads[id := t])
  {
  }

  /** The steps of BeginDrain, uninterrupted. */
  lemma DrainedAlone(s: System, id: int)
    requires id !in s.threads && s.lock.None?
    ensures Alone(Next(s, Spawn(id, Drainer(BeforeDrain))), id, 3) == Drained(s, id)
  {
    var s0 := Moved(s, id, Drainer(BeforeDrain), Nothing);
    Stepped(s0, s.threads, id, Drainer(BeforeDrain), Drainer(Locked), TakeMutex, 2);
    var s1 := Moved(s0, id, Drainer(Locked), TakeMutex);
    Stepped(s1, s.threads, id, Drainer(Locked), Drainer(Stored), StoreDraining, 1);
    var s2 := Moved(s1, id, Drainer(Stored), StoreDraining);
    Stepped(s2, s.threads, id, Drainer(Stored), Drainer(AfterDrain), FreeMutex, 0);
  }

  /** The requests are cancelled by a forced close; an earlier cause stays. */
  function WithForced(causes: map<int, Cause>, requests: set<int>): map<int, Cause> {
    map r | r in causes.Keys + requests :: if r in causes then causes[r] else ForcedClose
  }

  /** BeginForcedClose */
  function ClosedBy(s: System, id: int): System {
    if s.forcedClose then s.(threads := s.threads[id := Closer(Returned(false))])
    else s.(threads := s.threads[id := Closer(Returned(true))], forcedClose := true,
            causes := WithForced(s.causes, s.active))
  }

  lemma OneMore(causes: map<int, Cause>, requests: set<int>, r: int)
    requires r in requests
    ensures WithForced(Cancelled(causes, r, ForcedClose), requests - {r}) == WithForced(causes, requests)
  {
  }

  /** The loop over the snapshot, uninterrupted, in some order. */
  lemma {:induction false} CancelledAlone(s: System, rest: map<int, Thread>, id: int, requests: set<int>)
    returns (steps: seq<Step>)
    requires s.threads == rest[id := Closer(Cancelling(requests))]
    ensures forall i :: 0 <= i < |steps| ==> steps[i].Advance? && steps[i].id == id
    ensures Run(s, steps) == s.(threads := rest[id := Closer(Returned(true))], causes := WithForced(s.causes, requests))
    decreases |requests|
  {
    if requests == {} {
      steps := [Advance(id, 0)];
      NoneLeft(s, rest, id);
    } else {
      var r := Member(requests);
      var more := CancelledAlone(OneCancelled(s, rest, id, requests, r), rest, id, requests - {r});
      OneMore(s.causes, requests, r);
      OneStep(s, rest, id, requests, r);
      steps := [Advance(id, r)] + more;
      assert steps[1..] == more;
    }
  }

  function OneCancelled(s: System, rest: map<int, Thread>, id: int, requests: set<int>, r: int): System {
    s.(threads := rest[id := Closer(Cancelling(requests - {r}))], causes := Cancelled(s.causes, r, ForcedClose))
  }

  lemma OneStep(s: System, rest: map<int, Thread>, id: int, requests: set<int>, r: int)
    requires s.threads == rest[id := Closer(Cancelling(requests))] && r in requests
    ensures Next(s, Advance(id, r)) == OneCancelled(s, rest, id, requests, r)
  {
    var u := Closer(Cancelling(requests - {r}));
    assert rest[id := Closer(Cancelling(requests))][id := u] == rest[id := u];
  }

  lemma NoneLeft(s: System, rest: map<int, Thread>, id: int)
    requires s.threads == rest[id := Closer(Cancelling({}))]
    ensures Run(s, [Advance(id, 0)])
         == s.(threads := rest[id := Closer(Returned(true))], causes := WithForced(s.causes, {}))
  {
    assert [Advance(id, 0)][1..] == [];
    NothingChanged(s, rest, id, Closer(Cancelling({})), Closer(Returned(true)));
    assert WithForced(s.causes, {}) == s.causes;
  }

  lemma Member<T>(s: set<T>) returns (x: T)
    requires s != {}
    ensures x in s
  {
    x :| x in s;
  }

  /** From the snapshot on. */
  lemma CopiedAlone(s: System, rest: map<int, Thread>, id: int) returns (steps: seq<Step>)
    requires s.threads == rest[id := Closer(Snapshotting)] && s.lock == Some(id)
    ensures forall i :: 0 <= i < |steps| ==> steps[i].Advance? && steps[i].id == id
    ensures Run(s, steps) == s.(threads := rest[id := Closer(Returned(true))], lock := None,
                                causes := WithForced(s.causes, s.active))
  {
    var copied, cancelling := Closer(Copied(s.active)), Closer(Cancelling(s.active));
    NothingChanged(s, rest, id, Closer(Snapshotting), copied);
    var t := s.(threads := rest[id := copied]);
    MutexFreed(t, rest, id, copied, cancelling);
    var u := t.(threads := rest[id := cancelling], lock := None);
    var more := CancelledAlone(u, rest, id, s.active);
    steps := [Advance(id, 0), Advance(id, 0)] + more;
    assert steps[1..] == [Advance(id, 0)] + more && steps[1..][1..] == more;
    assert Next(s, Advance(id, 0)) == t && Next(t, Advance(id, 0)) == u;
  }

  /** The steps of BeginForcedClose, uninterrupted, in some order of its cancellations. */
  lemma ClosedAlone(s: System, id: int) returns (steps: seq<Step>)
    requires id !in s.threads && s.lock.None?
    ensures forall i :: 0 <= i < |steps| ==> steps[i].Advance? && steps[i].id == id
    ensures Run(Next(s, Spawn(id, Closer(Beginning))), steps) == ClosedBy(s, id)
  {
    var rest, first := s.threads, Closer(Beginning);
    var s0 := s.(threads := rest[id := first]);
    assert Next(s, Spawn(id, first)) == s0;
    if s.forcedClose {
      steps := [Advance(id, 0)];
      assert steps[1..] == [];
      NothingChanged(s0, rest, id, first, Closer(Returned(false)));
    } else {
      var s1 := s.(threads := rest[id := Closer(Swapped)], forcedClose := true);
      assert Next(s0, Advance(id, 0)) == s1 by {
        assert rest[id := first][id := Closer(Swapped)] == rest[id := Closer(Swapped)];
      }
      var s2 := s1.(threads := rest[id := Closer(Snapshotting)], lock := Some(id));
      assert Next(s1, Advance(id, 0)) == s2 by {
        assert rest[id := Closer(Swapped)][id := Closer(Snapshotting)] == rest[id := Closer(Snapshotting)];
      }
      var more := CopiedAlone(s2, rest, id);
      steps := [Advance(id, 0), Advance(id, 0)] + more;
      assert steps[1..] == [Advance(id, 0)] + more && steps[1..][1..] == more;
    }
  }

  // ---------- The handler ----------

  class Handler {
    const capacity: map<Class, nat>
    var draining: bool
    var forcedClose: bool
    var active: set<int>
    var idle: nat
    var closes: seq<nat>
    var slots: map<Class, nat>
    var causes: map<int, Cause>
    ghost var threads: map<int, Thread>

    /** Between calls nobody holds the mutex. */
    ghost function Value(): System
      reads this
    {
      System(capacity, threads, None, draining, forcedClose, active, idle, closes, slots, causes)
    }

    constructor (instrumented: nat, passthrough: nat)
      ensures Value() == NewSystem(instrumented, passthrough)
    {
      capacity := map[Instrumented := instrumented, Passthrough := passthrough];
      slots := map[Instrumented := 0, Passthrough := 0];
      draining, forcedClose, active, idle, closes, causes, threads := false, false, {}, 0, [], map[], map[];
    }

    method CancelContext(id: int, cause: Cause)
      modifies this`causes
      ensures causes == Cancelled(old(causes), id, cause)
    {
      if id !in causes {
        causes := causes[id := cause];
      }
    }

    /** A send that does not block. */
    method TakeSlotOf(c: Class) returns (taken: bool)
      modifies this`slots
      ensures taken == (SlotsUsed(old(Value()), c) < Capacity(old(Value()), c))
      ensures slots == if taken then old(slots)[c := SlotsUsed(old(Value()), c) + 1] else old(slots)
    {
      var used := if c in slots then slots[c] else 0;
      var limit := if c in capacity then capacity[c] else 0;
      if used >= limit {
        return false;
      }
      slots := slots[c := used + 1];
      return true;
    }

    method AdmitRequest(id: int, c: Class) returns (admitted: bool)
      modifies this
      ensures Value() == Admitted(old(Value()), id, c)
      ensures admitted == !Refuses(old(Value()), c)
    {
      if draining || forcedClose {
        CancelContext(id, Done);
        threads := threads[id := Request(c, Rejected)];
        return false;
      }
      var taken := TakeSlotOf(c);
      if !taken {
        CancelContext(id, Done);
        threads := threads[id := Request(c, Rejected)];
        return false;
      }
      if |active| == 0 {
        idle := idle + 1;
      }
      active := active + {id};
      threads := threads[id := Request(c, Serving)];
      return true;
    }

    method Release(id: int, c: Class)
      requires c in slots && slots[c] > 0
      modifies this
      ensures Value() == ReleasedBy(old(Value()), id, c)
    {
      active := active - {id};
      if |active| == 0 {
        closes := closes + [idle];
      }
      slots := slots[c := slots[c] - 1];
      CancelContext(id, Done);
      threads := threads[id := Request(c, Gone)];
    }

    method BeginDrain(id: int)
      modifies this`draining, this`threads
      ensures Value() == Drained(old(Value()), id)
    {
      draining := true;
      threads := threads[id := Drainer(AfterDrain)];
    }

    /** Everything that is active when the swap is won is cancelled, in some order; an earlier cause stays. */
    method BeginForcedClose(id: int)
      modifies this`forcedClose, this`causes, this`threads
      ensures Value() == ClosedBy(old(Value()), id)
    {
      if forcedClose {
        threads := threads[id := Closer(Returned(false))];
        return;
      }
      forcedClose := true;
      CancelAll(active);
      threads := threads[id := Closer(Returned(true))];
    }

    /** The loop over the snapshot. */
    method CancelAll(snapshot: set<int>)
      modifies this`causes
      ensures causes == WithForced(old(causes), snapshot)
    {
      var rest := snapshot;
      while rest != {}
        invariant rest <= snapshot
        invariant WithForced(causes, rest) == WithForced(old(causes), snapshot)
        decreases |rest|
      {
        var req := AnyOf(rest);
        OneMore(causes, rest, req);
        rest := rest - {req};
        CancelContext(req, ForcedClose);
      }
      assert WithForced(causes, {}) == causes;
    }
  }

  /** Ranging over a map: some key. */
  method AnyOf<T(==)>(s: set<T>) returns (x: T)
    requires s != {}
    ensures x in s
  {
    x :| x in s;
  }
}
