/**
 * Admission, drain and forced close of internal/proxy/proxy.go as atomic steps of concurrent
 * threads: requests that are admitted and released, callers of BeginDrain, BeginForcedClose and
 * WaitIdle. The mutex is a field; the flags are loaded, and the compare-and-swap is made, in
 * steps of their own, so that every interleaving is a run.
 */
module Admission {
  import opened Bytes

  datatype Class = Instrumented | Passthrough

  /** Why a request's context was cancelled; the first cause stays. */
  datatype Cause = ClientGone | ForcedClose | Done

  /** Where a request is in admitRequest, in its handler, or in the release closure. */
  datatype RequestAt =
    | Arrived
    | Checking      // holds the mutex
    | NotDraining   // has loaded draining: false
    | NotForced     // has loaded forcedClose: false
    | SlotTaken
    | Inserted      // is active, still holds the mutex
    | Refused       // will not be admitted, still holds the mutex
    | Rejecting     // has unlocked, is about to cancel its context
    | Rejected
    | Serving
    | Releasing     // holds the mutex
    | Removed       // is no longer active, still holds the mutex
    | Unlocked      // is about to free its slot
    | SlotFreed     // is about to cancel its context
    | Gone

  /** A caller of BeginForcedClose: rest is the part of its snapshot that it has yet to cancel. */
  datatype CloserAt =
    | Beginning
    | Swapped                     // has won the compare-and-swap
    | Snapshotting                // holds the mutex
    | Copied(rest: set<int>)      // still holds the mutex
    | Cancelling(rest: set<int>)
    | Returned(won: bool)

  datatype DrainerAt = BeforeDrain | Locked | Stored | AfterDrain

  /** A caller of WaitIdle; drained says that it found nothing active once draining was set. */
  datatype WaiterAt =
    | Looking
    | Holding                     // holds the mutex
    | SawNone(drained: bool)      // still holds the mutex
    | SawIdle(channel: nat)       // still holds the mutex
    | Blocked(channel: nat)
    | ReturnedNil(drained: bool)
    | ReturnedError

  datatype Thread =
    | Request(class_: Class, request: RequestAt)
    | Closer(closer: CloserAt)
    | Drainer(drainer: DrainerAt)
    | Waiter(waiter: WaiterAt)

  /** Channels are numbered as they are made; `closes` lists the close operations. */
  datatype System = System(
    capacity: map<Class, nat>, threads: map<int, Thread>, lock: Option<int>, draining: bool, forcedClose: bool,
    active: set<int>, idle: nat, closes: seq<nat>, slots: map<Class, nat>, causes: map<int, Cause>)

  datatype Step =
    | Spawn(id: int, thread: Thread)
    | Advance(id: int, next: int)
    | ClientCancel(id: int)
    | Timeout(id: int)

  function NewSystem(instrumented: nat, passthrough: nat): System {
    System(map[Instrumented := instrumented, Passthrough := passthrough], map[], None, false, false,
      {}, 0, [], map[Instrumented := 0, Passthrough := 0], map[])
  }

  function Cancelled(causes: map<int, Cause>, id: int, cause: Cause): map<int, Cause> {
    if id in causes then causes else causes[id := cause]
  }

  predicate IsFresh(t: Thread) {
    t == Closer(Beginning) || t == Drainer(BeforeDrain) || t == Waiter(Looking) || (t.Request? && t.request == Arrived)
  }

  function SlotsUsed(s: System, c: Class): nat {
    if c in s.slots then s.slots[c] else 0
  }

  function Capacity(s: System, c: Class): nat {
    if c in s.capacity then s.capacity[c] else 0
  }

  // ---------- Atomic steps ----------

  /** What a step does to what the threads share. */
  datatype Effect =
    | Nothing
    | TakeMutex
    | FreeMutex
    | StoreDraining
    | SwapForced
    | TakeSlot(class_: Class)
    | FreeSlot(class_: Class)
    | Insert
    | Delete
    | Cancel(request: int, cause: Cause)

  /**
   * The thread moves on, with the effect of its step: a new channel is made for the first active
   * request, and closed by the last.
   */
  function Moved(s: System, id: int, t: Thread, e: Effect): System {
    var m := s.(threads := s.threads[id := t]);
    match e
    case Nothing => m
    case TakeMutex => m.(lock := Some(id))
    case FreeMutex => m.(lock := None)
    case StoreDraining => m.(draining := true)
    case SwapForced => m.(forcedClose := true)
    case TakeSlot(c) => m.(slots := s.slots[c := SlotsUsed(s, c) + 1])
    case FreeSlot(c) => m.(slots := s.slots[c := if SlotsUsed(s, c) > 0 then SlotsUsed(s, c) - 1 else 0])
    case Insert => m.(active := s.active + {id}, idle := if s.active == {} then s.idle + 1 else s.idle)
    case Delete =>
      m.(active := s.active - {id}, closes := if s.active - {id} == {} then s.closes + [s.idle] else s.closes)
    case Cancel(request, cause) => m.(causes := Cancelled(s.causes, request, cause))
  }

  /** A thread that waits for the mutex. */
  function Locking(s: System, t: Thread, locked: Thread): (Thread, Effect) {
    if s.lock.None? then (locked, TakeMutex) else (t, Nothing)
  }

  /** One step of admitRequest or of the release closure. */
  function RequestMove(s: System, id: int, c: Class, at: RequestAt): (Thread, Effect) {
    match at
    case Arrived => Locking(s, Request(c, at), Request(c, Checking))
    case Checking => (Request(c, if s.draining then Refused else NotDraining), Nothing)
    case NotDraining => (Request(c, if s.forcedClose then Refused else NotForced), Nothing)
    case NotForced =>
      if SlotsUsed(s, c) < Capacity(s, c) then (Request(c, SlotTaken), TakeSlot(c)) else (Request(c, Refused), Nothing)
    case SlotTaken => (Request(c, Inserted), Insert)
    case Inserted => (Request(c, Serving), FreeMutex)
    case Refused => (Request(c, Rejecting), FreeMutex)
    case Rejecting => (Request(c, Rejected), Cancel(id, Done))
    case Serving => Locking(s, Request(c, at), Request(c, Releasing))
    case Releasing => (Request(c, Removed), Delete)
    case Removed => (Request(c, Unlocked), FreeMutex)
    case Unlocked => if SlotsUsed(s, c) == 0 then (Request(c, at), Nothing) else (Request(c, SlotFreed), FreeSlot(c))
    case SlotFreed => (Request(c, Gone), Cancel(id, Done))
    case _ => (Request(c, at), Nothing)
  }

  /** One step of BeginForcedClose; the snapshot may be cancelled in any order. */
  function CloserMove(s: System, at: CloserAt, next: int): (Thread, Effect) {
    match at
    case Beginning => if s.forcedClose then (Closer(Returned(false)), Nothing) else (Closer(Swapped), SwapForced)
    case Swapped => Locking(s, Closer(at), Closer(Snapshotting))
    case Snapshotting => (Closer(Copied(s.active)), Nothing)
    case Copied(rest) => (Closer(Cancelling(rest)), FreeMutex)
    case Cancelling(rest) =>
      if rest == {} then (Closer(Returned(true)), Nothing)
      else if next !in rest then (Closer(at), Nothing)
      else (Closer(Cancelling(rest - {next})), Cancel(next, ForcedClose))
    case Returned(_) => (Closer(at), Nothing)
  }

  function DrainerMove(s: System, at: DrainerAt): (Thread, Effect) {
    match at
    case BeforeDrain => Locking(s, Drainer(at), Drainer(Locked))
    case Locked => (Drainer(Stored), StoreDraining)
    case Stored => (Drainer(AfterDrain), FreeMutex)
    case AfterDrain => (Drainer(at), Nothing)
  }

  function WaiterMove(s: System, at: WaiterAt): (Thread, Effect) {
    match at
    case Looking => Locking(s, Waiter(at), Waiter(Holding))
    case Holding => (Waiter(if s.active == {} then SawNone(s.draining) else SawIdle(s.idle)), Nothing)
    case SawNone(drained) => (Waiter(ReturnedNil(drained)), FreeMutex)
    case SawIdle(channel) => (Waiter(Blocked(channel)), FreeMutex)
    case Blocked(channel) => (Waiter(if channel in s.closes then Looking else at), Nothing)
    case _ => (Waiter(at), Nothing)
  }

  function Move(s: System, id: int, t: Thread, next: int): (Thread, Effect) {
    match t
    case Request(c, at) => RequestMove(s, id, c, at)
    case Closer(at) => CloserMove(s, at, next)
    case Drainer(at) => DrainerMove(s, at)
    case Waiter(at) => WaiterMove(s, at)
  }

  /** A step that is not possible changes nothing. */
  function Next(s: System, step: Step): System {
    match step
    case Spawn(id, t) => if id in s.threads || !IsFresh(t) then s else Moved(s, id, t, Nothing)
    case Advance(id, next) =>
      if id !in s.threads then s
      else
        var (t, e) := Move(s, id, s.threads[id], next);
        Moved(s, id, t, e)
    case ClientCancel(id) =>
      if id in s.threads && s.threads[id].Request? then Moved(s, id, s.threads[id], Cancel(id, ClientGone)) else s
    case Timeout(id) =>
      if id in s.threads && s.threads[id].Waiter? && s.threads[id].waiter.Blocked?
      then Moved(s, id, Waiter(ReturnedError), Nothing) else s
  }

  function Run(s: System, steps: seq<Step>): System
    decreases |steps|
  {
    if steps == [] then s else Run(Next(s, steps[0]), steps[1..])
  }

  // ---------- The invariant ----------

  predicate HoldsMutex(t: Thread) {
    match t
    case Request(_, at) =>
      at.Checking? || at.NotDraining? || at.NotForced? || at.SlotTaken? || at.Inserted? || at.Refused? || at.Releasing?
        || at.Removed?
    case Closer(at) => at.Snapshotting? || at.Copied?
    case Drainer(at) => at.Locked? || at.Stored?
    case Waiter(at) => at.Holding? || at.SawNone? || at.SawIdle?
  }

  /** Admitted and not yet released. */
  predicate IsActive(t: Thread) {
    t.Request? && (t.request.Inserted? || t.request.Serving? || t.request.Releasing?)
  }

  predicate HoldsSlot(t: Thread, c: Class) {
    t.Request? && t.class_ == c
    && (t.request.SlotTaken? || t.request.Inserted? || t.request.Serving?
        || t.request.Releasing? || t.request.Removed? || t.request.Unlocked?)
  }

  /** Has passed the check of the drain flag and is not yet active. */
  predicate PassedDrain(t: Thread) {
    t.Request? && (t.request.NotDraining? || t.request.NotForced? || t.request.SlotTaken?)
  }

  predicate PassedForced(t: Thread) {
    t.Request? && (t.request.NotForced? || t.request.SlotTaken?)
  }

  /** Has made its snapshot: no request that it does not know can become active any more. */
  predicate HasSnapshot(t: Thread) {
    t.Closer? && (t.closer.Copied? || t.closer.Cancelling? || (t.closer.Returned? && t.closer.won))
  }

  function StillToCancel(t: Thread): set<int> {
    if t.Closer? && (t.closer.Copied? || t.closer.Cancelling?) then t.closer.rest else {}
  }

  predicate FoundDrained(t: Thread) {
    t.Waiter? && ((t.waiter.SawNone? || t.waiter.ReturnedNil?) && t.waiter.drained)
  }

  /** The channel that a waiter knows, if it does, has been made. */
  predicate KnowsChannel(s: System, t: Thread) {
    t.Waiter? && (t.waiter.SawIdle? || t.waiter.Blocked?) ==> 1 <= t.waiter.channel <= s.idle
  }

  /** Everything active is still to be cancelled by this caller, or has been cancelled. */
  ghost predicate Covers(s: System, t: Thread) {
    forall r :: r in s.active ==> r in StillToCancel(t) || r in s.causes
  }

  predicate HasStored(t: Thread) {
    t.Drainer? && (t.drainer.Stored? || t.drainer.AfterDrain?)
  }

  predicate HasSwapped(t: Thread) {
    t.Closer? && !t.closer.Beginning? && t.closer != Returned(false)
  }

  predicate IsOver(t: Thread) {
    t.Request? && (t.request.Gone? || t.request.Rejected?)
  }

  ghost function SlotHolders(s: System, c: Class): set<int> {
    set id | id in s.threads && HoldsSlot(s.threads[id], c)
  }

  ghost predicate MutexOK(s: System) {
    && (forall id :: id in s.threads && HoldsMutex(s.threads[id]) ==> s.lock == Some(id))
    && (s.lock.Some? ==> s.lock.value in s.threads && HoldsMutex(s.threads[s.lock.value]))
  }

  ghost predicate ActiveOK(s: System) {
    forall id :: id in s.active <==> id in s.threads && IsActive(s.threads[id])
  }

  /** The channel is open exactly while something is active; those before it are closed, each once. */
  ghost predicate ChannelsOK(s: System) {
    && (forall i :: 0 <= i < |s.closes| ==> 1 <= s.closes[i] <= s.idle)
    && (forall i, j :: 0 <= i < j < |s.closes| ==> s.closes[i] != s.closes[j])
    && (forall c :: 1 <= c < s.idle ==> c in s.closes)
    && (s.active == {} <==> s.idle == 0 || s.idle in s.closes)
  }

  ghost predicate WaitersOK(s: System) {
    forall id :: id in s.threads ==> KnowsChannel(s, s.threads[id])
  }

  ghost predicate IdleOK(s: System) {
    ChannelsOK(s) && WaitersOK(s)
  }

  ghost predicate SlotsOK(s: System) {
    forall c: Class :: |SlotHolders(s, c)| == SlotsUsed(s, c) <= Capacity(s, c)
  }

  /** While the proxy drains, no request is on its way past the drain check. */
  ghost predicate NoneEntering(s: System) {
    s.draining ==> forall id :: id in s.threads ==> !PassedDrain(s.threads[id])
  }

  ghost predicate FindingsOK(s: System) {
    forall id :: id in s.threads && FoundDrained(s.threads[id]) ==> s.draining && s.active == {}
  }

  ghost predicate StoresOK(s: System) {
    forall id :: id in s.threads && HasStored(s.threads[id]) ==> s.draining
  }

  ghost predicate DrainOK(s: System) {
    NoneEntering(s) && FindingsOK(s) && StoresOK(s)
  }

  ghost predicate SnapshotMade(s: System) {
    exists id :: id in s.threads && HasSnapshot(s.threads[id])
  }

  ghost predicate SwapOK(s: System) {
    forall id :: id in s.threads && HasSwapped(s.threads[id]) ==> s.forcedClose
  }

  /** Once a snapshot has been made, no request is on its way past the forced-close check. */
  ghost predicate NonePassing(s: System) {
    SnapshotMade(s) ==> forall id :: id in s.threads ==> !PassedForced(s.threads[id])
  }

  ghost predicate AllCovered(s: System) {
    forall id :: id in s.threads && HasSnapshot(s.threads[id]) ==> Covers(s, s.threads[id])
  }

  ghost predicate CloseOK(s: System) {
    SwapOK(s) && NonePassing(s) && AllCovered(s)
  }

  ghost predicate CausesOK(s: System) {
    forall id :: id in s.threads && IsOver(s.threads[id]) ==> id in s.causes
  }

  ghost predicate Inv(s: System) {
    MutexOK(s) && ActiveOK(s) && IdleOK(s) && SlotsOK(s) && DrainOK(s) && CloseOK(s) && CausesOK(s)
  }

  lemma NewSystemInv(instrumented: nat, passthrough: nat)
    ensures Inv(NewSystem(instrumented, passthrough))
  {
    var s := NewSystem(instrumented, passthrough);
    forall c: Class ensures SlotHolders(s, c) == {} {
    }
  }

  // ---------- What a step may do ----------

  /** The mutex is taken when free, and freed by its holder. */
  predicate MutexLegal(s: System, t: Thread, u: Thread, e: Effect) {
    && (HoldsMutex(u) <==> e.TakeMutex? || (HoldsMutex(t) && !e.FreeMutex?))
    && (e.TakeMutex? ==> s.lock.None?)
    && (e.FreeMutex? ==> HoldsMutex(t))
  }

  /** Only a request that passed both checks becomes active, and only under the mutex. */
  predicate ActiveLegal(t: Thread, u: Thread, e: Effect) {
    && (IsActive(u) <==> e.Insert? || (IsActive(t) && !e.Delete?))
    && (e.Insert? ==> PassedForced(t) && PassedDrain(t))
    && (e.Delete? ==> IsActive(t))
  }

  predicate SlotLegal(s: System, t: Thread, u: Thread, e: Effect, c: Class) {
    && (HoldsSlot(u, c) <==> e == TakeSlot(c) || (HoldsSlot(t, c) && e != FreeSlot(c)))
    && (e == TakeSlot(c) ==> !HoldsSlot(t, c) && SlotsUsed(s, c) < Capacity(s, c))
    && (e == FreeSlot(c) ==> HoldsSlot(t, c))
  }

  predicate DrainLegal(s: System, t: Thread, u: Thread, e: Effect) {
    && (PassedDrain(u) ==> PassedDrain(t) || !s.draining)
    && (FoundDrained(u) ==> FoundDrained(t) || (s.draining && s.active == {}))
    && (HasStored(u) ==> HasStored(t) || e.StoreDraining?)
    && (e.StoreDraining? ==> HoldsMutex(t) && u.Drainer?)
    && (FoundDrained(u) ==> !e.Insert?)
  }

  predicate CloseLegal(s: System, t: Thread, u: Thread, e: Effect) {
    && (HasSwapped(u) ==> HasSwapped(t) || e.SwapForced?)
    && (PassedForced(u) ==> PassedForced(t) || !s.forcedClose)
    && (HasSnapshot(u) ==>
          && u.Closer?
          && if HasSnapshot(t) then LeavesCovered(t, u, e) else HoldsMutex(t) && u.closer == Copied(s.active))
    && (HasSnapshot(t) ==> HasSnapshot(u))
  }

  /** Whatever the caller no longer has to cancel, it has just cancelled. */
  predicate LeavesCovered(t: Thread, u: Thread, e: Effect) {
    StillToCancel(t) == StillToCancel(u) || (e.Cancel? && StillToCancel(t) - {e.request} == StillToCancel(u))
  }

  predicate Legal(s: System, id: int, t: Thread, u: Thread, e: Effect) {
    && MutexLegal(s, t, u, e) && ActiveLegal(t, u, e) && DrainLegal(s, t, u, e) && CloseLegal(s, t, u, e)
    && SlotLegal(s, t, u, e, Instrumented) && SlotLegal(s, t, u, e, Passthrough)
    && (KnowsChannel(s, t) && s.idle >= (if s.active == {} then 0 else 1) ==> KnowsChannel(s, u))
    && (IsOver(u) ==> IsOver(t) || (e.Cancel? && e.request == id))
  }

  lemma RequestLegal(s: System, id: int, c: Class, at: RequestAt)
    ensures var t := Request(c, at);
            var (u, e) := RequestMove(s, id, c, at);
            && MutexLegal(s, t, u, e) && ActiveLegal(t, u, e) && DrainLegal(s, t, u, e)
            && (IsOver(u) ==> IsOver(t) || (e.Cancel? && e.request == id))
  {
  }

  lemma RequestSlotLegal(s: System, id: int, c: Class, at: RequestAt)
    ensures var t := Request(c, at);
            var (u, e) := RequestMove(s, id, c, at);
            && SlotLegal(s, t, u, e, Instrumented) && SlotLegal(s, t, u, e, Passthrough)
            && CloseLegal(s, t, u, e) && KnowsChannel(s, u)
  {
  }

  lemma MoveLegal(s: System, id: int, t: Thread, next: int)
    ensures var (u, e) := Move(s, id, t, next); Legal(s, id, t, u, e)
  {
    match t
    case Request(c, at) =>
      RequestLegal(s, id, c, at);
      RequestSlotLegal(s, id, c, at);
    case _ => OthersLegal(s, id, t, next);
  }

  lemma OthersLegal(s: System, id: int, t: Thread, next: int)
    requires !t.Request?
    ensures var (u, e) := Move(s, id, t, next); Legal(s, id, t, u, e)
  {
  }

  /** A thread stays of its kind, and only callers of BeginForcedClose swap the flag. */
  lemma MoveKind(s: System, id: int, t: Thread, next: int)
    ensures var (u, e) := Move(s, id, t, next);
            (u.Closer? <==> t.Closer?) && (e.SwapForced? ==> t.Closer?)
  {
  }

  // ---------- What a legal step keeps ----------

  /** The thread that moves from t is in the table, or is new there. */
  predicate IsThread(s: System, id: int, t: Thread) {
    if id in s.threads then s.threads[id] == t else IsFresh(t)
  }

  lemma MutexKept(s: System, id: int, t: Thread, u: Thread, e: Effect)
    requires MutexOK(s) && IsThread(s, id, t) && MutexLegal(s, t, u, e)
    ensures MutexOK(Moved(s, id, u, e))
  {
  }

  lemma ActiveKept(s: System, id: int, t: Thread, u: Thread, e: Effect)
    requires ActiveOK(s) && IsThread(s, id, t) && ActiveLegal(t, u, e)
    ensures ActiveOK(Moved(s, id, u, e))
  {
  }

  lemma ChannelsKept(s: System, id: int, t: Thread, u: Thread, e: Effect)
    requires ChannelsOK(s) && ActiveOK(s) && IsThread(s, id, t) && ActiveLegal(t, u, e)
    ensures ChannelsOK(Moved(s, id, u, e))
  {
    match e
    case Delete =>
      assert id in s.active;
    case _ =>
  }

  lemma WaitersKept(s: System, id: int, t: Thread, u: Thread, e: Effect)
    requires IdleOK(s) && IsThread(s, id, t) && Legal(s, id, t, u, e)
    ensures WaitersOK(Moved(s, id, u, e))
  {
    assert s.idle <= Moved(s, id, u, e).idle;
  }

  lemma IdleKept(s: System, id: int, t: Thread, u: Thread, e: Effect)
    requires IdleOK(s) && ActiveOK(s) && IsThread(s, id, t) && Legal(s, id, t, u, e)
    ensures IdleOK(Moved(s, id, u, e))
  {
    ChannelsKept(s, id, t, u, e);
    WaitersKept(s, id, t, u, e);
  }

  lemma NoneEnteringKept(s: System, id: int, t: Thread, u: Thread, e: Effect)
    requires NoneEntering(s) && MutexOK(s) && IsThread(s, id, t) && DrainLegal(s, t, u, e)
    ensures NoneEntering(Moved(s, id, u, e))
  {
  }

  lemma FindingsKept(s: System, id: int, t: Thread, u: Thread, e: Effect)
    requires DrainOK(s) && IsThread(s, id, t) && DrainLegal(s, t, u, e) && ActiveLegal(t, u, e)
    ensures FindingsOK(Moved(s, id, u, e))
  {
  }

  lemma DrainKept(s: System, id: int, t: Thread, u: Thread, e: Effect)
    requires DrainOK(s) && MutexOK(s) && IsThread(s, id, t) && Legal(s, id, t, u, e)
    ensures DrainOK(Moved(s, id, u, e))
  {
    NoneEnteringKept(s, id, t, u, e);
    FindingsKept(s, id, t, u, e);
  }

  lemma SwapKept(s: System, id: int, t: Thread, u: Thread, e: Effect)
    requires SwapOK(s) && IsThread(s, id, t) && CloseLegal(s, t, u, e)
    ensures SwapOK(Moved(s, id, u, e))
  {
  }

  lemma NonePassingKept(s: System, id: int, t: Thread, u: Thread, e: Effect)
    requires CloseOK(s) && MutexOK(s) && IsThread(s, id, t) && CloseLegal(s, t, u, e)
    ensures NonePassing(Moved(s, id, u, e))
  {
    if SnapshotMade(s) {
      StillNonePassing(s, id, t, u, e);
    } else if SnapshotMade(Moved(s, id, u, e)) {
      SnapshotJustMade(s, id, t, u, e);
    }
  }

  lemma StillNonePassing(s: System, id: int, t: Thread, u: Thread, e: Effect)
    requires CloseOK(s) && IsThread(s, id, t) && CloseLegal(s, t, u, e) && SnapshotMade(s)
    ensures NonePassing(Moved(s, id, u, e))
  {
    var x :| x in s.threads && HasSnapshot(s.threads[x]);
    assert HasSwapped(s.threads[x]);
    assert s.forcedClose;
  }

  /** The snapshot is made under the mutex, which every request on its way holds. */
  lemma SnapshotJustMade(s: System, id: int, t: Thread, u: Thread, e: Effect)
    requires CloseOK(s) && MutexOK(s) && IsThread(s, id, t) && CloseLegal(s, t, u, e)
    requires !SnapshotMade(s) && SnapshotMade(Moved(s, id, u, e))
    ensures NonePassing(Moved(s, id, u, e))
  {
    var m := Moved(s, id, u, e);
    var x :| x in m.threads && HasSnapshot(m.threads[x]);
    assert x == id;
    assert HoldsMutex(t) && s.lock == Some(id);
  }

  lemma CoveredKept(s: System, id: int, t: Thread, u: Thread, e: Effect)
    requires CloseOK(s) && MutexOK(s) && IsThread(s, id, t) && CloseLegal(s, t, u, e) && ActiveLegal(t, u, e)
    ensures AllCovered(Moved(s, id, u, e))
  {
    var m := Moved(s, id, u, e);
    forall x | x in m.threads && HasSnapshot(m.threads[x]) ensures Covers(m, m.threads[x]) {
      if x != id {
        assert HasSnapshot(s.threads[x]) && Covers(s, s.threads[x]);
        assert SnapshotMade(s);
        assert !e.Insert?;
      } else if HasSnapshot(t) {
        assert Covers(s, t);
      }
    }
  }

  lemma CloseKept(s: System, id: int, t: Thread, u: Thread, e: Effect)
    requires CloseOK(s) && MutexOK(s) && IsThread(s, id, t) && Legal(s, id, t, u, e)
    ensures CloseOK(Moved(s, id, u, e))
  {
    SwapKept(s, id, t, u, e);
    NonePassingKept(s, id, t, u, e);
    CoveredKept(s, id, t, u, e);
  }

  lemma CausesKept(s: System, id: int, t: Thread, u: Thread, e: Effect)
    requires CausesOK(s) && IsThread(s, id, t) && Legal(s, id, t, u, e)
    ensures CausesOK(Moved(s, id, u, e))
  {
  }

  lemma SlotsKept(s: System, id: int, t: Thread, u: Thread, e: Effect)
    requires SlotsOK(s) && IsThread(s, id, t) && Legal(s, id, t, u, e)
    ensures SlotsOK(Moved(s, id, u, e))
  {
    forall c: Class ensures |SlotHolders(Moved(s, id, u, e), c)| == SlotsUsed(Moved(s, id, u, e), c) <= Capacity(s, c) {
      match c
      case Instrumented => SlotCounted(s, id, t, u, e, Instrumented);
      case Passthrough => SlotCounted(s, id, t, u, e, Passthrough);
    }
  }

  lemma SlotCounted(s: System, id: int, t: Thread, u: Thread, e: Effect, c: Class)
    requires SlotsOK(s) && IsThread(s, id, t) && SlotLegal(s, t, u, e, c)
    ensures |SlotHolders(Moved(s, id, u, e), c)| == SlotsUsed(Moved(s, id, u, e), c) <= Capacity(s, c)
  {
    var m := Moved(s, id, u, e);
    HoldersMoved(s, m, id, t, u, c);
    assert |SlotHolders(s, c)| == SlotsUsed(s, c) <= Capacity(s, c);
    match e
    case TakeSlot(d) => assert SlotsUsed(m, c) == SlotsUsed(s, c) + if d == c then 1 else 0;
    case FreeSlot(d) => assert d != c ==> SlotsUsed(m, c) == SlotsUsed(s, c);
    case _ =>
  }

  lemma HoldersMoved(s: System, m: System, id: int, t: Thread, u: Thread, c: Class)
    requires IsThread(s, id, t) && m.threads == s.threads[id := u]
    ensures |SlotHolders(m, c)| + (if HoldsSlot(t, c) then 1 else 0)
         == |SlotHolders(s, c)| + (if HoldsSlot(u, c) then 1 else 0)
  {
    var before, after := SlotHolders(s, c), SlotHolders(m, c);
    assert id in before <==> HoldsSlot(t, c);
    assert id in after <==> HoldsSlot(u, c);
    forall x | x != id ensures x in after <==> x in before {
      assert x in m.threads <==> x in s.threads;
    }
    CountDiffers(before, after, id);
  }

  /** Two sets that agree except on one element. */
  lemma CountDiffers(a: set<int>, b: set<int>, x: int)
    requires forall y :: y != x ==> (y in a <==> y in b)
    ensures |b| + (if x in a then 1 else 0) == |a| + (if x in b then 1 else 0)
  {
    var c, d := a - {x}, b - {x};
    assert forall y :: y in c <==> y in d;
    assert c == d;
    assert a == if x in a then c + {x} else c;
    assert b == if x in b then d + {x} else d;
  }

  lemma MovedInv(s: System, id: int, t: Thread, u: Thread, e: Effect)
    requires Inv(s) && IsThread(s, id, t) && Legal(s, id, t, u, e)
    ensures Inv(Moved(s, id, u, e))
  {
    MutexKept(s, id, t, u, e);
    ActiveKept(s, id, t, u, e);
    IdleKept(s, id, t, u, e);
    SlotsKept(s, id, t, u, e);
    DrainKept(s, id, t, u, e);
    CloseKept(s, id, t, u, e);
    CausesKept(s, id, t, u, e);
  }

  lemma FreshLegal(s: System, id: int, t: Thread)
    requires IsFresh(t)
    ensures Legal(s, id, t, t, Nothing)
  {
  }

  lemma CancelLegal(s: System, id: int, t: Thread)
    requires t.Request?
    ensures Legal(s, id, t, t, Cancel(id, ClientGone))
  {
  }

  lemma TimeoutLegal(s: System, id: int, t: Thread)
    requires t.Waiter? && t.waiter.Blocked?
    ensures Legal(s, id, t, Waiter(ReturnedError), Nothing)
  {
  }

  /** Every atomic step of every thread keeps the invariant. */
  lemma NextInv(s: System, step: Step)
    requires Inv(s)
    ensures Inv(Next(s, step))
  {
    match step
    case Spawn(id, t) =>
      if id !in s.threads && IsFresh(t) {
        FreshLegal(s, id, t);
        MovedInv(s, id, t, t, Nothing);
      }
    case Advance(id, next) =>
      if id in s.threads {
        var (u, e) := Move(s, id, s.threads[id], next);
        MoveLegal(s, id, s.threads[id], next);
        MovedInv(s, id, s.threads[id], u, e);
      }
    case ClientCancel(id) =>
      if id in s.threads && s.threads[id].Request? {
        CancelLegal(s, id, s.threads[id]);
        MovedInv(s, id, s.threads[id], s.threads[id], Cancel(id, ClientGone));
      }
    case Timeout(id) =>
      if id in s.threads && s.threads[id].Waiter? && s.threads[id].waiter.Blocked? {
        TimeoutLegal(s, id, s.threads[id]);
        MovedInv(s, id, s.threads[id], Waiter(ReturnedError), Nothing);
      }
  }

  lemma {:induction false} RunInv(s: System, steps: seq<Step>)
    requires Inv(s)
    ensures Inv(Run(s, steps))
    decreases |steps|
  {
    if steps != [] {
      NextInv(s, steps[0]);
      RunInv(Next(s, steps[0]), steps[1..]);
    }
  }

  lemma {:induction false} RunAppend(s: System, x: seq<Step>, y: seq<Step>)
    ensures Run(s, x + y) == Run(Run(s, x), y)
    decreases |x|
  {
    if x == [] {
      assert x + y == y;
    } else {
      assert (x + y)[0] == x[0] && (x + y)[1..] == x[1..] + y;
      RunAppend(Next(s, x[0]), x[1..], y);
    }
  }

  // ---------- The theorems ----------

  /** A call of BeginForcedClose that won the swap has returned. */
  ghost predicate ForcedCloseDone(s: System) {
    exists id :: id in s.threads && s.threads[id] == Closer(Returned(true))
  }

  /** Admitted: admitRequest has made it active, whether or not it has been released since. */
  predicate WasAdmitted(t: Thread) {
    || IsActive(t)
    || (t.Request? && (t.request.Removed? || t.request.Unlocked? || t.request.SlotFreed? || t.request.Gone?))
  }

  /**
   * No request escapes a forced close: once the call that won has returned, every request that
   * was admitted has been released or cancelled.
   */
  lemma NoneEscapes(instrumented: nat, passthrough: nat, steps: seq<Step>, id: int)
    requires var s := Run(NewSystem(instrumented, passthrough), steps);
             ForcedCloseDone(s) && id in s.threads && WasAdmitted(s.threads[id])
    ensures var s := Run(NewSystem(instrumented, passthrough), steps);
            id !in s.active || id in s.causes
  {
    NewSystemInv(instrumented, passthrough);
    RunInv(NewSystem(instrumented, passthrough), steps);
    var s := Run(NewSystem(instrumented, passthrough), steps);
    var x :| x in s.threads && s.threads[x] == Closer(Returned(true));
    assert Covers(s, s.threads[x]);
  }

  /** ... and no admission succeeds any more, whatever the threads do next. */
  lemma NoneAdmittedAfter(s: System, step: Step)
    requires Inv(s) && ForcedCloseDone(s)
    ensures Next(s, step).active <= s.active && ForcedCloseDone(Next(s, step))
  {
    var x :| x in s.threads && s.threads[x] == Closer(Returned(true));
    assert HasSnapshot(s.threads[x]);
    assert Next(s, step).threads[x] == s.threads[x] by {
      ReturnedStays(s, step, x);
    }
    if step.Advance? && step.id in s.threads {
      MoveLegal(s, step.id, s.threads[step.id], step.next);
      assert !PassedForced(s.threads[step.id]);
    }
  }

  lemma ReturnedStays(s: System, step: Step, x: int)
    requires x in s.threads && s.threads[x] == Closer(Returned(true))
    ensures x in Next(s, step).threads && Next(s, step).threads[x] == s.threads[x]
  {
    if step.Advance? && step.id in s.threads {
      var (u, e) := Move(s, step.id, s.threads[step.id], step.next);
      MovedKeeps(s, step.id, u, e);
      if step.id == x {
        assert CloserMove(s, Returned(true), step.next) == (Closer(Returned(true)), Nothing);
      }
    }
  }

  lemma MovedKeeps(s: System, id: int, t: Thread, e: Effect)
    ensures Moved(s, id, t, e).threads == s.threads[id := t]
    ensures Moved(s, id, t, e).capacity == s.capacity
    ensures !e.SwapForced? ==> Moved(s, id, t, e).forcedClose == s.forcedClose
  {
  }

  lemma {:induction false} NoneAdmittedLater(s: System, steps: seq<Step>)
    requires Inv(s) && ForcedCloseDone(s)
    ensures Run(s, steps).active <= s.active && ForcedCloseDone(Run(s, steps))
    decreases |steps|
  {
    if steps != [] {
      NextInv(s, steps[0]);
      NoneAdmittedAfter(s, steps[0]);
      NoneAdmittedLater(Next(s, steps[0]), steps[1..]);
    }
  }

  /** The first cause of a cancellation stays: a client that went away is not reported as a shutdown. */
  lemma {:induction false} FirstCauseStays(s: System, steps: seq<Step>, id: int)
    requires id in s.causes
    ensures id in Run(s, steps).causes && Run(s, steps).causes[id] == s.causes[id]
    decreases |steps|
  {
    if steps != [] {
      assert id in Next(s, steps[0]).causes && Next(s, steps[0]).causes[id] == s.causes[id];
      FirstCauseStays(Next(s, steps[0]), steps[1..], id);
    }
  }

  /** A waiter that is blocked on an open channel waits for what is active now: no wakeup is lost. */
  lemma NoLostWakeup(instrumented: nat, passthrough: nat, steps: seq<Step>, id: int)
    requires var s := Run(NewSystem(instrumented, passthrough), steps);
             && id in s.threads && s.threads[id].Waiter? && s.threads[id].waiter.Blocked?
             && s.threads[id].waiter.channel !in s.closes
    ensures var s := Run(NewSystem(instrumented, passthrough), steps);
            s.active != {} && s.threads[id].waiter.channel == s.idle
  {
    NewSystemInv(instrumented, passthrough);
    RunInv(NewSystem(instrumented, passthrough), steps);
    var s := Run(NewSystem(instrumented, passthrough), steps);
    assert KnowsChannel(s, s.threads[id]);
  }

  /** No channel is closed twice, and the current one is open exactly while a request is active. */
  lemma ChannelsCloseOnce(instrumented: nat, passthrough: nat, steps: seq<Step>)
    ensures var s := Run(NewSystem(instrumented, passthrough), steps);
            && (forall i, j :: 0 <= i < j < |s.closes| ==> s.closes[i] != s.closes[j])
            && (s.active != {} <==> s.idle > 0 && s.idle !in s.closes)
  {
    NewSystemInv(instrumented, passthrough);
    RunInv(NewSystem(instrumented, passthrough), steps);
  }

  /** Each class stays within its capacity, and giving a slot back never blocks. */
  lemma SlotsBounded(instrumented: nat, passthrough: nat, steps: seq<Step>, id: int)
    ensures var s := Run(NewSystem(instrumented, passthrough), steps);
            && |SlotHolders(s, Instrumented)| <= instrumented && |SlotHolders(s, Passthrough)| <= passthrough
            && (id in s.threads && s.threads[id].Request? && s.threads[id].request.Unlocked? ==>
                  SlotsUsed(s, s.threads[id].class_) > 0)
  {
    NewSystemInv(instrumented, passthrough);
    RunInv(NewSystem(instrumented, passthrough), steps);
    CapacityStays(NewSystem(instrumented, passthrough), steps);
    var s := Run(NewSystem(instrumented, passthrough), steps);
    assert |SlotHolders(s, Instrumented)| == SlotsUsed(s, Instrumented) <= Capacity(s, Instrumented);
    assert |SlotHolders(s, Passthrough)| == SlotsUsed(s, Passthrough) <= Capacity(s, Passthrough);
    if id in s.threads && s.threads[id].Request? && s.threads[id].request.Unlocked? {
      assert id in SlotHolders(s, s.threads[id].class_);
    }
  }

  lemma {:induction false} CapacityStays(s: System, steps: seq<Step>)
    ensures Run(s, steps).capacity == s.capacity
    decreases |steps|
  {
    if steps != [] {
      CapacityKept(s, steps[0]);
      CapacityStays(Next(s, steps[0]), steps[1..]);
    }
  }

  lemma CapacityKept(s: System, step: Step)
    ensures Next(s, step).capacity == s.capacity
  {
    if step.Advance? && step.id in s.threads {
      var (u, e) := Move(s, step.id, s.threads[step.id], step.next);
      MovedKeeps(s, step.id, u, e);
    }
  }

  /** What a waiter found: nothing was active when BeginDrain had already set its flag. */
  ghost predicate DrainedIdle(s: System) {
    s.draining && s.active == {} && forall id :: id in s.threads ==> !PassedDrain(s.threads[id])
  }

  lemma NilMeansDrained(instrumented: nat, passthrough: nat, steps: seq<Step>, id: int)
    requires var s := Run(NewSystem(instrumented, passthrough), steps);
             id in s.threads && s.threads[id] == Waiter(ReturnedNil(true))
    ensures DrainedIdle(Run(NewSystem(instrumented, passthrough), steps))
  {
    NewSystemInv(instrumented, passthrough);
    RunInv(NewSystem(instrumented, passthrough), steps);
    assert FoundDrained(Run(NewSystem(instrumented, passthrough), steps).threads[id]);
  }

  /** After BeginDrain, a nil result of WaitIdle means that nothing is active, for ever. */
  lemma {:induction false} DrainedForEver(s: System, steps: seq<Step>)
    requires DrainedIdle(s)
    ensures DrainedIdle(Run(s, steps))
    decreases |steps|
  {
    if steps != [] {
      DrainedStep(s, steps[0]);
      DrainedForEver(Next(s, steps[0]), steps[1..]);
    }
  }

  lemma DrainedMoved(s: System, id: int, t: Thread, u: Thread, e: Effect)
    requires DrainedIdle(s) && IsThread(s, id, t) && Legal(s, id, t, u, e)
    ensures DrainedIdle(Moved(s, id, u, e))
  {
  }

  lemma DrainedStep(s: System, step: Step)
    requires DrainedIdle(s)
    ensures DrainedIdle(Next(s, step))
  {
    match step
    case Spawn(id, t) =>
    case Advance(id, next) =>
      if id in s.threads {
        var (u, e) := Move(s, id, s.threads[id], next);
        MoveLegal(s, id, s.threads[id], next);
        DrainedMoved(s, id, s.threads[id], u, e);
      }
    case ClientCancel(id) =>
    case Timeout(id) =>
  }

  /** A waiter that starts looking once BeginDrain has returned reports what it finds as drained. */
  lemma WaiterAfterDrain(s: System, id: int, drainer: int, next: int)
    requires Inv(s) && drainer in s.threads && s.threads[drainer] == Drainer(AfterDrain)
    requires id in s.threads && s.threads[id] == Waiter(Holding)
    ensures Next(s, Advance(id, next)).threads[id] == Waiter(if s.active == {} then SawNone(true) else SawIdle(s.idle))
  {
    assert HasStored(s.threads[drainer]);
  }
}
