/**
 * The life of the process: requests that are admitted, hold a session while they are served and
 * give it back before their slot, and shutdownServer of cmd/llamaproxy/main.go, which drives
 * the drain, the forced close, the end of the sessions and the flush.
 */
module Lifecycle {
  import opened Bytes
  import A = Admission
  import S = Sessions
  import R = SessionRuns

  /** Where shutdownServer is. */
  datatype Phase =
    | NotStarted
    | Draining          // in BeginDrain
    | ShuttingDown      // in srv.Shutdown
    | Waiting           // in WaitIdle, while the drain may take its time
    | Forcing           // in BeginForcedClose
    | Unwinding         // in the second WaitIdle
    | ClosingSessions
    | Flushing
    | Flushed

  /** The threads stand for its calls; failed says that the drain did not finish. */
  datatype Driver = Driver(phase: Phase, drainer: int, waiter: int, closer: Option<int>, failed: bool)

  datatype Proxy = Proxy(system: A.System, world: R.World, driver: Driver)

  datatype Step =
    | Arrive(id: int, class_: A.Class)
    | Advance(id: int, next: int)
    | ClientCancel(id: int)
    | Timeout(id: int)
    | Session(step: R.Step)
    | Drive(id: int, shutdownOK: bool, order: seq<Bytes>)

  function NewProxy(instrumented: nat, passthrough: nat, idle: int): Proxy {
    Proxy(A.NewSystem(instrumented, passthrough), R.NewWorld(idle), Driver(NotStarted, 0, 0, None, false))
  }

  predicate IsServing(s: A.System, id: int) {
    id in s.threads && s.threads[id] == A.Request(A.Instrumented, A.Serving)
  }

  /** ServeHTTP acquires a session while it serves, and releases it before it releases its slot. */
  ghost predicate SessionStepOK(p: Proxy, step: R.Step) {
    match step
    case Acquire(request, _, _, _, _, _) => IsServing(p.system, request) && R.Enabled(p.world, step)
    case Release(_, _) => R.Enabled(p.world, step)
    case Expire(_, _) => true
    case CloseAll(_) => false
  }

  /** The release closure of admitRequest runs last. */
  predicate MayAdvance(p: Proxy, id: int) {
    !(id in p.world.holders && IsServing(p.system, id))
  }

  function Spawned(s: A.System, id: int, t: A.Thread): A.System {
    A.Next(s, A.Spawn(id, t))
  }

  predicate WaiterDone(s: A.System, id: int) {
    && id in s.threads && s.threads[id].Waiter?
    && (s.threads[id].waiter.ReturnedNil? || s.threads[id].waiter.ReturnedError?)
  }

  predicate FoundIdle(s: A.System, id: int) {
    id in s.threads && s.threads[id].Waiter? && s.threads[id].waiter.ReturnedNil?
  }

  /** The drain did not finish: the connections that remain are closed. */
  function Force(p: Proxy, id: int): Proxy {
    p.(system := Spawned(p.system, id, A.Closer(A.Beginning)),
      driver := p.driver.(phase := Forcing, closer := Some(id), failed := true))
  }

  /** One step of shutdownServer; `id` names the thread of the call it makes, if it makes one. */
  ghost function DriverStep(p: Proxy, id: int, shutdownOK: bool, order: seq<Bytes>): Proxy
    requires id !in p.system.threads
  {
    var s, d := p.system, p.driver;
    match d.phase
    case NotStarted =>
      p.(system := Spawned(s, id, A.Drainer(A.BeforeDrain)), driver := d.(phase := Draining, drainer := id))
    case Draining =>
      if d.drainer in s.threads && s.threads[d.drainer] == A.Drainer(A.AfterDrain) 
      then p.(driver := d.(phase := ShuttingDown))
      else p
    case ShuttingDown =>
      if shutdownOK then p.(system := Spawned(s, id, A.Waiter(A.Looking)), driver := d.(phase := Waiting, waiter := id))
      else Force(p, id)
    case Waiting =>
      if FoundIdle(s, d.waiter) then p.(driver := d.(phase := ClosingSessions))
      else if WaiterDone(s, d.waiter) then Force(p, id)
      else p
    case Forcing =>
      if d.closer.Some? && d.closer.value in s.threads && s.threads[d.closer.value] == A.Closer(A.Returned(true))
      then p.(system := Spawned(s, id, A.Waiter(A.Looking)), driver := d.(phase := Unwinding, waiter := id))
      else p
    case Unwinding => if WaiterDone(s, d.waiter) then p.(driver := d.(phase := ClosingSessions)) else p
    case ClosingSessions =>
      if R.Enabled(p.world, R.CloseAll(order))
      then p.(world := R.Next(p.world, R.CloseAll(order)), driver := d.(phase := Flushing)) else p
    case Flushing => p.(driver := d.(phase := Flushed))
    case Flushed => p
  }

  /** A step that is not possible changes nothing. */
  ghost function Next(p: Proxy, step: Step): Proxy {
    match step
    case Arrive(id, c) => p.(system := Spawned(p.system, id, A.Request(c, A.Arrived)))
    case Advance(id, next) => if MayAdvance(p, id) then p.(system := A.Next(p.system, A.Advance(id, next))) else p
    case ClientCancel(id) => p.(system := A.Next(p.system, A.ClientCancel(id)))
    case Timeout(id) => p.(system := A.Next(p.system, A.Timeout(id)))
    case Session(step) => if SessionStepOK(p, step) then p.(world := R.Next(p.world, step)) else p
    case Drive(id, shutdownOK, order) => if id in p.system.threads then p else DriverStep(p, id, shutdownOK, order)
  }

  ghost function Run(p: Proxy, steps: seq<Step>): Proxy
    decreases |steps|
  {
    if steps == [] then p else Run(Next(p, steps[0]), steps[1..])
  }

  // ---------- The invariant ----------

  function TableLimit(p: Proxy): nat {
    var c := A.Capacity(p.system, A.Instrumented);
    if c > S.MAX_TRACKED_SESSIONS then c else S.MAX_TRACKED_SESSIONS
  }

  ghost predicate HoldersServe(p: Proxy) {
    forall q :: q in p.world.holders ==> IsServing(p.system, q)
  }

  ghost predicate Inv(p: Proxy) {
    A.Inv(p.system) && R.Inv(p.world) && HoldersServe(p) && |p.world.registry.sessions| <= TableLimit(p)
  }

  // ---------- The session table ----------

  /** When every live session is in use, there are at most as many as there are holders. */
  lemma BusySessions(w: R.World, ids: set<Bytes>)
    requires R.Inv(w) && !w.registry.closed && ids <= w.registry.sessions.Keys
    requires forall id :: id in ids ==> w.registry.sessions[id].refs > 0
    ensures |ids| <= R.TotalRefs(w.registry, ids)
    decreases ids
  {
    if ids != {} {
      var id :| id in ids && R.TotalRefs(w.registry, ids)
        == w.registry.sessions[id].refs + R.TotalRefs(w.registry, ids - {id});
      BusySessions(w, ids - {id});
    }
  }

  /** A full table that nothing can be evicted from has no more sessions than there are holders. */
  lemma AllBusy(w: R.World)
    requires R.Inv(w) && !w.registry.closed && S.NoneIdle(w.registry)
    ensures |w.registry.sessions| <= |w.holders|
  {
    var ids := w.registry.sessions.Keys;
    forall id | id in ids ensures w.registry.sessions[id].refs > 0 {
      assert !S.IsIdle(w.registry, id);
    }
    BusySessions(w, ids);
    R.RefsAreOutstanding(w);
    assert |ids| == |w.registry.sessions|;
  }

  /** The holders all have a slot; so does the request that holds no session yet. */
  lemma HoldersInside(p: Proxy, request: int)
    requires Inv(p) && IsServing(p.system, request) && request !in p.world.holders
    ensures |p.world.holders| < A.Capacity(p.system, A.Instrumented)
  {
    var inside, holders := A.SlotHolders(p.system, A.Instrumented), p.world.holders.Keys;
    forall q | q in holders + {request} ensures q in inside {
      assert IsServing(p.system, q);
    }
    SmallerSet(holders + {request}, inside);
    assert |inside| <= A.Capacity(p.system, A.Instrumented);
    assert |holders + {request}| == |holders| + 1;
    assert |holders| == |p.world.holders|;
  }

  /** There is room for the session of a request that holds a slot. */
  lemma RoomForSession(p: Proxy, w: R.World, request: int)
    requires Inv(p) && IsServing(p.system, request) && request !in p.world.holders
    requires R.Inv(w) && !w.registry.closed && w.holders == p.world.holders && S.HasRoom(w.registry)
    ensures |w.registry.sessions| < TableLimit(p)
  {
    HoldersInside(p, request);
    if |w.registry.sessions| >= S.MAX_TRACKED_SESSIONS {
      AllBusy(w);
    }
  }

  lemma {:induction false} FinishedFewer(r: S.Registry, ids: seq<Bytes>, reason: S.Reason)
    ensures |S.AllFinished(r, ids, reason).sessions| <= |r.sessions|
    decreases |ids|
  {
    if ids != [] && ids[0] in r.sessions {
      FinishedFewer(S.Finished(r, ids[0], reason), ids[1..], reason);
    }
  }

  lemma SessionStepTable(p: Proxy, step: R.Step)
    requires Inv(p) && SessionStepOK(p, step)
    ensures |R.Next(p.world, step).registry.sessions| <= TableLimit(p)
  {
    var w := p.world;
    match step
    case Acquire(request, id, start, model, userAgent, victims) =>
      if !w.registry.closed && id !in w.registry.sessions {
        R.EvictedInv(w, victims);
        RoomForSession(p, w.(registry := S.AllFinished(w.registry, victims, S.Evicted)), request);
        TakenCount(S.AllFinished(w.registry, victims, S.Evicted), id, start, model, userAgent);
      } else if !w.registry.closed {
        TakenCount(w.registry, id, start, model, userAgent);
      }
    case Release(_, _) =>
    case Expire(_, _) =>
  }

  lemma TakenCount(r: S.Registry, id: Bytes, start: int, model: Bytes, userAgent: Bytes)
    ensures |S.Taken(r, id, start, model, userAgent).sessions| == |r.sessions| + if id in r.sessions then 0 else 1
  {
  }

  lemma SessionStepInv(p: Proxy, step: R.Step)
    requires Inv(p) && SessionStepOK(p, step)
    ensures Inv(p.(world := R.Next(p.world, step)))
  {
    R.StepInv(p.world, step);
    SessionStepTable(p, step);
  }

  // ---------- Admission steps ----------

  lemma SystemStepInv(p: Proxy, step: A.Step)
    requires Inv(p) && (step.Advance? ==> MayAdvance(p, step.id))
    ensures Inv(p.(system := A.Next(p.system, step)))
  {
    A.NextInv(p.system, step);
    A.CapacityKept(p.system, step);
    forall q | q in p.world.holders ensures IsServing(A.Next(p.system, step), q) {
      StillServing(p.system, step, q);
    }
  }

  lemma StillServing(s: A.System, step: A.Step, q: int)
    requires IsServing(s, q) && !(step.Advance? && step.id == q)
    ensures IsServing(A.Next(s, step), q)
  {
    OthersStay(s, step, q);
  }

  /** A step touches the entry of its own thread only. */
  lemma OthersStay(s: A.System, step: A.Step, q: int)
    requires q in s.threads
    requires step.id == q ==> step.Spawn? || step.ClientCancel? || (step.Timeout? && !s.threads[q].Waiter?)
    ensures q in A.Next(s, step).threads && A.Next(s, step).threads[q] == s.threads[q]
  {
    if step.Advance? && step.id in s.threads {
      var (u, e) := A.Move(s, step.id, s.threads[step.id], step.next);
      A.MovedKeeps(s, step.id, u, e);
    }
  }

  // ---------- The driver ----------

  predicate IsPast(d: Driver, phase: Phase) {
    match phase
    case ShuttingDown => !d.phase.NotStarted? && !d.phase.Draining?
    case ClosingSessions => d.phase.ClosingSessions? || d.phase.Flushing? || d.phase.Flushed?
    case Flushing => d.phase.Flushing? || d.phase.Flushed?
    case _ => true
  }

  /** The one call of BeginForcedClose, if it has been made, is the one that swaps the flag. */
  ghost predicate CloserOK(s: A.System, closer: Option<int>) {
    && (forall id :: id in s.threads && s.threads[id].Closer? ==> closer == Some(id))
    && (s.forcedClose ==> closer.Some?)
    && (closer.Some? ==> closer.value in s.threads && IsWinner(s, s.threads[closer.value]))
  }

  predicate IsWinner(s: A.System, t: A.Thread) {
    t.Closer? && (t.closer.Beginning? <==> !s.forcedClose) && t.closer != A.Returned(false)
  }

  predicate FailedOK(d: Driver) {
    && (d.closer.Some? <==> d.failed)
    && (d.phase.Forcing? || d.phase.Unwinding? ==> d.failed)
    && (d.phase.NotStarted? || d.phase.Draining? || d.phase.ShuttingDown? || d.phase.Waiting? ==> !d.failed)
  }

  /** shutdownServer makes the only call of BeginForcedClose, so that its swap wins. */
  ghost predicate OneCloser(p: Proxy) {
    CloserOK(p.system, p.driver.closer) && FailedOK(p.driver)
  }

  ghost predicate DriverOK(p: Proxy) {
    var s, d := p.system, p.driver;
    && (IsPast(d, ShuttingDown) ==> s.draining)
    && (d.phase.Waiting? ==> d.waiter in s.threads && s.threads[d.waiter].Waiter? && LooksDrained(s.threads[d.waiter]))
    && (d.failed && (d.phase.Unwinding? || IsPast(d, ClosingSessions)) ==> A.ForcedCloseDone(s))
    && (!d.failed && IsPast(d, ClosingSessions) ==> A.DrainedIdle(s))
    && (IsPast(d, Flushing) ==> p.world.registry.closed)
  }

  /** Whatever the waiter finds, it finds it while the proxy drains. */
  predicate LooksDrained(t: A.Thread) {
    t.Waiter? && (t.waiter.SawNone? || t.waiter.ReturnedNil? ==> t.waiter.drained)
  }

  ghost predicate FullInv(p: Proxy) {
    Inv(p) && OneCloser(p) && DriverOK(p)
  }

  lemma NewProxyInv(instrumented: nat, passthrough: nat, idle: int)
    ensures FullInv(NewProxy(instrumented, passthrough, idle))
  {
    A.NewSystemInv(instrumented, passthrough);
    R.NewWorldInv(idle);
  }

  // ---------- Steps of the threads ----------

  /** Steps that the driver does not make. */
  predicate IsThreadStep(p: Proxy, step: A.Step) {
    match step
    case Spawn(_, t) => t.Request?
    case Advance(id, _) => MayAdvance(p, id)
    case _ => true
  }

  lemma CloserStep(s: A.System, id: int, next: int)
    requires id in s.threads && IsWinner(s, s.threads[id])
    ensures var t := A.Next(s, A.Advance(id, next));
            id in t.threads && IsWinner(t, t.threads[id])
  {
    var at := s.threads[id].closer;
    assert A.Move(s, id, s.threads[id], next) == A.CloserMove(s, at, next);
    var (u, e) := A.CloserMove(s, at, next);
    A.MovedKeeps(s, id, u, e);
    assert at.Beginning? ==> e.SwapForced?;
  }

  lemma OtherStep(s: A.System, step: A.Step)
    requires step.Spawn? ==> step.thread.Request?
    requires step.Advance? && step.id in s.threads ==> !s.threads[step.id].Closer?
    ensures A.Next(s, step).forcedClose == s.forcedClose
    ensures step.id in A.Next(s, step).threads && A.Next(s, step).threads[step.id].Closer? ==>
              step.id in s.threads && s.threads[step.id].Closer?
  {
    if step.Advance? && step.id in s.threads {
      var (u, e) := A.Move(s, step.id, s.threads[step.id], step.next);
      A.MoveKind(s, step.id, s.threads[step.id], step.next);
      A.MovedKeeps(s, step.id, u, e);
    }
  }

  lemma DrainingStays(s: A.System, step: A.Step)
    requires s.draining
    ensures A.Next(s, step).draining
  {
    if step.Advance? && step.id in s.threads {
      var (u, e) := A.Move(s, step.id, s.threads[step.id], step.next);
      assert A.Moved(s, step.id, u, e).draining;
    }
  }

  lemma WaiterStaysDrained(s: A.System, step: A.Step, id: int)
    requires s.draining && id in s.threads && LooksDrained(s.threads[id])
    requires step.Spawn? ==> step.thread.Request?
    ensures id in A.Next(s, step).threads && LooksDrained(A.Next(s, step).threads[id])
  {
    if step.id == id && step.Advance? {
      var (u, e) := A.Move(s, id, s.threads[id], step.next);
      A.MovedKeeps(s, id, u, e);
      assert LooksDrained(u);
    } else if step.id != id {
      OthersStay(s, step, id);
    }
  }

  lemma CloserKept(s: A.System, closer: Option<int>, step: A.Step)
    requires CloserOK(s, closer) && (step.Spawn? ==> step.thread.Request?)
    ensures CloserOK(A.Next(s, step), closer)
  {
    var t := A.Next(s, step);
    forall id | id in t.threads && id != step.id ensures id in s.threads && t.threads[id] == s.threads[id] {
      OthersStayBack(s, step, id);
    }
    if step.Advance? && step.id in s.threads && s.threads[step.id].Closer? {
      CloserStep(s, step.id, step.next);
    } else {
      OtherStep(s, step);
      if closer.Some? {
        OthersStay(s, step, closer.value);
      }
    }
  }

  lemma OthersStayBack(s: A.System, step: A.Step, id: int)
    requires id in A.Next(s, step).threads && id != step.id
    ensures id in s.threads && A.Next(s, step).threads[id] == s.threads[id]
  {
    if step.Advance? && step.id in s.threads {
      var (u, e) := A.Move(s, step.id, s.threads[step.id], step.next);
      A.MovedKeeps(s, step.id, u, e);
    }
  }

  lemma DriverKept(p: Proxy, step: A.Step)
    requires FullInv(p) && IsThreadStep(p, step)
    ensures DriverOK(p.(system := A.Next(p.system, step)))
  {
    var s, d := p.system, p.driver;
    if s.draining {
      DrainingStays(s, step);
    }
    if d.phase.Waiting? {
      WaiterStaysDrained(s, step, d.waiter);
    }
    if A.ForcedCloseDone(s) {
      A.NoneAdmittedAfter(s, step);
    }
    if A.DrainedIdle(s) {
      A.DrainedStep(s, step);
    }
  }

  lemma ThreadStepInv(p: Proxy, step: A.Step)
    requires FullInv(p) && IsThreadStep(p, step)
    ensures FullInv(p.(system := A.Next(p.system, step)))
  {
    SystemStepInv(p, step);
    CloserKept(p.system, p.driver.closer, step);
    DriverKept(p, step);
  }

  // ---------- Steps of the driver ----------

  /** A thread that starts changes nothing but the table of threads. */
  lemma SpawnInv(p: Proxy, id: int, t: A.Thread)
    requires Inv(p) && id !in p.system.threads && A.IsFresh(t)
    ensures var q := p.(system := Spawned(p.system, id, t));
            Inv(q) && q.system == p.system.(threads := p.system.threads[id := t])
  {
    SystemStepInv(p, A.Spawn(id, t));
  }

  lemma ForceInv(p: Proxy, id: int)
    requires FullInv(p) && id !in p.system.threads
    requires p.driver.phase.ShuttingDown? || p.driver.phase.Waiting?
    ensures FullInv(Force(p, id))
  {
    SpawnInv(p, id, A.Closer(A.Beginning));
  }

  lemma CloserReturned(s: A.System, id: int)
    requires id in s.threads && s.threads[id] == A.Closer(A.Returned(true))
    ensures A.ForcedCloseDone(s)
  {
  }

  lemma WaitInv(p: Proxy, id: int)
    requires FullInv(p) && id !in p.system.threads && p.driver.phase.ShuttingDown?
    ensures FullInv(p.(system := Spawned(p.system, id, A.Waiter(A.Looking)),
         driver := p.driver.(phase := Waiting, waiter := id)))
  {
    SpawnInv(p, id, A.Waiter(A.Looking));
  }

  lemma UnwindInv(p: Proxy, id: int)
    requires FullInv(p) && id !in p.system.threads && p.driver.phase.Forcing? && A.ForcedCloseDone(p.system)
    ensures FullInv(p.(system := Spawned(p.system, id, A.Waiter(A.Looking)),
         driver := p.driver.(phase := Unwinding, waiter := id)))
  {
    SpawnInv(p, id, A.Waiter(A.Looking));
    A.NoneAdmittedAfter(p.system, A.Spawn(id, A.Waiter(A.Looking)));
  }

  lemma DrainInv(p: Proxy, id: int)
    requires FullInv(p) && id !in p.system.threads && p.driver.phase.NotStarted?
    ensures FullInv(p.(system := Spawned(p.system, id, A.Drainer(A.BeforeDrain)),
                       driver := p.driver.(phase := Draining, drainer := id)))
  {
    SpawnInv(p, id, A.Drainer(A.BeforeDrain));
  }

  /** The waiter has returned nil while the proxy drained: nothing is active any more. */
  lemma IdleFound(p: Proxy)
    requires FullInv(p) && p.driver.phase.Waiting? && FoundIdle(p.system, p.driver.waiter)
    ensures A.DrainedIdle(p.system)
  {
    assert A.FoundDrained(p.system.threads[p.driver.waiter]);
  }

  lemma ClosedInv(p: Proxy, order: seq<Bytes>)
    requires FullInv(p) && p.driver.phase.ClosingSessions? && R.Enabled(p.world, R.CloseAll(order))
    ensures FullInv(p.(world := R.Next(p.world, R.CloseAll(order)), driver := p.driver.(phase := Flushing)))
  {
    R.ClosedInv(p.world, order);
    FinishedFewer(p.world.registry.(closed := true), order, S.Shutdown);
  }

  /** The driver moves on without a call. */
  predicate MovesOn(p: Proxy, phase: Phase) {
    var s, d := p.system, p.driver;
    || (d.phase.Draining? && phase.ShuttingDown? && d.drainer in s.threads
         && s.threads[d.drainer] == A.Drainer(A.AfterDrain))
    || (d.phase.Waiting? && phase.ClosingSessions? && FoundIdle(s, d.waiter))
    || (d.phase.Unwinding? && phase.ClosingSessions?)
    || (d.phase.Flushing? && phase.Flushed?)
  }

  lemma MovesOnInv(p: Proxy, phase: Phase)
    requires FullInv(p) && MovesOn(p, phase)
    ensures FullInv(p.(driver := p.driver.(phase := phase)))
  {
    if p.driver.phase.Draining? {
      assert A.HasStored(p.system.threads[p.driver.drainer]);
    } else if p.driver.phase.Waiting? {
      IdleFound(p);
    }
  }

  lemma WaitingStepInv(p: Proxy, id: int)
    requires FullInv(p) && id !in p.system.threads && p.driver.phase.Waiting?
    ensures FullInv(DriverStep(p, id, true, []))
  {
    if FoundIdle(p.system, p.driver.waiter) {
      MovesOnInv(p, ClosingSessions);
    } else if WaiterDone(p.system, p.driver.waiter) {
      ForceInv(p, id);
    }
  }

  lemma DriverStepInv(p: Proxy, id: int, shutdownOK: bool, order: seq<Bytes>)
    requires FullInv(p) && id !in p.system.threads
    ensures FullInv(DriverStep(p, id, shutdownOK, order))
  {
    if p == DriverStep(p, id, shutdownOK, order) {
      return;
    }
    match p.driver.phase
    case NotStarted => DrainInv(p, id);
    case Draining => MovesOnInv(p, ShuttingDown);
    case ShuttingDown =>
      if shutdownOK {
        WaitInv(p, id);
      } else {
        ForceInv(p, id);
      }
    case Waiting => WaitingStepInv(p, id);
    case Forcing =>
      CloserReturned(p.system, p.driver.closer.value);
      UnwindInv(p, id);
    case Unwinding => MovesOnInv(p, ClosingSessions);
    case ClosingSessions => ClosedInv(p, order);
    case Flushing => MovesOnInv(p, Flushed);
    case Flushed =>
  }

  lemma NextInv(p: Proxy, step: Step)
    requires FullInv(p)
    ensures FullInv(Next(p, step))
  {
    match step
    case Arrive(id, c) => ThreadStepInv(p, A.Spawn(id, A.Request(c, A.Arrived)));
    case Advance(id, next) =>
      if MayAdvance(p, id) {
        ThreadStepInv(p, A.Advance(id, next));
      }
    case ClientCancel(id) => ThreadStepInv(p, A.ClientCancel(id));
    case Timeout(id) => ThreadStepInv(p, A.Timeout(id));
    case Session(step) =>
      if SessionStepOK(p, step) {
        SessionStepInv(p, step);
        SessionsStayClosed(p.world, step);
      }
    case Drive(id, shutdownOK, order) =>
      if id !in p.system.threads {
        DriverStepInv(p, id, shutdownOK, order);
      }
  }

  lemma SessionsStayClosed(w: R.World, step: R.Step)
    requires R.Inv(w) && R.Enabled(w, step)
    ensures w.registry.closed ==> R.Next(w, step).registry == w.registry
  {
    if w.registry.closed {
      R.ClosedStep(w, step);
    }
  }

  lemma {:induction false} RunInv(p: Proxy, steps: seq<Step>)
    requires FullInv(p)
    ensures FullInv(Run(p, steps))
    decreases |steps|
  {
    if steps != [] {
      NextInv(p, steps[0]);
      RunInv(Next(p, steps[0]), steps[1..]);
    }
  }

  // ---------- The theorems ----------

  /**
   * The session table never holds more than 1024 sessions, or than there are instrumented
   * slots if there are more: eviction gives up only when other slot holders use every session.
   */
  lemma SessionTableBounded(instrumented: nat, passthrough: nat, idle: int, steps: seq<Step>)
    ensures var p := Run(NewProxy(instrumented, passthrough, idle), steps);
            |p.world.registry.sessions| <=
            if instrumented > S.MAX_TRACKED_SESSIONS then instrumented else S.MAX_TRACKED_SESSIONS
  {
    var p0 := NewProxy(instrumented, passthrough, idle);
    NewProxyInv(instrumented, passthrough, idle);
    RunInv(p0, steps);
    CapacityStays(p0, steps);
  }

  lemma {:induction false} CapacityStays(p: Proxy, steps: seq<Step>)
    ensures Run(p, steps).system.capacity == p.system.capacity
    decreases |steps|
  {
    if steps != [] {
      CapacityStep(p, steps[0]);
      CapacityStays(Next(p, steps[0]), steps[1..]);
    }
  }

  lemma CapacityStep(p: Proxy, step: Step)
    ensures Next(p, step).system.capacity == p.system.capacity
  {
    match step
    case Arrive(id, c) => A.CapacityKept(p.system, A.Spawn(id, A.Request(c, A.Arrived)));
    case Advance(id, next) => A.CapacityKept(p.system, A.Advance(id, next));
    case ClientCancel(id) => A.CapacityKept(p.system, A.ClientCancel(id));
    case Timeout(id) => A.CapacityKept(p.system, A.Timeout(id));
    case Session(_) =>
    case Drive(id, shutdownOK, order) =>
      if id !in p.system.threads {
        DriverCapacity(p, id, shutdownOK, order);
      }
  }

  lemma DriverCapacity(p: Proxy, id: int, shutdownOK: bool, order: seq<Bytes>)
    requires id !in p.system.threads
    ensures DriverStep(p, id, shutdownOK, order).system.capacity == p.system.capacity
  {
    A.CapacityKept(p.system, A.Spawn(id, A.Drainer(A.BeforeDrain)));
    A.CapacityKept(p.system, A.Spawn(id, A.Waiter(A.Looking)));
    A.CapacityKept(p.system, A.Spawn(id, A.Closer(A.Beginning)));
  }

  /**
   * When the process flushes its spans, the registry is closed for good and every session span
   * ever started has ended exactly once. If the drain finished, nothing is active and nothing
   * will be admitted; if it did not, every request that was admitted and not released has been
   * cancelled, and nothing more will be admitted.
   */
  lemma FlushIsLast(instrumented: nat, passthrough: nat, idle: int, steps: seq<Step>)
    requires IsPast(Run(NewProxy(instrumented, passthrough, idle), steps).driver, Flushing)
    ensures var p := Run(NewProxy(instrumented, passthrough, idle), steps);
            && p.world.registry.closed && p.world.registry.sessions == map[]
            && (forall n :: 0 <= n < p.world.registry.started ==> R.EndedExactlyOnce(p.world.registry, n))
            && if p.driver.failed then
                 A.ForcedCloseDone(p.system) && forall id :: id in p.system.active ==> id in p.system.causes
               else A.DrainedIdle(p.system)
  {
    NewProxyInv(instrumented, passthrough, idle);
    RunInv(NewProxy(instrumented, passthrough, idle), steps);
    var p := Run(NewProxy(instrumented, passthrough, idle), steps);
    forall n | 0 <= n < p.world.registry.started ensures R.EndedExactlyOnce(p.world.registry, n) {
      assert R.IsLive(p.world.registry, n) || R.HasEnded(p.world.registry, n);
    }
    if p.driver.failed {
      var x :| x in p.system.threads && p.system.threads[x] == A.Closer(A.Returned(true));
      assert A.Covers(p.system, p.system.threads[x]);
    }
  }

  lemma SpansFinal(p: Proxy, step: Step)
    requires FullInv(p) && IsPast(p.driver, Flushing)
    ensures Next(p, step).world.registry == p.world.registry && IsPast(Next(p, step).driver, Flushing)
  {
    if step.Session? && SessionStepOK(p, step.step) {
      SessionsStayClosed(p.world, step.step);
    }
  }

  /** Nothing that happens after the sessions were closed starts or ends a session span. */
  lemma {:induction false} SpansAreFinal(p: Proxy, steps: seq<Step>)
    requires FullInv(p) && IsPast(p.driver, Flushing)
    ensures Run(p, steps).world.registry == p.world.registry && IsPast(Run(p, steps).driver, Flushing)
    decreases |steps|
  {
    if steps != [] {
      NextInv(p, steps[0]);
      SpansFinal(p, steps[0]);
      SpansAreFinal(Next(p, steps[0]), steps[1..]);
    }
  }

  // ---------- The calls of shutdownServer ----------

  /** The call that shutdownServer is in has returned; Shutdown and the flush return by themselves. */
  predicate CallReturned(p: Proxy) {
    var s, d := p.system, p.driver;
    match d.phase
    case Draining => d.drainer in s.threads && s.threads[d.drainer] == A.Drainer(A.AfterDrain)
    case Waiting => WaiterDone(s, d.waiter)
    case Forcing =>
      d.closer.Some? && d.closer.value in s.threads && s.threads[d.closer.value] == A.Closer(A.Returned(true))
    case Unwinding => WaiterDone(s, d.waiter)
    case Flushed => false
    case _ => true
  }

  /** The connections that remain are closed if Shutdown failed, or if WaitIdle returned an error. */
  predicate MustForce(p: Proxy, shutdownOK: bool) {
    || (p.driver.phase.ShuttingDown? && !shutdownOK)
    || (p.driver.phase.Waiting? && WaiterDone(p.system, p.driver.waiter) && !FoundIdle(p.system, p.driver.waiter))
  }

  function NextCall(p: Proxy, shutdownOK: bool): Phase {
    if MustForce(p, shutdownOK) then Forcing
    else
      match p.driver.phase
      case NotStarted => Draining
      case Draining => ShuttingDown
      case ShuttingDown => Waiting
      case Forcing => Unwinding
      case ClosingSessions => Flushing
      case Flushing => Flushed
      case _ => ClosingSessions
  }

  /** The thread of the call that a phase is in. */
  function CallOf(phase: Phase): Option<A.Thread> {
    match phase
    case Draining => Some(A.Drainer(A.BeforeDrain))
    case Waiting => Some(A.Waiter(A.Looking))
    case Unwinding => Some(A.Waiter(A.Looking))
    case Forcing => Some(A.Closer(A.Beginning))
    case _ => None
  }

  /** A step of shutdownServer that can be made. */
  ghost predicate MayDrive(p: Proxy, step: Step) {
    && step.Drive? && step.id !in p.system.threads && CallReturned(p)
    && (p.driver.phase.ClosingSessions? ==> R.Enabled(p.world, R.CloseAll(step.order)))
  }

  /**
   * shutdownServer makes its calls in order, each when the one before has returned, and nothing
   * else moves it. It gives up on the drain exactly when Shutdown fails or WaitIdle returns an error.
   */
  lemma CallsInOrder(p: Proxy, step: Step)
    ensures var q := Next(p, step);
            if MayDrive(p, step) then
              var phase := NextCall(p, step.shutdownOK);
              && q.driver.phase == phase && (q.driver.failed <==> p.driver.failed || MustForce(p, step.shutdownOK))
              && q.system == (match CallOf(phase)
                              case Some(call) => Spawned(p.system, step.id, call)
                              case None => p.system)
              && q.world == if phase.Flushing? then R.Next(p.world, R.CloseAll(step.order)) else p.world
            else q.driver == p.driver
  {
  }

  // ---------- Waiting before the end ----------

  /** WaitIdle has returned before the sessions are closed, and with nil unless the close was forced. */
  ghost predicate Waited(p: Proxy) {
    IsPast(p.driver, ClosingSessions) ==>
      WaiterDone(p.system, p.driver.waiter) && (p.driver.failed || FoundIdle(p.system, p.driver.waiter))
  }

  lemma WaiterStays(s: A.System, step: A.Step, id: int)
    requires WaiterDone(s, id)
    ensures WaiterDone(A.Next(s, step), id) && (FoundIdle(A.Next(s, step), id) <==> FoundIdle(s, id))
  {
    if step.id == id && step.Advance? {
      var (u, e) := A.Move(s, id, s.threads[id], step.next);
      A.MovedKeeps(s, id, u, e);
    } else if step.id != id {
      OthersStay(s, step, id);
    }
  }

  lemma WaitedSystem(p: Proxy, step: A.Step)
    requires Waited(p)
    ensures Waited(p.(system := A.Next(p.system, step)))
  {
    if IsPast(p.driver, ClosingSessions) {
      WaiterStays(p.system, step, p.driver.waiter);
    }
  }

  lemma DriveKeepsWaiter(p: Proxy, step: Step)
    requires step.Drive? && IsPast(Next(p, step).driver, ClosingSessions)
    ensures Next(p, step).driver.waiter == p.driver.waiter && Next(p, step).system == p.system
    ensures Next(p, step).driver.failed == p.driver.failed
  {
  }

  /** What brings shutdownServer to the end of the sessions. */
  lemma DriveWaits(p: Proxy, step: Step)
    requires FullInv(p) && MayDrive(p, step) && IsPast(Next(p, step).driver, ClosingSessions)
    ensures || IsPast(p.driver, ClosingSessions)
            || (p.driver.phase.Unwinding? && p.driver.failed && WaiterDone(p.system, p.driver.waiter))
            || (p.driver.phase.Waiting? && FoundIdle(p.system, p.driver.waiter))
  {
    CallsInOrder(p, step);
  }

  lemma WaitedDrive(p: Proxy, step: Step)
    requires FullInv(p) && Waited(p) && step.Drive?
    ensures Waited(Next(p, step))
  {
    if !MayDrive(p, step) {
      DriveKeepsSystem(p, step);
    } else if IsPast(Next(p, step).driver, ClosingSessions) {
      DriveKeepsWaiter(p, step);
      DriveWaits(p, step);
    }
  }

  lemma DriveKeepsSystem(p: Proxy, step: Step)
    requires step.Drive? && !MayDrive(p, step)
    ensures Next(p, step) == p
  {
  }

  lemma WaitedStep(p: Proxy, step: Step)
    requires FullInv(p) && Waited(p)
    ensures Waited(Next(p, step))
  {
    match step
    case Arrive(id, c) => WaitedSystem(p, A.Spawn(id, A.Request(c, A.Arrived)));
    case Advance(id, next) => WaitedSystem(p, A.Advance(id, next));
    case ClientCancel(id) => WaitedSystem(p, A.ClientCancel(id));
    case Timeout(id) => WaitedSystem(p, A.Timeout(id));
    case Session(_) =>
    case Drive(_, _, _) => WaitedDrive(p, step);
  }

  lemma {:induction false} WaitedRun(p: Proxy, steps: seq<Step>)
    requires FullInv(p) && Waited(p)
    ensures Waited(Run(p, steps))
    decreases |steps|
  {
    if steps != [] {
      NextInv(p, steps[0]);
      WaitedStep(p, steps[0]);
      WaitedRun(Next(p, steps[0]), steps[1..]);
    }
  }

  /**
   * Over every run: the sessions are closed only after a call of WaitIdle has returned, nil unless
   * the connections were closed by force, and then by the one call of BeginForcedClose that won.
   */
  lemma SessionsCloseAfterWaiting(instrumented: nat, passthrough: nat, idle: int, steps: seq<Step>)
    requires IsPast(Run(NewProxy(instrumented, passthrough, idle), steps).driver, ClosingSessions)
    ensures var p := Run(NewProxy(instrumented, passthrough, idle), steps);
            && WaiterDone(p.system, p.driver.waiter)
            && if p.driver.failed then p.driver.closer.Some? && A.ForcedCloseDone(p.system)
               else p.driver.closer.None? && FoundIdle(p.system, p.driver.waiter)
  {
    NewProxyInv(instrumented, passthrough, idle);
    RunInv(NewProxy(instrumented, passthrough, idle), steps);
    WaitedRun(NewProxy(instrumented, passthrough, idle), steps);
  }
}
