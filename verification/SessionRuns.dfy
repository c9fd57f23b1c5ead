/**
 * Runs of the session registry: requests acquire and release sessions, expiry callbacks run at
 * any time for any id, and the registry is closed. `uses` remembers when each session was used.
 */
module SessionRuns {
  import opened Bytes
  import opened Sessions

  /** The start of a request, with its model and user agent, or a release, that a session has seen. */
  datatype Use =
    | Start(at: int, model: Bytes, userAgent: Bytes)
    | End(at: int)

  /** What a request that acquired a session keeps: the id it will release and the session it was given. */
  datatype Holder = Holder(id: Bytes, serial: nat)

  datatype World = World(registry: Registry, holders: map<int, Holder>, uses: map<nat, seq<Use>>)

  datatype Step =
    | Acquire(request: int, id: Bytes, start: int, model: Bytes, userAgent: Bytes, victims: seq<Bytes>)
    | Release(request: int, at: int)
    | Expire(id: Bytes, now: int)
    | CloseAll(order: seq<Bytes>)

  ghost predicate Enabled(w: World, step: Step) {
    match step
    case Acquire(request, id, _, _, _, victims) => request !in w.holders && MayEvict(w.registry, id, victims)
    case Release(request, _) => request in w.holders
    case Expire(_, _) => true
    case CloseAll(order) => IsOrder(w.registry.(closed := true), order)
  }

  function UsesOf(uses: map<nat, seq<Use>>, serial: nat): seq<Use> {
    if serial in uses then uses[serial] else []
  }

  function Noted(uses: map<nat, seq<Use>>, serial: nat, use: Use): map<nat, seq<Use>> {
    uses[serial := UsesOf(uses, serial) + [use]]
  }

  function HolderTaken(w: World, r: Registry, request: int, id: Bytes, start: int, model: Bytes,
          userAgent: Bytes): World {
    var q := Taken(r, id, start, model, userAgent);
    var serial := SessionFor(r, id, start).serial;
    World(q, w.holders[request := Holder(id, serial)], Noted(w.uses, serial, Start(start, model, userAgent)))
  }

  ghost function Next(w: World, step: Step): World
    requires Enabled(w, step)
  {
    match step
    case Acquire(request, id, start, model, userAgent, victims) =>
      if w.registry.closed then w
      else HolderTaken(w, AllFinished(w.registry, victims, Evicted), request, id, start, model, userAgent)
    case Release(request, at) =>
      var h := w.holders[request];
      World(Released(w.registry, h.id, at), w.holders - {request},
        if w.registry.closed then w.uses else Noted(w.uses, h.serial, End(at)))
    case Expire(id, now) => w.(registry := Expired(w.registry, id, now))
    case CloseAll(order) => w.(registry := ClosedAll(w.registry, order))
  }

  ghost predicate IsRun(w: World, steps: seq<Step>)
    decreases |steps|
  {
    steps == [] || (Enabled(w, steps[0]) && IsRun(Next(w, steps[0]), steps[1..]))
  }

  ghost function After(w: World, steps: seq<Step>): World
    requires IsRun(w, steps)
    decreases |steps|
  {
    if steps == [] then w else After(Next(w, steps[0]), steps[1..])
  }

  function NewWorld(idle: int): World {
    World(NewRegistry(idle), map[], map[])
  }

  // ---------- The invariant ----------

  function Latest(uses: seq<Use>): int
    requires uses != []
  {
    var n := |uses| - 1;
    if n == 0 then uses[0].at else Later(Latest(uses[..n]), uses[n].at)
  }

  function Starts(uses: seq<Use>): nat {
    if uses == [] then 0 else Starts(uses[..|uses| - 1]) + (if uses[|uses| - 1].Start? then 1 else 0)
  }

  /** The first models that were asked for, each once. */
  function ModelsIn(uses: seq<Use>): seq<Bytes> {
    if uses == [] then []
    else
      var before, use := ModelsIn(uses[..|uses| - 1]), uses[|uses| - 1];
      if use.End? || use.model == "" || use.model in before || |before| == MAX_SESSION_MODELS then before
      else before + [use.model]
  }

  /** The first user agent that was given. */
  function AgentIn(uses: seq<Use>): Bytes {
    if uses == [] then ""
    else
      var before, use := AgentIn(uses[..|uses| - 1]), uses[|uses| - 1];
      if before != "" || use.End? then before else use.userAgent
  }

  ghost function HoldersOf(w: World, serial: nat): set<int> {
    set q | q in w.holders && w.holders[q].serial == serial
  }

  ghost predicate IsLive(r: Registry, serial: nat) {
    exists id :: id in r.sessions && r.sessions[id].serial == serial
  }

  ghost predicate HasEnded(r: Registry, serial: nat) {
    exists i :: 0 <= i < |r.ended| && r.ended[i].serial == serial
  }

  /** A live session's fields say what has happened to it. */
  ghost predicate Tracked(w: World, s: Session) {
    && s.serial in w.uses && w.uses[s.serial] != []
    && s.last == Latest(w.uses[s.serial])
    && s.requests == Starts(w.uses[s.serial])
    && s.models == ModelsIn(w.uses[s.serial]) && |s.models| <= MAX_SESSION_MODELS
    && s.userAgent == AgentIn(w.uses[s.serial])
    && s.refs == |HoldersOf(w, s.serial)|
    && (s.timer <==> s.refs == 0)
  }

  ghost predicate EndedRight(w: World, e: Ended) {
    && e.serial in w.uses && w.uses[e.serial] != []
    && e.at == Latest(w.uses[e.serial])
    && e.requests == Starts(w.uses[e.serial])
    && e.models == ModelsIn(w.uses[e.serial]) && e.userAgent == AgentIn(w.uses[e.serial])
    && !IsLive(w.registry, e.serial)
  }

  /** No two live sessions are one. */
  ghost predicate Apart(r: Registry) {
    forall x, y :: x in r.sessions && y in r.sessions && x != y ==> r.sessions[x].serial != r.sessions[y].serial
  }

  ghost predicate EndedOnce(r: Registry) {
    forall i, j :: 0 <= i < j < |r.ended| ==> r.ended[i].serial != r.ended[j].serial
  }

  ghost predicate AllTracked(w: World) {
    forall id :: id in w.registry.sessions ==> Tracked(w, w.registry.sessions[id])
  }

  ghost predicate AllEndedRight(w: World) {
    forall i :: 0 <= i < |w.registry.ended| ==> EndedRight(w, w.registry.ended[i])
  }

  ghost predicate AllAccounted(r: Registry) {
    forall n :: 0 <= n < r.started ==> IsLive(r, n) || HasEnded(r, n)
  }

  /** The books balance: every session ever started is live or has ended, once. */
  ghost predicate Books(w: World) {
    && AllTracked(w) && Apart(w.registry)
    && AllEndedRight(w) && EndedOnce(w.registry)
    && (forall n :: n in w.uses <==> 0 <= n < w.registry.started)
    && AllAccounted(w.registry)
  }

  /** A release looks its session up by id, and finds the one that was acquired. */
  ghost predicate HoldersFind(w: World) {
    forall q :: q in w.holders ==>
      w.holders[q].id in w.registry.sessions && w.registry.sessions[w.holders[q].id].serial == w.holders[q].serial
  }

  ghost predicate Inv(w: World) {
    && Books(w)
    && (if w.registry.closed then w.registry.sessions == map[] else HoldersFind(w))
    && (forall q :: q in w.holders ==> w.holders[q].serial < w.registry.started)
  }

  // ---------- Ending sessions ----------

  lemma FinishedBooks(w: World, id: Bytes, reason: Reason)
    requires Books(w) && id in w.registry.sessions
    ensures Books(w.(registry := Finished(w.registry, id, reason)))
  {
    var r, q := w.registry, Finished(w.registry, id, reason);
    var v := w.(registry := q);
    var s := r.sessions[id];
    assert q.ended[|r.ended|].serial == s.serial;
    forall x | x in q.sessions ensures Tracked(v, q.sessions[x]) {
      assert Tracked(w, r.sessions[x]);
      assert HoldersOf(v, r.sessions[x].serial) == HoldersOf(w, r.sessions[x].serial);
    }
    forall i | 0 <= i < |q.ended| ensures EndedRight(v, q.ended[i]) {
      if i < |r.ended| {
        assert q.ended[i] == r.ended[i] && EndedRight(w, r.ended[i]);
      } else {
        assert Tracked(w, s);
      }
    }
    forall i, j | 0 <= i < j < |q.ended| ensures q.ended[i].serial != q.ended[j].serial {
      if j == |r.ended| {
        assert EndedRight(w, r.ended[i]);
      }
    }
    forall n | 0 <= n < q.started ensures IsLive(q, n) || HasEnded(q, n) {
      EndedOrLive(r, id, reason, n);
    }
  }

  lemma EndedOrLive(r: Registry, id: Bytes, reason: Reason, n: nat)
    requires id in r.sessions && (IsLive(r, n) || HasEnded(r, n))
    ensures IsLive(Finished(r, id, reason), n) || HasEnded(Finished(r, id, reason), n)
  {
    var q := Finished(r, id, reason);
    if HasEnded(r, n) {
      var i :| 0 <= i < |r.ended| && r.ended[i].serial == n;
      assert q.ended[i].serial == n;
    } else {
      var x :| x in r.sessions && r.sessions[x].serial == n;
      if x == id {
        assert q.ended[|r.ended|].serial == n;
      } else {
        assert x in q.sessions;
      }
    }
  }

  lemma {:induction false} AllFinishedBooks(w: World, ids: seq<Bytes>, reason: Reason)
    requires Books(w)
    ensures Books(w.(registry := AllFinished(w.registry, ids, reason)))
    decreases |ids|
  {
    if ids != [] && ids[0] in w.registry.sessions {
      FinishedBooks(w, ids[0], reason);
      AllFinishedBooks(w.(registry := Finished(w.registry, ids[0], reason)), ids[1..], reason);
    }
  }

  /** Nobody holds an idle session. */
  lemma IdleHasNoHolder(w: World, id: Bytes)
    requires Books(w) && IsIdle(w.registry, id)
    ensures HoldersOf(w, w.registry.sessions[id].serial) == {}
  {
    assert Tracked(w, w.registry.sessions[id]);
  }

  lemma IdleFinishedInv(w: World, id: Bytes, reason: Reason)
    requires Inv(w) && !w.registry.closed && IsIdle(w.registry, id)
    ensures Inv(w.(registry := Finished(w.registry, id, reason)))
  {
    FinishedBooks(w, id, reason);
    IdleHasNoHolder(w, id);
    var v := w.(registry := Finished(w.registry, id, reason));
    var serial := w.registry.sessions[id].serial;
    forall q | q in w.holders ensures w.holders[q].id != id {
      assert q !in HoldersOf(w, serial);
    }
  }

  lemma {:induction false} EvictedInv(w: World, victims: seq<Bytes>)
    requires Inv(w) && !w.registry.closed && Evicting(w.registry, victims)
    ensures Inv(w.(registry := AllFinished(w.registry, victims, Evicted)))
    ensures !AllFinished(w.registry, victims, Evicted).closed
    decreases |victims|
  {
    if victims != [] {
      IdleFinishedInv(w, victims[0], Evicted);
      EvictedInv(w.(registry := Finished(w.registry, victims[0], Evicted)), victims[1..]);
    }
  }

  // ---------- Using sessions ----------

  lemma LatestNoted(uses: seq<Use>, use: Use)
    ensures Latest(uses + [use]) == if uses == [] then use.at else Later(Latest(uses), use.at)
    ensures Starts(uses + [use]) == Starts(uses) + (if use.Start? then 1 else 0)
    ensures use.End? ==> ModelsIn(uses + [use]) == ModelsIn(uses) && AgentIn(uses + [use]) == AgentIn(uses)
    ensures use.Start? && |ModelsIn(uses)| <= MAX_SESSION_MODELS ==>
              && ModelsIn(uses + [use]) == ModelObserved(ModelsIn(uses), use.model)
              && AgentIn(uses + [use]) == if AgentIn(uses) == "" then use.userAgent else AgentIn(uses)
  {
    assert (uses + [use])[..|uses|] == uses;
  }

  /** One session replaced or added, and one more of its uses noted. */
  ghost predicate OneUsed(w: World, v: World, id: Bytes, s: Session, use: Use) {
    && v.registry == w.registry.(sessions := w.registry.sessions[id := s], started := v.registry.started)
    && (if id in w.registry.sessions
        then s.serial == w.registry.sessions[id].serial && v.registry.started == w.registry.started
        else s.serial == w.registry.started && v.registry.started == w.registry.started + 1)
    && v.uses == Noted(w.uses, s.serial, use)
    && forall n :: n != s.serial ==> HoldersOf(v, n) == HoldersOf(w, n)
  }

  lemma UsedBooks(w: World, v: World, id: Bytes, s: Session, use: Use)
    requires Books(w) && OneUsed(w, v, id, s, use) && Tracked(v, s)
    ensures Books(v)
  {
    NotLive(w, id, s.serial);
    OthersTracked(w, v, id, s, use);
    EndedStillRight(w, v, id, s, use);
    StillAccounted(w.registry, v.registry, id, s);
    StillApart(w.registry, v.registry, id, s);
  }

  lemma StillApart(r: Registry, q: Registry, id: Bytes, s: Session)
    requires Apart(r) && q.sessions == r.sessions[id := s]
    requires forall x :: x in r.sessions && x != id ==> r.sessions[x].serial != s.serial
    ensures Apart(q)
  {
  }

  lemma StillAccounted(r: Registry, q: Registry, id: Bytes, s: Session)
    requires AllAccounted(r) && q == r.(sessions := r.sessions[id := s], started := q.started)
    requires if id in r.sessions then s.serial == r.sessions[id].serial && q.started == r.started
             else s.serial == r.started && q.started == r.started + 1
    ensures AllAccounted(q)
  {
    forall n | 0 <= n < q.started ensures IsLive(q, n) || HasEnded(q, n) {
      LiveOrNew(r, q, id, s, n);
    }
  }

  /** The session that is used is no other live one. */
  lemma NotLive(w: World, id: Bytes, serial: nat)
    requires Books(w)
    requires if id in w.registry.sessions then serial == w.registry.sessions[id].serial
         else serial == w.registry.started
    ensures forall x :: x in w.registry.sessions && x != id ==> w.registry.sessions[x].serial != serial
  {
    forall x | x in w.registry.sessions && x != id ensures w.registry.sessions[x].serial != serial {
      assert Tracked(w, w.registry.sessions[x]);
    }
  }

  lemma OthersTracked(w: World, v: World, id: Bytes, s: Session, use: Use)
    requires Books(w) && OneUsed(w, v, id, s, use) && Tracked(v, s)
    ensures AllTracked(v)
  {
    NotLive(w, id, s.serial);
    forall x | x in v.registry.sessions ensures Tracked(v, v.registry.sessions[x]) {
      if x != id {
        assert Tracked(w, w.registry.sessions[x]);
        assert HoldersOf(v, w.registry.sessions[x].serial) == HoldersOf(w, w.registry.sessions[x].serial);
      }
    }
  }

  lemma EndedStillRight(w: World, v: World, id: Bytes, s: Session, use: Use)
    requires Books(w) && OneUsed(w, v, id, s, use)
    ensures AllEndedRight(v)
  {
    forall i | 0 <= i < |v.registry.ended| ensures EndedRight(v, v.registry.ended[i]) {
      var e := w.registry.ended[i];
      assert EndedRight(w, e);
      assert e.serial != s.serial by {
        if id in w.registry.sessions {
          assert IsLive(w.registry, s.serial);
        }
      }
      StillNotLive(w.registry, v.registry, id, s, e.serial);
    }
  }

  lemma StillNotLive(r: Registry, q: Registry, id: Bytes, s: Session, n: nat)
    requires q.sessions == r.sessions[id := s] && !IsLive(r, n) && n != s.serial
    ensures !IsLive(q, n)
  {
  }

  lemma LiveOrNew(r: Registry, q: Registry, id: Bytes, s: Session, n: nat)
    requires q == r.(sessions := r.sessions[id := s], started := q.started)
    requires id in r.sessions ==> s.serial == r.sessions[id].serial
    requires IsLive(r, n) || HasEnded(r, n) || n == s.serial
    ensures IsLive(q, n) || HasEnded(q, n)
  {
    if HasEnded(r, n) {
      var i :| 0 <= i < |r.ended| && r.ended[i].serial == n;
      assert q.ended[i].serial == n;
    } else if n == s.serial {
      assert id in q.sessions && q.sessions[id].serial == n;
    } else {
      var x :| x in r.sessions && r.sessions[x].serial == n;
      assert x in q.sessions && q.sessions[x].serial == n;
    }
  }

  lemma TakenInv(w: World, request: int, id: Bytes, start: int, model: Bytes, userAgent: Bytes)
    requires Inv(w) && !w.registry.closed && request !in w.holders
    ensures Inv(HolderTaken(w, w.registry, request, id, start, model, userAgent))
  {
    var v := HolderTaken(w, w.registry, request, id, start, model, userAgent);
    var s := Used(SessionFor(w.registry, id, start), start, model, userAgent);
    TakenTracked(w, request, id, start, model, userAgent);
    UsedBooks(w, v, id, s, Start(start, model, userAgent));
  }

  lemma TakenTracked(w: World, request: int, id: Bytes, start: int, model: Bytes, userAgent: Bytes)
    requires Inv(w) && !w.registry.closed && request !in w.holders
    ensures var v := HolderTaken(w, w.registry, request, id, start, model, userAgent);
            var s := Used(SessionFor(w.registry, id, start), start, model, userAgent);
            Tracked(v, s) && OneUsed(w, v, id, s, Start(start, model, userAgent))
  {
    var r, v := w.registry, HolderTaken(w, w.registry, request, id, start, model, userAgent);
    var serial := SessionFor(r, id, start).serial;
    LatestNoted(UsesOf(w.uses, serial), Start(start, model, userAgent));
    HolderAdded(w, v, request, Holder(id, serial));
    if id in r.sessions {
      assert Tracked(w, r.sessions[id]);
    } else {
      NoHoldersYet(w);
    }
  }

  lemma HolderAdded(w: World, v: World, request: int, h: Holder)
    requires request !in w.holders && v.holders == w.holders[request := h]
    ensures |HoldersOf(v, h.serial)| == |HoldersOf(w, h.serial)| + 1
    ensures forall n :: n != h.serial ==> HoldersOf(v, n) == HoldersOf(w, n)
  {
    assert HoldersOf(v, h.serial) == HoldersOf(w, h.serial) + {request};
  }

  lemma NoHoldersYet(w: World)
    requires Inv(w)
    ensures HoldersOf(w, w.registry.started) == {} && w.registry.started !in w.uses
  {
    var n := w.registry.started;
    forall q ensures q !in HoldersOf(w, n) {
    }
    assert HoldersOf(w, n) == {};
  }

  lemma ReleasedInv(w: World, request: int, at: int)
    requires Inv(w) && request in w.holders
    ensures Inv(Next(w, Release(request, at)))
  {
    var h, r, v := w.holders[request], w.registry, Next(w, Release(request, at));
    if r.closed {
      assert v == w.(holders := v.holders);
      assert forall i :: 0 <= i < |r.ended| ==> EndedRight(w, r.ended[i]);
    } else {
      var was := r.sessions[h.id];
      assert Tracked(w, was);
      LatestNoted(w.uses[h.serial], End(at));
      assert HoldersOf(w, h.serial) == HoldersOf(v, h.serial) + {request};
      UsedBooks(w, v, h.id, v.registry.sessions[h.id], End(at));
    }
  }

  lemma ExpiredInv(w: World, id: Bytes, now: int)
    requires Inv(w)
    ensures Inv(Next(w, Expire(id, now)))
  {
    var r, v := w.registry, Next(w, Expire(id, now));
    if id in r.sessions && r.sessions[id].refs <= 0 {
      assert Tracked(w, r.sessions[id]);
      if r.idle - (now - r.sessions[id].last) > 0 {
        assert r.sessions[id].(timer := true) == r.sessions[id];
        assert v.registry.sessions == r.sessions;
      } else {
        IdleFinishedInv(w, id, Idle);
      }
    }
  }

  lemma ClosedInv(w: World, order: seq<Bytes>)
    requires Inv(w) && Enabled(w, CloseAll(order))
    ensures Inv(Next(w, CloseAll(order)))
    ensures Next(w, CloseAll(order)).registry.closed
  {
    var r := w.registry.(closed := true);
    ClosedBooks(w);
    AllFinishedBooks(w.(registry := r), order, Shutdown);
    FinishedKeepsClosed(r, order, Shutdown);
  }

  lemma ClosedBooks(w: World)
    requires Books(w)
    ensures Books(w.(registry := w.registry.(closed := true)))
  {
    var v := w.(registry := w.registry.(closed := true));
    forall id | id in v.registry.sessions ensures Tracked(v, v.registry.sessions[id]) {
      assert Tracked(w, w.registry.sessions[id]);
      assert HoldersOf(v, v.registry.sessions[id].serial) == HoldersOf(w, w.registry.sessions[id].serial);
    }
    forall i | 0 <= i < |v.registry.ended| ensures EndedRight(v, v.registry.ended[i]) {
      assert EndedRight(w, w.registry.ended[i]);
    }
    forall n | 0 <= n < v.registry.started ensures IsLive(v.registry, n) || HasEnded(v.registry, n) {
      if HasEnded(w.registry, n) {
        var i :| 0 <= i < |w.registry.ended| && w.registry.ended[i].serial == n;
        assert v.registry.ended[i].serial == n;
      } else {
        var x :| x in w.registry.sessions && w.registry.sessions[x].serial == n;
        assert x in v.registry.sessions;
      }
    }
  }

  lemma {:induction false} FinishedKeepsClosed(r: Registry, ids: seq<Bytes>, reason: Reason)
    ensures AllFinished(r, ids, reason).closed == r.closed
    ensures AllFinished(r, ids, reason).started == r.started
    decreases |ids|
  {
    if ids != [] && ids[0] in r.sessions {
      FinishedKeepsClosed(Finished(r, ids[0], reason), ids[1..], reason);
    }
  }

  /** Every step keeps the invariant, expiry callbacks at any time and for any id included. */
  lemma StepInv(w: World, step: Step)
    requires Inv(w) && Enabled(w, step)
    ensures Inv(Next(w, step))
  {
    match step
    case Acquire(request, id, start, model, userAgent, victims) =>
      if !w.registry.closed {
        if id in w.registry.sessions {
          TakenInv(w, request, id, start, model, userAgent);
        } else {
          EvictedInv(w, victims);
          TakenInv(w.(registry := AllFinished(w.registry, victims, Evicted)), request, id, start, model, userAgent);
        }
      }
    case Release(request, at) => ReleasedInv(w, request, at);
    case Expire(id, now) => ExpiredInv(w, id, now);
    case CloseAll(order) => ClosedInv(w, order);
  }

  lemma {:induction false} RunInv(w: World, steps: seq<Step>)
    requires Inv(w) && IsRun(w, steps)
    ensures Inv(After(w, steps))
    decreases |steps|
  {
    if steps != [] {
      StepInv(w, steps[0]);
      RunInv(Next(w, steps[0]), steps[1..]);
    }
  }

  // ---------- The theorems ----------

  lemma NewWorldInv(idle: int)
    ensures Inv(NewWorld(idle))
  {
  }

  /** What happened last is the maximum of what happened. */
  lemma {:induction false} LatestIsMaximum(uses: seq<Use>)
    requires uses != []
    ensures forall i :: 0 <= i < |uses| ==> uses[i].at <= Latest(uses)
    ensures exists i :: 0 <= i < |uses| && uses[i].at == Latest(uses)
  {
    var n := |uses| - 1;
    if n == 0 {
      assert uses[0].at == Latest(uses);
    } else {
      LatestIsMaximum(uses[..n]);
      var i :| 0 <= i < n && uses[..n][i].at == Latest(uses[..n]);
      assert uses[i].at == Latest(uses[..n]);
      forall k | 0 <= k < |uses| ensures uses[k].at <= Latest(uses) {
        assert k < n ==> uses[..n][k] == uses[k];
      }
      assert uses[n].at == Latest(uses) || uses[i].at == Latest(uses);
    }
  }

  /**
   * Until the registry is closed, a release decrements the very session that its request
   * acquired, although it looks it up by id, and touches no other.
   */
  lemma ReleaseFindsItsSession(idle: int, steps: seq<Step>, request: int, at: int)
    requires IsRun(NewWorld(idle), steps) && request in After(NewWorld(idle), steps).holders
    requires !After(NewWorld(idle), steps).registry.closed
    ensures var w := After(NewWorld(idle), steps);
            var h, v := w.holders[request], Next(w, Release(request, at));
            && h.id in w.registry.sessions && w.registry.sessions[h.id].serial == h.serial
            && v.registry.sessions.Keys == w.registry.sessions.Keys
            && v.registry.sessions[h.id].serial == h.serial
            && v.registry.sessions[h.id].refs == w.registry.sessions[h.id].refs - 1 >= 0
            && forall id :: id in w.registry.sessions && id != h.id
                 ==> v.registry.sessions[id] == w.registry.sessions[id]
  {
    NewWorldInv(idle);
    RunInv(NewWorld(idle), steps);
    var w := After(NewWorld(idle), steps);
    var h := w.holders[request];
    assert Tracked(w, w.registry.sessions[h.id]);
    assert request in HoldersOf(w, h.serial);
  }

  /**
   * Every live session has as many references as holders, a timer exactly when it has none, and the
   * time of its last use.
   */
  lemma LiveSessionsTracked(idle: int, steps: seq<Step>, id: Bytes)
    requires IsRun(NewWorld(idle), steps) && id in After(NewWorld(idle), steps).registry.sessions
    ensures var w := After(NewWorld(idle), steps);
            var s := w.registry.sessions[id];
            && s.refs == |HoldersOf(w, s.serial)| && (s.timer <==> s.refs == 0)
            && s.serial in w.uses && w.uses[s.serial] != []
            && s.last == Latest(w.uses[s.serial]) && s.requests == Starts(w.uses[s.serial])
            && s.models == ModelsIn(w.uses[s.serial]) && s.userAgent == AgentIn(w.uses[s.serial])
  {
    NewWorldInv(idle);
    RunInv(NewWorld(idle), steps);
    assert Tracked(After(NewWorld(idle), steps), After(NewWorld(idle), steps).registry.sessions[id]);
  }

  ghost function TotalRefs(r: Registry, ids: set<Bytes>): int
    requires ids <= r.sessions.Keys
  {
    if ids == {} then 0
    else
      var id :| id in ids;
      r.sessions[id].refs + TotalRefs(r, ids - {id})
  }

  ghost function HoldersIn(w: World, ids: set<Bytes>): set<int> {
    set q | q in w.holders && w.holders[q].id in ids
  }

  lemma {:induction false} RefsCountHolders(w: World, ids: set<Bytes>)
    requires Inv(w) && !w.registry.closed && ids <= w.registry.sessions.Keys
    ensures TotalRefs(w.registry, ids) == |HoldersIn(w, ids)|
    decreases ids
  {
    if ids == {} {
      assert HoldersIn(w, ids) == {};
    } else {
      var id :| id in ids && TotalRefs(w.registry, ids)
        == w.registry.sessions[id].refs + TotalRefs(w.registry, ids - {id});
      RefsCountHolders(w, ids - {id});
      assert Tracked(w, w.registry.sessions[id]);
      HoldersById(w, id);
      HoldersSplit(w, id, ids);
    }
  }

  lemma HoldersSplit(w: World, id: Bytes, ids: set<Bytes>)
    requires id in ids
    ensures |HoldersIn(w, ids)| == |HoldersIn(w, {id})| + |HoldersIn(w, ids - {id})|
  {
    assert HoldersIn(w, ids) == HoldersIn(w, {id}) + HoldersIn(w, ids - {id});
  }

  lemma HoldersById(w: World, id: Bytes)
    requires Inv(w) && !w.registry.closed && id in w.registry.sessions
    ensures HoldersIn(w, {id}) == HoldersOf(w, w.registry.sessions[id].serial)
  {
    forall q ensures q in HoldersIn(w, {id}) <==> q in HoldersOf(w, w.registry.sessions[id].serial) {
      if q in w.holders {
        assert w.holders[q].id in w.registry.sessions;
      }
    }
  }

  /** The references of all sessions together are the releases outstanding. */
  lemma RefsAreOutstanding(w: World)
    requires Inv(w) && !w.registry.closed
    ensures TotalRefs(w.registry, w.registry.sessions.Keys) == |w.holders|
  {
    RefsCountHolders(w, w.registry.sessions.Keys);
    forall q ensures q in HoldersIn(w, w.registry.sessions.Keys) <==> q in w.holders.Keys {
      assert q in w.holders ==> w.holders[q].id in w.registry.sessions;
    }
    assert HoldersIn(w, w.registry.sessions.Keys) == w.holders.Keys;
    assert |w.holders.Keys| == |w.holders|;
  }

  // ---------- Why sessions end ----------

  lemma {:induction false} FinishedAppends(r: Registry, ids: seq<Bytes>, reason: Reason)
    ensures r.ended <= AllFinished(r, ids, reason).ended
    ensures forall i :: |r.ended| <= i < |AllFinished(r, ids, reason).ended| ==>
              AllFinished(r, ids, reason).ended[i].reason == reason
    decreases |ids|
  {
    if ids != [] && ids[0] in r.sessions {
      FinishedAppends(Finished(r, ids[0], reason), ids[1..], reason);
    }
  }

  /**
   * A session ends as idle only when its callback finds that nobody holds it and that it was
   * last used at least the idle time ago, however stale the callback is.
   */
  lemma IdleEndsJustified(w: World, step: Step, i: nat)
    requires Inv(w) && Enabled(w, step)
    requires |w.registry.ended| <= i < |Next(w, step).registry.ended| && Next(w, step).registry.ended[i].reason == Idle
    ensures var e := Next(w, step).registry.ended[i];
            && step.Expire? && HoldersOf(w, e.serial) == {}
            && e.serial in w.uses && w.uses[e.serial] != []
            && step.now - Latest(w.uses[e.serial]) >= w.registry.idle
  {
    match step
    case Acquire(_, id, _, _, _, victims) => FinishedAppends(w.registry, victims, Evicted);
    case Release(_, _) =>
    case Expire(id, now) =>
      IdleHasNoHolder(w, id);
      assert Tracked(w, w.registry.sessions[id]);
    case CloseAll(order) => FinishedAppends(w.registry.(closed := true), order, Shutdown);
  }

  /** The table was full, the victims were idle, and no idle session that was kept is older than one evicted. */
  lemma {:induction false} EvictsLeastRecent(r: Registry, victims: seq<Bytes>, i: nat, kept: Bytes)
    requires Evicting(r, victims) && |r.ended| <= i < |AllFinished(r, victims, Evicted).ended|
    requires IsIdle(AllFinished(r, victims, Evicted), kept)
    ensures |r.sessions| >= MAX_TRACKED_SESSIONS
    ensures AllFinished(r, victims, Evicted).ended[i].at <= AllFinished(r, victims, Evicted).sessions[kept].last
    decreases |victims|
  {
    var q := Finished(r, victims[0], Evicted);
    FinishedAppends(q, victims[1..], Evicted);
    FinishedSubset(q, victims[1..], Evicted, kept);
    if i == |r.ended| {
      assert IsIdle(r, kept);
    } else {
      EvictsLeastRecent(q, victims[1..], i, kept);
    }
  }

  lemma {:induction false} FinishedSubset(r: Registry, ids: seq<Bytes>, reason: Reason, id: Bytes)
    requires id in AllFinished(r, ids, reason).sessions
    ensures id in r.sessions && AllFinished(r, ids, reason).sessions[id] == r.sessions[id]
    decreases |ids|
  {
    if ids != [] && ids[0] in r.sessions {
      FinishedSubset(Finished(r, ids[0], reason), ids[1..], reason, id);
    }
  }

  // ---------- After the registry was closed ----------

  lemma ClosedStep(w: World, step: Step)
    requires Inv(w) && w.registry.closed && Enabled(w, step)
    ensures Next(w, step).registry == w.registry
  {
  }

  /** Closed is for good: nothing starts, ends or changes any more. */
  lemma {:induction false} ClosedForGood(w: World, steps: seq<Step>)
    requires Inv(w) && w.registry.closed && IsRun(w, steps)
    ensures After(w, steps).registry == w.registry
    decreases |steps|
  {
    if steps != [] {
      StepInv(w, steps[0]);
      ClosedStep(w, steps[0]);
      ClosedForGood(Next(w, steps[0]), steps[1..]);
    }
  }

  ghost predicate EndedExactlyOnce(r: Registry, serial: nat) {
    && HasEnded(r, serial)
    && forall i, j :: 0 <= i < |r.ended| && 0 <= j < |r.ended| && r.ended[i].serial == serial == r.ended[j].serial
         ==> i == j
  }

  /**
   * Once close-all has returned, every session span ever started has ended, exactly once, at the
   * time of the last use of its session.
   */
  lemma EverySpanEnds(idle: int, steps: seq<Step>)
    requires IsRun(NewWorld(idle), steps) && After(NewWorld(idle), steps).registry.closed
    ensures var w := After(NewWorld(idle), steps);
            && (forall n :: 0 <= n < w.registry.started ==> EndedExactlyOnce(w.registry, n))
            && (forall i :: 0 <= i < |w.registry.ended| ==>
                  && w.registry.ended[i].serial in w.uses && w.uses[w.registry.ended[i].serial] != []
                  && w.registry.ended[i].at == Latest(w.uses[w.registry.ended[i].serial])
                  && w.registry.ended[i].requests == Starts(w.uses[w.registry.ended[i].serial])
                  && w.registry.ended[i].models == ModelsIn(w.uses[w.registry.ended[i].serial])
                  && w.registry.ended[i].userAgent == AgentIn(w.uses[w.registry.ended[i].serial]))
  {
    NewWorldInv(idle);
    RunInv(NewWorld(idle), steps);
    var w := After(NewWorld(idle), steps);
    forall n | 0 <= n < w.registry.started ensures EndedExactlyOnce(w.registry, n) {
      assert IsLive(w.registry, n) || HasEnded(w.registry, n);
    }
    forall i | 0 <= i < |w.registry.ended| ensures EndedRight(w, w.registry.ended[i]) {
    }
  }
}
