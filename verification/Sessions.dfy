/**
 * The session registry of internal/proxy/session.go: ref-counted sessions looked up by id, idle
 * timers whose callbacks may run late, eviction of the least recently used, and close-all.
 *
 * A session carries a serial number, which stands for the identity of its object and of its
 * span; `ended` lists the spans ended so far, in order.
 */
module Sessions {
  import opened Bytes

  const MAX_TRACKED_SESSIONS := 1024
  const MAX_SESSION_MODELS := 32
  const DEFAULT_IDLE_TIMEOUT := 300

  datatype Reason = Idle | Evicted | Shutdown

  datatype Session = Session(
    serial: nat, refs: int, requests: nat, last: int, models: seq<Bytes>, userAgent: Bytes, timer: bool)

  /** A span that has ended, with what it says about its session. */
  datatype Ended = Ended(serial: nat, reason: Reason, at: int, requests: nat, models: seq<Bytes>, userAgent: Bytes)

  datatype Registry = Registry(
    idle: int, sessions: map<Bytes, Session>, closed: bool, started: nat, ended: seq<Ended>)

  function NewRegistry(idle: int): Registry {
    Registry(if idle <= 0 then DEFAULT_IDLE_TIMEOUT else idle, map[], false, 0, [])
  }

  function ModelObserved(models: seq<Bytes>, model: Bytes): seq<Bytes> {
    if model == "" || |models| >= MAX_SESSION_MODELS || model in models then models else models + [model]
  }

  function Later(a: int, b: int): int {
    if b > a then b else a
  }

  // ---------- The operations ----------

  function Finished(r: Registry, id: Bytes, reason: Reason): Registry
    requires id in r.sessions
  {
    var s := r.sessions[id];
    r.(sessions := r.sessions - {id},
       ended := r.ended + [Ended(s.serial, reason, s.last, s.requests, s.models, s.userAgent)])
  }

  predicate IsIdle(r: Registry, id: Bytes) {
    id in r.sessions && r.sessions[id].refs <= 0
  }

  /** An idle session that none was used before. */
  ghost predicate IsOldest(r: Registry, id: Bytes) {
    IsIdle(r, id) && forall other :: IsIdle(r, other) ==> r.sessions[id].last <= r.sessions[other].last
  }

  /** Sessions finished one after the other. */
  function AllFinished(r: Registry, ids: seq<Bytes>, reason: Reason): Registry
    decreases |ids|
  {
    if ids == [] || ids[0] !in r.sessions then r else AllFinished(Finished(r, ids[0], reason), ids[1..], reason)
  }

  predicate AllLive(r: Registry, ids: seq<Bytes>, reason: Reason)
    decreases |ids|
  {
    ids == [] || (ids[0] in r.sessions && AllLive(Finished(r, ids[0], reason), ids[1..], reason))
  }

  /** Each is the oldest idle session of a full table at its turn. */
  ghost predicate Evicting(r: Registry, victims: seq<Bytes>)
    decreases |victims|
  {
    victims == []
    || (|r.sessions| >= MAX_TRACKED_SESSIONS && IsOldest(r, victims[0])
        && Evicting(Finished(r, victims[0], Evicted), victims[1..]))
  }

  ghost predicate NoneIdle(r: Registry) {
    forall id :: !IsIdle(r, id)
  }

  ghost predicate HasRoom(r: Registry) {
    |r.sessions| < MAX_TRACKED_SESSIONS || NoneIdle(r)
  }

  /** The victims of evictLocked, in order; ties may fall either way. */
  ghost predicate IsEviction(r: Registry, victims: seq<Bytes>) {
    Evicting(r, victims) && HasRoom(AllFinished(r, victims, Evicted))
  }

  function SessionFor(r: Registry, id: Bytes, start: int): Session {
    if id in r.sessions then r.sessions[id] else Session(r.started, 0, 0, start, [], "", false)
  }

  function Used(s: Session, start: int, model: Bytes, userAgent: Bytes): Session {
    s.(refs := s.refs + 1, requests := s.requests + 1, last := Later(s.last, start),
       models := ModelObserved(s.models, model),
       userAgent := if s.userAgent == "" then userAgent else s.userAgent, timer := false)
  }

  /** The rest of acquire, once room has been made for a new session. */
  function Taken(r: Registry, id: Bytes, start: int, model: Bytes, userAgent: Bytes): Registry {
    r.(sessions := r.sessions[id := Used(SessionFor(r, id, start), start, model, userAgent)],
       started := if id in r.sessions then r.started else r.started + 1)
  }

  ghost function Acquired(r: Registry, id: Bytes, start: int, model: Bytes, userAgent: Bytes,
          victims: seq<Bytes>): Registry {
    if r.closed then r
    else if id in r.sessions then Taken(r, id, start, model, userAgent)
    else Taken(AllFinished(r, victims, Evicted), id, start, model, userAgent)
  }

  /** Whether the victims are those that acquire may evict. */
  ghost predicate MayEvict(r: Registry, id: Bytes, victims: seq<Bytes>) {
    if r.closed || id in r.sessions then victims == [] else IsEviction(r, victims)
  }

  function Released(r: Registry, id: Bytes, at: int): Registry {
    if id !in r.sessions then r
    else
      var s := r.sessions[id];
      var t := s.(refs := s.refs - 1, last := Later(s.last, at));
      r.(sessions := r.sessions[id := if t.refs > 0 || r.closed then t else t.(timer := true)])
  }

  function Expired(r: Registry, id: Bytes, now: int): Registry {
    if id !in r.sessions || r.sessions[id].refs > 0 then r
    else if r.idle - (now - r.sessions[id].last) > 0 then
      r.(sessions := r.sessions[id := r.sessions[id].(timer := true)])
    else Finished(r, id, Idle)
  }

  /** An order in which closeAll may range over the live sessions. */
  predicate IsOrder(r: Registry, order: seq<Bytes>) {
    AllLive(r, order, Shutdown) && AllFinished(r, order, Shutdown).sessions == map[]
  }

  function ClosedAll(r: Registry, order: seq<Bytes>): Registry {
    AllFinished(r.(closed := true), order, Shutdown)
  }

  // ---------- The registry, updated in place ----------

  class SessionRegistry {
    const idle: int
    var sessions: map<Bytes, Session>
    var closed: bool
    var started: nat
    var ended: seq<Ended>

    ghost function Value(): Registry
      reads this
    {
      Registry(idle, sessions, closed, started, ended)
    }

    constructor (idle: int)
      ensures Value() == NewRegistry(idle)
    {
      this.idle := if idle <= 0 then DEFAULT_IDLE_TIMEOUT else idle;
      sessions, closed, started, ended := map[], false, 0, [];
    }

    /** `serial` is the session whose span is the parent of the request, if the registry is open. */
    method Acquire(id: Bytes, start: int, model: Bytes, userAgent: Bytes)
      returns (serial: Option<nat>, ghost victims: seq<Bytes>)
      modifies this
      ensures MayEvict(old(Value()), id, victims)
      ensures Value() == Acquired(old(Value()), id, start, model, userAgent, victims)
      ensures serial == if old(closed) then None else Some(Value().sessions[id].serial)
    {
      victims := [];
      if closed {
        return None, [];
      }
      if id !in sessions {
        victims := EvictLocked();
        EvictionKeepsOut(old(Value()), victims, id);
      }
      var taken := Take(id, start, model, userAgent);
      return Some(taken), victims;
    }

    /** The rest of acquire: the session is found or created, and used. */
    method Take(id: Bytes, start: int, model: Bytes, userAgent: Bytes) returns (serial: nat)
      modifies this`sessions, this`started
      ensures Value() == Taken(old(Value()), id, start, model, userAgent)
      ensures serial == Value().sessions[id].serial
    {
      var session: Session;
      if id in sessions {
        session := sessions[id];
      } else {
        session := Session(started, 0, 0, start, [], "", false);
        started := started + 1;
      }
      session := session.(refs := session.refs + 1, requests := session.requests + 1);
      if start > session.last {
        session := session.(last := start);
      }
      session := session.(models := ModelObserved(session.models, model));
      if session.userAgent == "" {
        session := session.(userAgent := userAgent);
      }
      if session.timer {
        session := session.(timer := false);
      }
      sessions := sessions[id := session];
      return session.serial;
    }

    method Release(id: Bytes, at: int)
      modifies this`sessions
      ensures Value() == Released(old(Value()), id, at)
    {
      if id !in sessions {
        return;
      }
      var session := sessions[id].(refs := sessions[id].refs - 1);
      if at > session.last {
        session := session.(last := at);
      }
      sessions := sessions[id := session];
      if session.refs > 0 || closed {
        return;
      }
      ArmLocked(id);
    }

    method ArmLocked(id: Bytes)
      requires id in sessions
      modifies this`sessions
      ensures sessions == old(sessions)[id := old(sessions)[id].(timer := true)]
    {
      sessions := sessions[id := sessions[id].(timer := true)];
    }

    method Expire(id: Bytes, now: int)
      modifies this`sessions, this`ended
      ensures Value() == Expired(old(Value()), id, now)
    {
      if id !in sessions || sessions[id].refs > 0 {
        return;
      }
      var remaining := idle - (now - sessions[id].last);
      if remaining > 0 {
        ArmLocked(id);
        return;
      }
      FinishLocked(id, Idle);
    }

    method EvictLocked() returns (ghost victims: seq<Bytes>)
      modifies this`sessions, this`ended
      ensures IsEviction(old(Value()), victims)
      ensures Value() == AllFinished(old(Value()), victims, Evicted)
    {
      victims := [];
      while |sessions| >= MAX_TRACKED_SESSIONS
        invariant closed == old(closed) && started == old(started)
        invariant Evicting(old(Value()), victims)
        invariant AllFinished(old(Value()), victims, Evicted) == Value()
        decreases |sessions|
      {
        var oldest := OldestIdle();
        if oldest.None? {
          return;
        }
        EvictingAppend(old(Value()), victims, oldest.value);
        victims := victims + [oldest.value];
        FinishLocked(oldest.value, Evicted);
      }
    }

    /** The loop over the sessions that looks for the one to evict. */
    method OldestIdle() returns (oldest: Option<Bytes>)
      ensures oldest.None? ==> NoneIdle(Value())
      ensures oldest.Some? ==> IsOldest(Value(), oldest.value)
    {
      oldest := None;
      var rest := sessions.Keys;
      while rest != {}
        invariant rest <= sessions.Keys
        invariant oldest.None? ==> forall id :: id in sessions.Keys - rest ==> !IsIdle(Value(), id)
        invariant oldest.Some? ==>
                    && IsIdle(Value(), oldest.value)
                    && forall id :: id in sessions.Keys - rest && IsIdle(Value(), id)
                         ==> sessions[oldest.value].last <= sessions[id].last
        decreases |rest|
      {
        var id :| id in rest;
        rest := rest - {id};
        if sessions[id].refs > 0 {
          continue;
        }
        if oldest.None? || sessions[id].last < sessions[oldest.value].last {
          oldest := Some(id);
        }
      }
    }

    method FinishLocked(id: Bytes, reason: Reason)
      requires id in sessions
      modifies this`sessions, this`ended
      ensures Value() == Finished(old(Value()), id, reason)
    {
      var session := sessions[id];
      sessions := sessions - {id};
      ended := ended + [Ended(session.serial, reason, session.last, session.requests, session.models,
        session.userAgent)];
    }

    method CloseAll() returns (ghost order: seq<Bytes>)
      modifies this
      ensures IsOrder(old(Value()).(closed := true), order)
      ensures Value() == ClosedAll(old(Value()), order)
    {
      closed := true;
      order := [];
      ghost var first := Value();
      while sessions != map[]
        invariant closed && started == old(started)
        invariant AllLive(first, order, Shutdown)
        invariant AllFinished(first, order, Shutdown) == Value()
        decreases |sessions|
      {
        var id :| id in sessions;
        FinishedAppend(first, order, id, Shutdown);
        order := order + [id];
        FinishLocked(id, Shutdown);
      }
    }
  }

  // ---------- Loops as recursion ----------

  lemma {:induction false} FinishedAppend(r: Registry, ids: seq<Bytes>, id: Bytes, reason: Reason)
    requires AllLive(r, ids, reason) && id in AllFinished(r, ids, reason).sessions
    ensures AllLive(r, ids + [id], reason)
    ensures AllFinished(r, ids + [id], reason) == Finished(AllFinished(r, ids, reason), id, reason)
    decreases |ids|
  {
    if ids == [] {
      assert ids + [id] == [id] && [id][1..] == [];
    } else {
      assert (ids + [id])[0] == ids[0] && (ids + [id])[1..] == ids[1..] + [id];
      FinishedAppend(Finished(r, ids[0], reason), ids[1..], id, reason);
    }
  }

  lemma {:induction false} EvictingAppend(r: Registry, victims: seq<Bytes>, id: Bytes)
    requires Evicting(r, victims)
    requires var s := AllFinished(r, victims, Evicted); |s.sessions| >= MAX_TRACKED_SESSIONS && IsOldest(s, id)
    ensures Evicting(r, victims + [id])
    ensures AllFinished(r, victims + [id], Evicted) == Finished(AllFinished(r, victims, Evicted), id, Evicted)
    decreases |victims|
  {
    if victims == [] {
      assert victims + [id] == [id] && [id][1..] == [];
    } else {
      assert (victims + [id])[0] == victims[0] && (victims + [id])[1..] == victims[1..] + [id];
      EvictingAppend(Finished(r, victims[0], Evicted), victims[1..], id);
    }
  }

  lemma {:induction false} EvictionKeepsOut(r: Registry, victims: seq<Bytes>, id: Bytes)
    requires id !in r.sessions
    ensures id !in AllFinished(r, victims, Evicted).sessions
    decreases |victims|
  {
    if victims != [] && victims[0] in r.sessions {
      EvictionKeepsOut(Finished(r, victims[0], Evicted), victims[1..], id);
    }
  }
}
