/**
 * When sessions start and end, in both directions: what each step of a run does to every session,
 * read off the holders and the uses so far.
 */
module SessionEnds {
  import opened Bytes
  import opened Sessions
  import opened SessionRuns

  ghost predicate Reaches(w: World, idle: int, steps: seq<Step>) {
    IsRun(NewWorld(idle), steps) && w == After(NewWorld(idle), steps)
  }

  lemma ReachesInv(w: World, idle: int, steps: seq<Step>)
    requires Reaches(w, idle, steps)
    ensures Inv(w)
  {
    NewWorldInv(idle);
    RunInv(NewWorld(idle), steps);
  }

  // ---------- Expiry ----------

  /** The session of the id is live, nobody holds it, and its latest use is at least the idle time ago. */
  ghost predicate IsDue(w: World, id: Bytes, now: int) {
    && id in w.registry.sessions
    && var serial := w.registry.sessions[id].serial;
    && HoldersOf(w, serial) == {}
    && serial in w.uses && w.uses[serial] != [] && now - Latest(w.uses[serial]) >= w.registry.idle
  }

  /** The session ends as idle, at its latest use, with what it has seen. */
  ghost function EndedIdle(w: World, id: Bytes): World
    requires id in w.registry.sessions
  {
    var serial := w.registry.sessions[id].serial;
    var uses := UsesOf(w.uses, serial);
    var at := if uses == [] then 0 else Latest(uses);
    w.(registry := w.registry.(
         sessions := w.registry.sessions - {id},
         ended := w.registry.ended + [Ended(serial, Idle, at, Starts(uses), ModelsIn(uses), AgentIn(uses))]))
  }

  /**
   * Over every run: a callback for an id, at any time, ends the live session of that id if it is due,
   * and otherwise changes nothing at all.
   */
  lemma IdleEndsExactly(w: World, idle: int, steps: seq<Step>, id: Bytes, now: int)
    requires Reaches(w, idle, steps)
    ensures Next(w, Expire(id, now)) == if IsDue(w, id, now) then EndedIdle(w, id) else w
  {
    ReachesInv(w, idle, steps);
    if id in w.registry.sessions {
      assert Tracked(w, w.registry.sessions[id]);
      if !IsDue(w, id, now) {
        NotDueStays(w, id, now);
      }
    }
  }

  lemma NotDueStays(w: World, id: Bytes, now: int)
    requires Inv(w) && id in w.registry.sessions && !IsDue(w, id, now)
    ensures Expired(w.registry, id, now) == w.registry
  {
    var s := w.registry.sessions[id];
    assert Tracked(w, s);
    if s.refs <= 0 {
      assert HoldersOf(w, s.serial) == {};
      assert s.(timer := true) == s;
      assert w.registry.sessions[id := s] == w.registry.sessions;
    }
  }

  // ---------- Acquiring ----------

  /** A request takes a session that it may share: one more use of it, and nothing else changes. */
  ghost predicate IsShared(w: World, v: World, request: int, id: Bytes) {
    && v.registry.sessions.Keys == w.registry.sessions.Keys && id in w.registry.sessions
    && v.registry.ended == w.registry.ended && v.registry.started == w.registry.started
    && v.holders == w.holders[request := Holder(id, w.registry.sessions[id].serial)]
    && forall x :: x in w.registry.sessions && x != id ==> v.registry.sessions[x] == w.registry.sessions[x]
  }

  /** A request gets a session of its own; the victims have ended as evicted, the others are as they were. */
  ghost predicate IsNew(w: World, v: World, request: int, id: Bytes, victims: seq<Bytes>) {
    && v.registry.started == w.registry.started + 1
    && v.holders == w.holders[request := Holder(id, w.registry.started)]
    && id in v.registry.sessions && v.registry.sessions[id].serial == w.registry.started
    && v.registry.sessions.Keys == (w.registry.sessions.Keys - Elements(victims)) + {id}
    && (forall x :: x in v.registry.sessions && x != id ==> v.registry.sessions[x] == w.registry.sessions[x])
    && |v.registry.ended| == |w.registry.ended| + |victims|
  }

  function Elements(ids: seq<Bytes>): set<Bytes> {
    set x | x in ids
  }

  /**
   * Over every run, until the registry is closed: the request shares the live session of its id, or
   * starts a new one; only in a full table does that end others, and no more of them than needed.
   */
  lemma AcquiresExactly(w: World, idle: int, steps: seq<Step>, request: int, id: Bytes, start: int, model: Bytes,
          userAgent: Bytes, victims: seq<Bytes>)
    requires Reaches(w, idle, steps) && !w.registry.closed
    requires Enabled(w, Acquire(request, id, start, model, userAgent, victims))
    ensures var v := Next(w, Acquire(request, id, start, model, userAgent, victims));
            if id in w.registry.sessions then IsShared(w, v, request, id) else IsNew(w, v, request, id, victims)
    ensures |w.registry.sessions| < MAX_TRACKED_SESSIONS ==> victims == []
    ensures victims != [] ==>
              var v := Next(w, Acquire(request, id, start, model, userAgent, victims));
              |v.registry.sessions| >= MAX_TRACKED_SESSIONS
  {
    ReachesInv(w, idle, steps);
    if id !in w.registry.sessions {
      EvictionSpares(w.registry, victims);
      NewStep(w, request, id, start, model, userAgent, victims);
    }
  }

  /** A table with room evicts nobody; a full one keeps all but the last place. */
  lemma EvictionSpares(r: Registry, victims: seq<Bytes>)
    requires Evicting(r, victims)
    ensures |r.sessions| < MAX_TRACKED_SESSIONS ==> victims == []
    ensures victims != [] ==> |AllFinished(r, victims, Evicted).sessions| + 1 >= MAX_TRACKED_SESSIONS
  {
    if victims != [] {
      NoMoreThanNeeded(r, victims);
    }
  }

  lemma NewStep(w: World, request: int, id: Bytes, start: int, model: Bytes, userAgent: Bytes, victims: seq<Bytes>)
    requires Inv(w) && !w.registry.closed && id !in w.registry.sessions && Evicting(w.registry, victims)
    ensures var q := AllFinished(w.registry, victims, Evicted);
            var v := HolderTaken(w, q, request, id, start, model, userAgent);
            IsNew(w, v, request, id, victims) && |v.registry.sessions| == |q.sessions| + 1
  {
    var r := w.registry;
    VictimsGone(r, victims);
    EvictionKeepsOut(r, victims, id);
    FinishedKeepsClosed(r, victims, Evicted);
    OneTaken(AllFinished(r, victims, Evicted), id, start, model, userAgent);
  }

  lemma OneTaken(q: Registry, id: Bytes, start: int, model: Bytes, userAgent: Bytes)
    requires id !in q.sessions
    ensures var v := Taken(q, id, start, model, userAgent);
            && v.sessions.Keys == q.sessions.Keys + {id} && |v.sessions| == |q.sessions| + 1
            && v.sessions[id].serial == q.started && v.started == q.started + 1 && v.ended == q.ended
  {
    var v := Taken(q, id, start, model, userAgent);
    assert |v.sessions| == |v.sessions.Keys| && |q.sessions| == |q.sessions.Keys|;
  }

  lemma {:induction false} VictimsGone(r: Registry, victims: seq<Bytes>)
    requires Evicting(r, victims)
    ensures var q := AllFinished(r, victims, Evicted);
            && q.sessions == r.sessions - Elements(victims)
            && |q.ended| == |r.ended| + |victims|
    decreases |victims|
  {
    if victims == [] {
      assert r.sessions - Elements(victims) == r.sessions;
    } else {
      VictimsGone(Finished(r, victims[0], Evicted), victims[1..]);
      TakenAway(r.sessions, victims);
    }
  }

  lemma TakenAway(sessions: map<Bytes, Session>, ids: seq<Bytes>)
    requires ids != []
    ensures sessions - {ids[0]} - Elements(ids[1..]) == sessions - Elements(ids)
  {
    assert Elements(ids) == {ids[0]} + Elements(ids[1..]);
  }

  /** The table was full until the last victim left. */
  lemma {:induction false} NoMoreThanNeeded(r: Registry, victims: seq<Bytes>)
    requires Evicting(r, victims) && victims != []
    ensures |AllFinished(r, victims, Evicted).sessions| + 1 >= MAX_TRACKED_SESSIONS
    decreases |victims|
  {
    var q := Finished(r, victims[0], Evicted);
    assert |q.sessions| == |r.sessions| - 1 by {
      assert q.sessions.Keys == r.sessions.Keys - {victims[0]};
      assert |q.sessions| == |q.sessions.Keys| && |r.sessions| == |r.sessions.Keys|;
    }
    if victims[1..] != [] {
      NoMoreThanNeeded(q, victims[1..]);
    }
  }

  // ---------- Nothing else ends a session ----------

  /** A release ends none, and until the registry is closed keeps every session live. */
  lemma ReleaseEndsNone(w: World, idle: int, steps: seq<Step>, request: int, at: int)
    requires Reaches(w, idle, steps) && request in w.holders
    ensures var v := Next(w, Release(request, at));
            && v.registry.ended == w.registry.ended && v.registry.started == w.registry.started
            && v.registry.sessions.Keys == w.registry.sessions.Keys && v.holders == w.holders - {request}
  {
    ReachesInv(w, idle, steps);
  }

  // ---------- What a session says about itself ----------

  ghost predicate Named(uses: seq<Use>, model: Bytes) {
    exists i :: 0 <= i < |uses| && uses[i].Start? && uses[i].model == model
  }

  /**
   * The models of a session are distinct and named by its uses; every model named is among them
   * unless there are 32 already.
   */
  lemma {:induction false} ModelsMeaning(uses: seq<Use>)
    ensures var models := ModelsIn(uses);
            && |models| <= MAX_SESSION_MODELS && "" !in models
            && (forall i, j :: 0 <= i < j < |models| ==> models[i] != models[j])
            && (forall m :: m in models ==> Named(uses, m))
            && (forall m :: m != "" && Named(uses, m) ==> m in models || |models| == MAX_SESSION_MODELS)
  {
    if uses != [] {
      var n := |uses| - 1;
      ModelsMeaning(uses[..n]);
      forall m ensures Named(uses, m) <==> Named(uses[..n], m) || (uses[n].Start? && uses[n].model == m) {
        NamedLast(uses, m);
      }
    }
  }

  lemma NamedLast(uses: seq<Use>, model: Bytes)
    requires uses != []
    ensures var n := |uses| - 1;
            Named(uses, model) <==> Named(uses[..n], model) || (uses[n].Start? && uses[n].model == model)
  {
    var n := |uses| - 1;
    if Named(uses[..n], model) {
      var i :| 0 <= i < n && uses[..n][i].Start? && uses[..n][i].model == model;
      assert uses[i].Start? && uses[i].model == model;
    }
    if Named(uses, model) && !(uses[n].Start? && uses[n].model == model) {
      var i :| 0 <= i < |uses| && uses[i].Start? && uses[i].model == model;
      assert uses[..n][i] == uses[i];
    }
  }

  /** The user agent is the first that was not empty. */
  lemma {:induction false} AgentMeaning(uses: seq<Use>)
    ensures if AgentIn(uses) == "" then forall i :: 0 <= i < |uses| && uses[i].Start? ==> uses[i].userAgent == ""
            else exists i :: 0 <= i < |uses| && IsFirstAgent(uses, i)
  {
    if uses != [] {
      var n := |uses| - 1;
      AgentMeaning(uses[..n]);
      if AgentIn(uses[..n]) != "" {
        var i :| 0 <= i < n && IsFirstAgent(uses[..n], i);
        assert IsFirstAgent(uses, i);
      } else {
        assert forall i :: 0 <= i < n ==> uses[..n][i] == uses[i];
        if AgentIn(uses) != "" {
          assert IsFirstAgent(uses, n);
        }
      }
    }
  }

  ghost predicate IsFirstAgent(uses: seq<Use>, i: nat)
    requires i < |uses|
  {
    && uses[i].Start? && uses[i].userAgent == AgentIn(uses)
    && forall j :: 0 <= j < i && uses[j].Start? ==> uses[j].userAgent == ""
  }
}
