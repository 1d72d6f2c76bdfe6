/** What every interleaving keeps about archive, checksum and version. */
module ConfigRuns {
  import opened Base
  import opened DeviceStore
  import opened DeviceRuns

  predicate NoAck(events: seq<Event>) {
    forall e | e in events :: !e.ReadForAck?
  }

  /** The configuration a row started from. */
  function FirstTriple(rows0: Rows, id: nat): Triple {
    if id in rows0 then TripleOf(rows0[id]) else Triple([], "", 0)
  }

  predicate Known(rows0: Rows, s: State, id: nat, t: Triple) {
    t == FirstTriple(rows0, id) || t in Puts(s, id)
  }

  /** The next archive of row id may get any version from 1 to one more than the puts so far allow. */
  predicate InReach(rows0: Rows, s: State, id: nat, version: int) {
    1 <= version <= FirstTriple(rows0, id).version + |Puts(s, id)| + 1
  }

  ghost predicate TaskTraced(sha: Bytes -> Digest, rows0: Rows, s: State, task: Task) {
    match task
    case Saving(d, false) => Known(rows0, s, d.id, TripleOf(d))
    case Saving(d, true) => d.checksum == sha(d.archive) && InReach(rows0, s, d.id, d.version)
    case Planned(uuid, _, version) => exists i | i in s.rows :: s.rows[i].uuid == uuid && InReach(rows0, s, i, version)
    case _ => true
  }

  ghost predicate Traced(sha: Bytes -> Digest, rows0: Rows, s: State) {
    && Identity(s)
    && Extends(rows0, s.rows)
    && (forall i | i in rows0 :: rows0[i].version >= 0)
    && (forall i | i in s.rows :: Known(rows0, s, i, TripleOf(s.rows[i])))
    && (forall t | t in s.tasks :: TaskTraced(sha, rows0, s, s.tasks[t]))
    && (forall i: nat, k | 0 <= k < |Puts(s, i)| ::
          && Puts(s, i)[k].checksum == sha(Puts(s, i)[k].archive)
          && 1 <= Puts(s, i)[k].version <= FirstTriple(rows0, i).version + k + 1)
  }

  /** A row's version never exceeds the version it started from plus the number of archives put into it. */
  lemma KnownVersion(sha: Bytes -> Digest, rows0: Rows, s: State, id: nat, t: Triple)
    requires Traced(sha, rows0, s) && Known(rows0, s, id, t)
    ensures 0 <= t.version <= FirstTriple(rows0, id).version + |Puts(s, id)|
  {
    if t in Puts(s, id) {
      var k :| 0 <= k < |Puts(s, id)| && Puts(s, id)[k] == t;
    }
  }

  lemma TaskTracedLater(sha: Bytes -> Digest, rows0: Rows, s: State, s': State, task: Task)
    requires TaskTraced(sha, rows0, s, task) && Extends(s.rows, s'.rows)
    requires forall i: nat :: Puts(s, i) <= Puts(s', i)
    ensures TaskTraced(sha, rows0, s', task)
  {
    if task.Planned? {
      var i :| i in s.rows && s.rows[i].uuid == task.uuid && InReach(rows0, s, i, task.version);
      assert s'.rows[i].uuid == task.uuid && InReach(rows0, s', i, task.version);
    } else if task.Saving? {
      assert Puts(s, task.snapshot.id) <= Puts(s', task.snapshot.id);
    }
  }

  // ---- a handler's first statement ----

  lemma SnapshotTraced(sha: Bytes -> Digest, rows0: Rows, s: State, f: Device -> bool)
    requires Traced(sha, rows0, s) && First(s.rows, f).Some?
    ensures var d := First(s.rows, f).value;
      f(d) && d.id in s.rows && s.rows[d.id] == d && Known(rows0, s, d.id, TripleOf(d)) && InReach(rows0, s, d.id, NextVersion(d.version))
  {
    FirstOk(s, f);
    var d := First(s.rows, f).value;
    KnownVersion(sha, rows0, s, d.id, TripleOf(d));
  }

  /** A read that found a row holds a snapshot of it with another edit than a put. */
  lemma HeldTraced(sha: Bytes -> Digest, rows0: Rows, s: State, f: Device -> bool, edited: Device)
    requires Traced(sha, rows0, s) && First(s.rows, f).Some?
    requires edited.id == First(s.rows, f).value.id && TripleOf(edited) == TripleOf(First(s.rows, f).value)
    ensures TaskTraced(sha, rows0, s, Saving(edited, false))
  {
    SnapshotTraced(sha, rows0, s, f);
  }

  lemma PlanTraced(sha: Bytes -> Digest, rows0: Rows, s: State, uuid: string, tar: Bytes)
    requires Traced(sha, rows0, s) && First(s.rows, WithUuid(uuid)).Some?
    ensures TaskTraced(sha, rows0, s, Planned(uuid, tar, NextVersion(First(s.rows, WithUuid(uuid)).value.version)))
  {
    SnapshotTraced(sha, rows0, s, WithUuid(uuid));
  }

  lemma BeginTraced(sha: Bytes -> Digest, rows0: Rows, s: State, e: Event)
    requires Traced(sha, rows0, s) && Begins(e) && !e.ReadForAck? && e.t in Begin(sha, s, e).tasks && e.t !in s.tasks
    ensures TaskTraced(sha, rows0, s, Begin(sha, s, e).tasks[e.t])
  {
    match e
    case ReadForStatus(_, uuid, key, status, now) =>
      var d := First(s.rows, Matching(uuid, key)).value;
      HeldTraced(sha, rows0, s, Matching(uuid, key), StatusEdit(d, status, now));
    case ReadForApplied(_, uuid, key, localSum, now) =>
      var d := First(s.rows, Matching(uuid, key)).value;
      HeldTraced(sha, rows0, s, Matching(uuid, key), AppliedEdit(d, localSum, now));
    case ReadForAdopt(_, a, now) =>
      var d := First(s.rows, WithUuid(a.uuid));
      if d.Some? { HeldTraced(sha, rows0, s, WithUuid(a.uuid), AdoptEdit(d.value, a, now)); }
    case Plan(_, uuid, tar) => PlanTraced(sha, rows0, s, uuid, tar);
    case _ =>
  }

  // ---- later statements ----

  lemma PutSnapshotTraced(sha: Bytes -> Digest, rows0: Rows, s: State, t: int, now: int)
    requires Traced(sha, rows0, s) && t in s.tasks && s.tasks[t].Planned?
    ensures var s' := Continue(sha, s, ReadForPut(t, now)); t in s'.tasks ==> TaskTraced(sha, rows0, s, s'.tasks[t])
  {
    var p := s.tasks[t];
    assert TaskTraced(sha, rows0, s, p);
    var i :| i in s.rows && s.rows[i].uuid == p.uuid && InReach(rows0, s, i, p.version);
    FirstOk(s, WithUuid(p.uuid));
  }

  /** Puts are only appended, rows hold what was put or their first configuration, and every put is sound. */
  ghost predicate PutsSound(sha: Bytes -> Digest, rows0: Rows, s: State, s': State) {
    && (forall i: nat :: Puts(s, i) <= Puts(s', i))
    && (forall i | i in s'.rows :: Known(rows0, s', i, TripleOf(s'.rows[i])))
    && (forall i: nat, k | 0 <= k < |Puts(s', i)| ::
          && Puts(s', i)[k].checksum == sha(Puts(s', i)[k].archive)
          && 1 <= Puts(s', i)[k].version <= FirstTriple(rows0, i).version + k + 1)
  }

  lemma SavePuts(sha: Bytes -> Digest, rows0: Rows, s: State, t: int, i: nat)
    requires Traced(sha, rows0, s) && t in s.tasks && s.tasks[t].Saving?
    ensures var s', d := Continue(sha, s, Save(t)), s.tasks[t].snapshot;
      Puts(s', i) == if i == d.id && s.tasks[t].put then Puts(s, i) + [TripleOf(d)] else Puts(s, i)
  {}

  lemma SaveKnown(sha: Bytes -> Digest, rows0: Rows, s: State, t: int, i: nat)
    requires Traced(sha, rows0, s) && t in s.tasks && s.tasks[t].Saving? && i in Continue(sha, s, Save(t)).rows
    ensures Known(rows0, Continue(sha, s, Save(t)), i, TripleOf(Continue(sha, s, Save(t)).rows[i]))
  {
    var d := s.tasks[t].snapshot;
    SavePuts(sha, rows0, s, t, i);
    assert TaskTraced(sha, rows0, s, s.tasks[t]);
    if i != d.id {
      assert Known(rows0, s, i, TripleOf(s.rows[i]));
    }
  }

  lemma SaveTraced(sha: Bytes -> Digest, rows0: Rows, s: State, t: int)
    requires Traced(sha, rows0, s) && t in s.tasks && s.tasks[t].Saving?
    ensures PutsSound(sha, rows0, s, Continue(sha, s, Save(t)))
  {
    var s' := Continue(sha, s, Save(t));
    assert TaskTraced(sha, rows0, s, s.tasks[t]);
    forall i: nat ensures Puts(s, i) <= Puts(s', i) {
      SavePuts(sha, rows0, s, t, i);
    }
    forall i | i in s'.rows ensures Known(rows0, s', i, TripleOf(s'.rows[i])) {
      SaveKnown(sha, rows0, s, t, i);
    }
    forall i: nat, k | 0 <= k < |Puts(s', i)|
      ensures Puts(s', i)[k].checksum == sha(Puts(s', i)[k].archive)
      ensures 1 <= Puts(s', i)[k].version <= FirstTriple(rows0, i).version + k + 1
    {
      SavePuts(sha, rows0, s, t, i);
    }
  }

  lemma SameTraced(sha: Bytes -> Digest, rows0: Rows, s: State, s': State)
    requires Traced(sha, rows0, s) && SameConfigs(s, s')
    ensures PutsSound(sha, rows0, s, s')
  {
    forall i: nat ensures Puts(s', i) == Puts(s, i) {}
    forall i | i in s'.rows ensures Known(rows0, s', i, TripleOf(s'.rows[i])) {
      if i in s.rows {
        assert Known(rows0, s, i, TripleOf(s.rows[i]));
      }
    }
  }

  lemma NextPuts(sha: Bytes -> Digest, rows0: Rows, s: State, e: Event)
    requires Traced(sha, rows0, s)
    ensures PutsSound(sha, rows0, s, Next(sha, s, e))
  {
    if e.Save? && e.t in s.tasks && s.tasks[e.t].Saving? {
      SaveTraced(sha, rows0, s, e.t);
    } else if !e.Save? {
      OthersSame(sha, s, e);
      SameTraced(sha, rows0, s, Next(sha, s, e));
    }
  }

  lemma NextTaskTraced(sha: Bytes -> Digest, rows0: Rows, s: State, e: Event, t: int)
    requires Traced(sha, rows0, s) && !e.ReadForAck? && t in Next(sha, s, e).tasks
    ensures TaskTraced(sha, rows0, s, Next(sha, s, e).tasks[t])
  {
    if Begins(e) {
      if e.t !in s.tasks {
        if t != e.t { BeginTasks(sha, s, e, t); } else { BeginTraced(sha, rows0, s, e); }
      }
    } else if e.ReadForPut? && e.t == t && t in s.tasks && s.tasks[t].Planned? {
      PutSnapshotTraced(sha, rows0, s, t, e.now);
    } else {
      KeptTask(sha, s, e, t);
    }
  }

  lemma NextTraced(sha: Bytes -> Digest, rows0: Rows, s: State, e: Event)
    requires Traced(sha, rows0, s) && !e.ReadForAck?
    ensures Traced(sha, rows0, Next(sha, s, e))
  {
    NextIdentity(sha, s, e);
    NextGrows(sha, s, e);
    NextPuts(sha, rows0, s, e);
    forall t | t in Next(sha, s, e).tasks ensures TaskTraced(sha, rows0, Next(sha, s, e), Next(sha, s, e).tasks[t]) {
      NextTaskTraced(sha, rows0, s, e, t);
      TaskTracedLater(sha, rows0, s, Next(sha, s, e), Next(sha, s, e).tasks[t]);
    }
  }

  lemma {:induction false} RunTraced(sha: Bytes -> Digest, rows0: Rows, s: State, events: seq<Event>)
    requires Traced(sha, rows0, s) && NoAck(events)
    ensures Traced(sha, rows0, Run(sha, s, events))
    decreases |events|
  {
    if events != [] {
      NextTraced(sha, rows0, s, events[0]);
      RunTraced(sha, rows0, Next(sha, s, events[0]), events[1..]);
    }
  }

  /** Provenance: whatever the interleaving, a row's archive, checksum and version are together those it
      started with or those of one put, and its version is at most its first one plus the puts. */
  lemma Provenance(sha: Bytes -> Digest, rows0: Rows, nextId: nat, events: seq<Event>)
    requires TableOk(rows0, nextId) && (forall i | i in rows0 :: rows0[i].version >= 0) && NoAck(events)
    ensures var s := Run(sha, Start(rows0, nextId), events);
      forall i | i in s.rows ::
        && Known(rows0, s, i, TripleOf(s.rows[i]))
        && 0 <= s.rows[i].version <= FirstTriple(rows0, i).version + |Puts(s, i)|
  {
    RunTraced(sha, rows0, Start(rows0, nextId), events);
    var s := Run(sha, Start(rows0, nextId), events);
    forall i | i in s.rows ensures 0 <= s.rows[i].version <= FirstTriple(rows0, i).version + |Puts(s, i)| {
      KnownVersion(sha, rows0, s, i, TripleOf(s.rows[i]));
    }
  }
}
