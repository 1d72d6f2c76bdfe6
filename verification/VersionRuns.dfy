/** When versions count the archives put into a row, and when no put is lost, over every interleaving,
    acknowledgements included. */
module VersionRuns {
  import opened Base
  import opened DeviceStore
  import opened DeviceRuns
  import opened ConfigRuns
  import opened Runs

  predicate CountsAt(rows0: Rows, s: State, i: nat)
    requires i in s.rows
  {
    s.rows[i].version == FirstTriple(rows0, i).version + |Puts(s, i)|
  }

  /** Every row's version is its first version plus the number of archives put into it. */
  function Counting(rows0: Rows): State -> bool {
    (s: State) => forall i | i in s.rows :: CountsAt(rows0, s, i)
  }

  /** What an optimistic lock on the version would test before a save: nobody has moved the row's version
      since the snapshot was read, and a put takes the next one. */
  function VersionLock(): (State, Event) -> bool {
    (s: State, e: Event) =>
      e.Save? && e.t in s.tasks && s.tasks[e.t].Saving? && s.tasks[e.t].snapshot.id in s.rows ==>
        s.tasks[e.t].snapshot.version == s.rows[s.tasks[e.t].snapshot.id].version + if s.tasks[e.t].put then 1 else 0
  }

  ghost function Rooted(rows0: Rows): State -> bool {
    (s: State) => Identity(s) && Extends(rows0, s.rows) && forall i: nat | i !in s.rows :: Puts(s, i) == []
  }

  lemma SaveRooted(sha: Bytes -> Digest, rows0: Rows, s: State, t: int)
    requires Rooted(rows0)(s) && t in s.tasks && s.tasks[t].Saving?
    ensures var s', d := Next(sha, s, Save(t)), s.tasks[t].snapshot;
      && d.id in s.rows && s'.rows == s.rows[d.id := d]
      && forall i: nat :: Puts(s', i) == if i == d.id && s.tasks[t].put then Puts(s, i) + [TripleOf(d)] else Puts(s, i)
  {
    assert TaskOk(s.rows, s.tasks[t]);
  }

  lemma OthersPuts(sha: Bytes -> Digest, s: State, e: Event)
    requires Identity(s) && (e.Save? ==> !(e.t in s.tasks && s.tasks[e.t].Saving?))
    ensures SameConfigs(s, Next(sha, s, e))
  {
    if !e.Save? {
      OthersSame(sha, s, e);
    }
  }

  lemma NextRooted(sha: Bytes -> Digest, rows0: Rows, s: State, e: Event)
    requires Rooted(rows0)(s)
    ensures Rooted(rows0)(Next(sha, s, e))
  {
    var s' := Next(sha, s, e);
    NextIdentity(sha, s, e);
    NextGrows(sha, s, e);
    if e.Save? && e.t in s.tasks && s.tasks[e.t].Saving? {
      SaveRooted(sha, rows0, s, e.t);
    } else {
      OthersPuts(sha, s, e);
      forall i: nat | i !in s'.rows ensures Puts(s', i) == [] {
        assert i !in s.rows;
      }
    }
  }

  lemma SaveCounts(sha: Bytes -> Digest, rows0: Rows, s: State, t: int)
    requires Rooted(rows0)(s) && Counting(rows0)(s) && t in s.tasks && s.tasks[t].Saving?
    ensures Counting(rows0)(Next(sha, s, Save(t))) <==> VersionLock()(s, Save(t))
  {
    var s', d := Next(sha, s, Save(t)), s.tasks[t].snapshot;
    SaveRooted(sha, rows0, s, t);
    forall i | i in s'.rows && i != d.id ensures CountsAt(rows0, s', i) {
      assert CountsAt(rows0, s, i);
    }
    assert CountsAt(rows0, s, d.id) && d.id in s'.rows;
    assert CountsAt(rows0, s', d.id) <==> VersionLock()(s, Save(t));
  }

  lemma SameCount(rows0: Rows, s: State, s': State)
    requires Rooted(rows0)(s) && Counting(rows0)(s) && SameConfigs(s, s')
    ensures Counting(rows0)(s')
  {
    forall i | i in s'.rows ensures CountsAt(rows0, s', i) {
      assert Puts(s', i) == Puts(s, i);
      if i in s.rows {
        assert CountsAt(rows0, s, i) && TripleOf(s'.rows[i]) == TripleOf(s.rows[i]);
      } else {
        assert i !in rows0 && TripleOf(s'.rows[i]) == Triple([], "", 0);
      }
    }
  }

  lemma NextCounts(sha: Bytes -> Digest, rows0: Rows, s: State, e: Event)
    requires Rooted(rows0)(s) && Counting(rows0)(s)
    ensures Counting(rows0)(Next(sha, s, e)) <==> VersionLock()(s, e)
  {
    if e.Save? && e.t in s.tasks && s.tasks[e.t].Saving? {
      SaveCounts(sha, rows0, s, e.t);
    } else {
      OthersPuts(sha, s, e);
      SameCount(rows0, s, Next(sha, s, e));
    }
  }

  lemma CountsIff(sha: Bytes -> Digest, rows0: Rows, s: State, events: seq<Event>)
    requires Rooted(rows0)(s) && Counting(rows0)(s)
    ensures Throughout(Step(sha), s, events, Counting(rows0)) <==> Guarded(Step(sha), s, events, VersionLock())
    ensures Rooted(rows0)(Run(sha, s, events))
  {
    forall x, e | Rooted(rows0)(x) ensures Rooted(rows0)(Step(sha)(x, e)) {
      NextRooted(sha, rows0, x, e);
    }
    forall x, e | Rooted(rows0)(x) && Counting(rows0)(x) ensures Counting(rows0)(Step(sha)(x, e)) <==> VersionLock()(x, e) {
      NextCounts(sha, rows0, x, e);
    }
    ThroughoutIff(Step(sha), s, events, Rooted(rows0), Counting(rows0), VersionLock());
    Kept(Step(sha), s, events, Rooted(rows0));
  }

  lemma LockedCount(sha: Bytes -> Digest, rows0: Rows, s: State, events: seq<Event>)
    requires Rooted(rows0)(s) && Counting(rows0)(s) && Guarded(Step(sha), s, events, VersionLock())
    ensures Rooted(rows0)(Run(sha, s, events)) && Counting(rows0)(Run(sha, s, events))
  {
    CountsIff(sha, rows0, s, events);
    ThroughoutEnd(Step(sha), s, events, Counting(rows0));
  }

  /** Over any interleaving of all handlers: versions count puts after every event, if and only if every
      save would have passed a lock on the version. */
  lemma VersionsCountIff(sha: Bytes -> Digest, rows0: Rows, nextId: nat, events: seq<Event>)
    requires TableOk(rows0, nextId)
    ensures Throughout(Step(sha), Start(rows0, nextId), events, Counting(rows0))
       <==> Guarded(Step(sha), Start(rows0, nextId), events, VersionLock())
  {
    CountsIff(sha, rows0, Start(rows0, nextId), events);
  }

  // ---- lost puts ----

  /** The configuration put into a row last, or the one it started from. */
  function LastPut(rows0: Rows, s: State, i: nat): Triple {
    if Puts(s, i) == [] then FirstTriple(rows0, i) else Puts(s, i)[|Puts(s, i)| - 1]
  }

  predicate HoldsLast(rows0: Rows, s: State, i: nat)
    requires i in s.rows
  {
    TripleOf(s.rows[i]) == LastPut(rows0, s, i)
  }

  /** Every row holds the archive, checksum and version put into it last: no put is lost. */
  function NoneLost(rows0: Rows): State -> bool {
    (s: State) => forall i | i in s.rows :: HoldsLast(rows0, s, i)
  }

  /** A save that is not a put leaves archive, checksum and version of its row as they stand. */
  function SavesKeepConfig(): (State, Event) -> bool {
    (s: State, e: Event) =>
      e.Save? && e.t in s.tasks && s.tasks[e.t].Saving? && !s.tasks[e.t].put && s.tasks[e.t].snapshot.id in s.rows ==>
        TripleOf(s.tasks[e.t].snapshot) == TripleOf(s.rows[s.tasks[e.t].snapshot.id])
  }

  lemma SaveLast(sha: Bytes -> Digest, rows0: Rows, s: State, t: int, i: nat)
    requires Rooted(rows0)(s) && t in s.tasks && s.tasks[t].Saving?
    ensures LastPut(rows0, Next(sha, s, Save(t)), i) ==
      if i == s.tasks[t].snapshot.id && s.tasks[t].put then TripleOf(s.tasks[t].snapshot) else LastPut(rows0, s, i)
  {
    SaveRooted(sha, rows0, s, t);
  }

  lemma SaveLoses(sha: Bytes -> Digest, rows0: Rows, s: State, t: int)
    requires Rooted(rows0)(s) && NoneLost(rows0)(s) && t in s.tasks && s.tasks[t].Saving?
    ensures NoneLost(rows0)(Next(sha, s, Save(t))) <==> SavesKeepConfig()(s, Save(t))
  {
    var s', d := Next(sha, s, Save(t)), s.tasks[t].snapshot;
    SaveRooted(sha, rows0, s, t);
    forall i | i in s'.rows && i != d.id ensures HoldsLast(rows0, s', i) {
      SaveLast(sha, rows0, s, t, i);
      assert HoldsLast(rows0, s, i);
    }
    SaveLast(sha, rows0, s, t, d.id);
    assert HoldsLast(rows0, s, d.id) && s'.rows[d.id] == d;
    assert HoldsLast(rows0, s', d.id) <==> SavesKeepConfig()(s, Save(t));
  }

  lemma SameHoldLast(rows0: Rows, s: State, s': State)
    requires Rooted(rows0)(s) && NoneLost(rows0)(s) && SameConfigs(s, s')
    ensures NoneLost(rows0)(s')
  {
    forall i | i in s'.rows ensures HoldsLast(rows0, s', i) {
      assert LastPut(rows0, s', i) == LastPut(rows0, s, i) && Puts(s', i) == Puts(s, i);
      if i in s.rows {
        assert HoldsLast(rows0, s, i) && TripleOf(s'.rows[i]) == TripleOf(s.rows[i]);
      } else {
        assert i !in rows0 && TripleOf(s'.rows[i]) == Triple([], "", 0);
      }
    }
  }

  lemma NextLoses(sha: Bytes -> Digest, rows0: Rows, s: State, e: Event)
    requires Rooted(rows0)(s) && NoneLost(rows0)(s)
    ensures NoneLost(rows0)(Next(sha, s, e)) <==> SavesKeepConfig()(s, e)
  {
    if e.Save? && e.t in s.tasks && s.tasks[e.t].Saving? {
      SaveLoses(sha, rows0, s, e.t);
    } else {
      OthersPuts(sha, s, e);
      SameHoldLast(rows0, s, Next(sha, s, e));
    }
  }

  /** Over any interleaving of all handlers, acknowledgements included: no put is lost after any event, if and
      only if every save that is not a put carries the configuration of the row it overwrites. */
  lemma NoPutLostIff(sha: Bytes -> Digest, rows0: Rows, nextId: nat, events: seq<Event>)
    requires TableOk(rows0, nextId)
    ensures Throughout(Step(sha), Start(rows0, nextId), events, NoneLost(rows0))
       <==> Guarded(Step(sha), Start(rows0, nextId), events, SavesKeepConfig())
  {
    forall x, e | Rooted(rows0)(x) ensures Rooted(rows0)(Step(sha)(x, e)) {
      NextRooted(sha, rows0, x, e);
    }
    forall x, e | Rooted(rows0)(x) && NoneLost(rows0)(x) ensures NoneLost(rows0)(Step(sha)(x, e)) <==> SavesKeepConfig()(x, e) {
      NextLoses(sha, rows0, x, e);
    }
    ThroughoutIff(Step(sha), Start(rows0, nextId), events, Rooted(rows0), NoneLost(rows0), SavesKeepConfig());
  }

  /** A row that counts its puts holds the last of them. */
  lemma CountingHoldsLast(sha: Bytes -> Digest, rows0: Rows, s: State, i: nat)
    requires Traced(sha, rows0, s) && i in s.rows && CountsAt(rows0, s, i)
    ensures HoldsLast(rows0, s, i)
  {
    assert Known(rows0, s, i, TripleOf(s.rows[i]));
    if TripleOf(s.rows[i]) in Puts(s, i) {
      var k :| 0 <= k < |Puts(s, i)| && Puts(s, i)[k] == TripleOf(s.rows[i]);
      assert Puts(s, i)[k].version <= FirstTriple(rows0, i).version + k + 1;
    }
  }

  lemma {:induction false} LockedThroughout(sha: Bytes -> Digest, rows0: Rows, s: State, events: seq<Event>)
    requires Traced(sha, rows0, s) && Rooted(rows0)(s) && Counting(rows0)(s) && NoAck(events)
    requires Guarded(Step(sha), s, events, VersionLock())
    ensures Throughout(Step(sha), s, events, NoneLost(rows0))
    decreases |events|
  {
    forall i | i in s.rows ensures HoldsLast(rows0, s, i) {
      CountingHoldsLast(sha, rows0, s, i);
    }
    if events != [] {
      NextTraced(sha, rows0, s, events[0]);
      NextRooted(sha, rows0, s, events[0]);
      NextCounts(sha, rows0, s, events[0]);
      LockedThroughout(sha, rows0, Next(sha, s, events[0]), events[1..]);
    }
  }

  /** Without acknowledgements the lock on the version is enough: saves that pass it lose no put, and carry the
      configuration of the row they overwrite unless they are puts. */
  lemma LockedRunsKeepPuts(sha: Bytes -> Digest, rows0: Rows, nextId: nat, events: seq<Event>)
    requires TableOk(rows0, nextId) && (forall i | i in rows0 :: rows0[i].version >= 0) && NoAck(events)
    requires Guarded(Step(sha), Start(rows0, nextId), events, VersionLock())
    ensures Throughout(Step(sha), Start(rows0, nextId), events, NoneLost(rows0))
    ensures Guarded(Step(sha), Start(rows0, nextId), events, SavesKeepConfig())
  {
    LockedThroughout(sha, rows0, Start(rows0, nextId), events);
    NoPutLostIff(sha, rows0, nextId, events);
  }
}
