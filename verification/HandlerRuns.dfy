/** Handlers that nothing interrupts, and what interruption and acknowledgements can cost. */
module HandlerRuns {
  import opened Base
  import opened DeviceStore
  import opened DeviceRuns
  import opened ConfigRuns
  import opened Runs
  import opened VersionRuns

  /** A handler that runs from its first statement to its last with nothing in between. */
  datatype Handler =
    | Reconcile(uuid: string, tar: Bytes, now: int)
    | Status(uuid: string, key: string, status: string, now: int)
    | Applied(uuid: string, key: string, localSum: string, now: int)
    | Adopt(a: AdoptInput, now: int)
    | Seen(uuid: string, now: int)
    | Sweep(cut: int)
    | Register(key: string, uuid: string, name: string, model: string, mac: string)

  function Steps(h: Handler): seq<Event> {
    match h
    case Reconcile(uuid, tar, now) => [Event.Plan(0, uuid, tar), Event.ReadForPut(0, now), Event.Save(0)]
    case Status(uuid, key, status, now) => [Event.ReadForStatus(0, uuid, key, status, now), Event.Save(0)]
    case Applied(uuid, key, localSum, now) => [Event.ReadForApplied(0, uuid, key, localSum, now), Event.Save(0)]
    case Adopt(a, now) => [Event.ReadForAdopt(0, a, now), Event.Save(0), Event.CreateAdopted(0)]
    case Seen(uuid, now) => [Event.MarkSeen(uuid, now)]
    case Sweep(cut) => [Event.Sweep(cut)]
    case Register(key, uuid, name, model, mac) =>
      [Event.LookUpKey(0, key, uuid, name, model, mac), Event.UpdateFound(0), Event.InsertMissed(0), Event.Reread(0)]
  }

  function RunHandlers(sha: Bytes -> Digest, s: State, hs: seq<Handler>): State
    decreases |hs|
  {
    if hs == [] then s else RunHandlers(sha, Run(sha, s, Steps(hs[0])), hs[1..])
  }

  lemma PlanStep(sha: Bytes -> Digest, s: State, t: int, uuid: string, tar: Bytes)
    requires t !in s.tasks
    ensures var d := First(s.rows, WithUuid(uuid));
      Next(sha, s, Event.Plan(t, uuid, tar)) ==
        if d.None? || sha(tar) == d.value.checksum then s else Hold(s, t, Task.Planned(uuid, tar, NextVersion(d.value.version)))
  {}

  lemma ReadForPutStep(sha: Bytes -> Digest, s: State, t: int, d: Device, now: int)
    requires t in s.tasks && s.tasks[t].Planned? && First(s.rows, WithUuid(s.tasks[t].uuid)) == Some(d)
    ensures Next(sha, s, Event.ReadForPut(t, now)) ==
      Hold(s, t, Task.Saving(PutEdit(sha, d, s.tasks[t].tar, s.tasks[t].version, now), true))
  {}

  lemma SaveStep(sha: Bytes -> Digest, s: State, t: int, d: Device, put: bool)
    requires t in s.tasks && s.tasks[t] == Task.Saving(d, put)
    ensures Next(sha, s, Event.Save(t)) ==
      s.(tasks := s.tasks - {t}, rows := s.rows[d.id := d], puts := if put then s.puts[d.id := Puts(s, d.id) + [TripleOf(d)]] else s.puts)
  {}

  lemma IdleStep(sha: Bytes -> Digest, s: State)
    requires s.tasks == map[]
    ensures forall now :: Next(sha, s, Event.ReadForPut(0, now)) == s
    ensures Next(sha, s, Event.Save(0)) == s && Next(sha, s, Event.CreateAdopted(0)) == s
    ensures Next(sha, s, Event.UpdateFound(0)) == s && Next(sha, s, Event.InsertMissed(0)) == s && Next(sha, s, Event.Reread(0)) == s
  {}

  /** One put of an uninterrupted Reconcile, exactly as the store method states it. */
  lemma ReconcileAlone(sha: Bytes -> Digest, s: State, uuid: string, tar: Bytes, now: int)
    requires s.tasks == map[]
    ensures var s', d := Run(sha, s, Steps(Reconcile(uuid, tar, now))), First(s.rows, WithUuid(uuid));
      if d.None? || sha(tar) == d.value.checksum then s' == s
      else s' == s.(rows := s.rows[d.value.id := PutEdit(sha, d.value, tar, NextVersion(d.value.version), now)],
                    puts := s.puts[d.value.id := Puts(s, d.value.id) + [Triple(tar, sha(tar), NextVersion(d.value.version))]])
  {
    ReachedThree(Step(sha), s, Event.Plan(0, uuid, tar), Event.ReadForPut(0, now), Event.Save(0));
    var d := First(s.rows, WithUuid(uuid));
    if d.Some? && sha(tar) != d.value.checksum {
      PutMeanwhile(sha, s, d.value, tar, now);
    } else {
      PlanStep(sha, s, 0, uuid, tar);
      IdleStep(sha, s);
    }
  }

  /** A lone Read-edit-Save is the store method's update. */
  lemma StatusAlone(sha: Bytes -> Digest, s: State, uuid: string, key: string, status: string, now: int)
    requires s.tasks == map[]
    ensures var s', d := Run(sha, s, Steps(Status(uuid, key, status, now))), First(s.rows, Matching(uuid, key));
      s' == if d.None? then s else s.(rows := s.rows[d.value.id := StatusEdit(d.value, status, now)])
  {
    ReachedTwo(Step(sha), s, Event.ReadForStatus(0, uuid, key, status, now), Event.Save(0));
    var d := First(s.rows, Matching(uuid, key));
    if d.Some? {
      assert map[0 := Task.Saving(StatusEdit(d.value, status, now), false)] - {0} == map[];
    }
  }

  lemma AppliedAlone(sha: Bytes -> Digest, s: State, uuid: string, key: string, localSum: string, now: int)
    requires s.tasks == map[]
    ensures var s', d := Run(sha, s, Steps(Applied(uuid, key, localSum, now))), First(s.rows, Matching(uuid, key));
      s' == if d.None? then s else s.(rows := s.rows[d.value.id := AppliedEdit(d.value, localSum, now)])
  {
    ReachedTwo(Step(sha), s, Event.ReadForApplied(0, uuid, key, localSum, now), Event.Save(0));
    var d := First(s.rows, Matching(uuid, key));
    if d.Some? {
      assert map[0 := Task.Saving(AppliedEdit(d.value, localSum, now), false)] - {0} == map[];
    }
  }

  lemma AdoptAlone(sha: Bytes -> Digest, s: State, a: AdoptInput, now: int)
    requires s.tasks == map[]
    ensures var s', d := Run(sha, s, Steps(Adopt(a, now))), First(s.rows, WithUuid(a.uuid));
      match d
      case Some(x) => s' == s.(rows := s.rows[x.id := AdoptEdit(x, a, now)])
      case None => s' == if Taken(s.rows, WithKey("")) then s else Inserted(s, AdoptNew(a, now))
  {
    ReachedThree(Step(sha), s, Event.ReadForAdopt(0, a, now), Event.Save(0), Event.CreateAdopted(0));
    var d := First(s.rows, WithUuid(a.uuid));
    if d.Some? {
      assert map[0 := Task.Saving(AdoptEdit(d.value, a, now), false)] - {0} == map[];
    } else {
      assert map[0 := Task.AdoptMissed(AdoptNew(a, now))] - {0} == map[];
    }
  }

  function AfterRegister(sha: Bytes -> Digest, s: State, key: string, uuid: string, name: string, model: string, mac: string): State {
    var s1 := Next(sha, s, Event.LookUpKey(0, key, uuid, name, model, mac));
    Next(sha, Next(sha, Next(sha, s1, Event.UpdateFound(0)), Event.InsertMissed(0)), Event.Reread(0))
  }

  lemma RegisterSteps(sha: Bytes -> Digest, s: State, key: string, uuid: string, name: string, model: string, mac: string)
    ensures Run(sha, s, Steps(Register(key, uuid, name, model, mac))) == AfterRegister(sha, s, key, uuid, name, model, mac)
  {
    var a, b, c, e := Event.LookUpKey(0, key, uuid, name, model, mac), Event.UpdateFound(0), Event.InsertMissed(0), Event.Reread(0);
    ReachedFour(Step(sha), s, a, b, c, e);
  }

  lemma RegisterFound(sha: Bytes -> Digest, s: State, key: string, uuid: string, name: string, model: string, mac: string)
    requires TableOk(s.rows, s.nextId) && s.tasks == map[] && First(s.rows, WithKey(key)).Some?
    ensures var s4, x := AfterRegister(sha, s, key, uuid, name, model, mac), First(s.rows, WithKey(key)).value;
      s4.rows == s.rows[x.id := RegisterEdit(x, name, model, mac)] && s4.nextId == s.nextId && s4.tasks == map[] && s4.puts == s.puts
  {
    FirstOk(s, WithKey(key));
    var x := First(s.rows, WithKey(key)).value;
    var found := Task.Found(x.id, Registered(x.uuid, key, false), Change(x.name, name), Change(x.model, model), Change(x.mac, mac));
    var s1 := Next(sha, s, Event.LookUpKey(0, key, uuid, name, model, mac));
    assert s1 == s.(tasks := map[0 := found]);
    var s2 := Next(sha, s1, Event.UpdateFound(0));
    assert s2.tasks == map[];
    IdleStep(sha, s2);
  }

  lemma RegisterNew(sha: Bytes -> Digest, s: State, key: string, uuid: string, name: string, model: string, mac: string)
    requires s.tasks == map[] && key != "" && First(s.rows, WithKey(key)).None?
    ensures AfterRegister(sha, s, key, uuid, name, model, mac) ==
        if Taken(s.rows, WithUuid(uuid)) then s
        else Inserted(s, NewDevice(uuid, key, name, model, mac)).(registered := s.registered + [Registered(uuid, key, true)])
  {
    var missed := Task.Missed(NewDevice(uuid, key, name, model, mac));
    var s1 := Next(sha, s, Event.LookUpKey(0, key, uuid, name, model, mac));
    assert s1 == s.(tasks := map[0 := missed]);
    assert Next(sha, s1, Event.UpdateFound(0)) == s1;
    var s3 := Next(sha, s1, Event.InsertMissed(0));
    assert s3.tasks == map[];
    IdleStep(sha, s3);
  }

  /** Nothing is in flight, and every version counts the puts exactly. */
  ghost predicate Exact(rows0: Rows, s: State) {
    && Rooted(rows0)(s) && Counting(rows0)(s) && s.tasks == map[]
    && forall i | i in rows0 :: rows0[i].version >= 0
  }

  /** Every save of h passes the version lock when nothing comes in between. */
  ghost predicate Passes(sha: Bytes -> Digest, s: State, h: Handler) {
    Guarded(Step(sha), s, Steps(h), VersionLock())
  }

  lemma {:induction false} NoSavePasses(sha: Bytes -> Digest, s: State, events: seq<Event>)
    requires forall e | e in events :: !e.Save?
    ensures Guarded(Step(sha), s, events, VersionLock())
    decreases |events|
  {
    if events != [] {
      NoSavePasses(sha, Next(sha, s, events[0]), events[1..]);
    }
  }

  lemma ReconcilePasses(sha: Bytes -> Digest, s: State, uuid: string, tar: Bytes, now: int)
    requires Identity(s) && s.tasks == map[] && forall i | i in s.rows :: s.rows[i].version >= 0
    ensures Passes(sha, s, Reconcile(uuid, tar, now))
  {
    var plan, again, put, d := Event.Plan(0, uuid, tar), Event.ReadForPut(0, now), Event.Save(0), First(s.rows, WithUuid(uuid));
    FirstOk(s, WithUuid(uuid));
    PlanStep(sha, s, 0, uuid, tar);
    if d.Some? && sha(tar) != d.value.checksum {
      ReadForPutStep(sha, Next(sha, s, plan), 0, d.value, now);
    } else {
      IdleStep(sha, s);
    }
    GuardedThree(Step(sha), s, plan, again, put, VersionLock());
  }

  lemma HandlerPasses(sha: Bytes -> Digest, s: State, h: Handler)
    requires Identity(s) && s.tasks == map[] && forall i | i in s.rows :: s.rows[i].version >= 0
    ensures Passes(sha, s, h)
  {
    match h
    case Reconcile(uuid, tar, now) => ReconcilePasses(sha, s, uuid, tar, now);
    case Status(uuid, key, status, now) =>
      FirstOk(s, Matching(uuid, key));
      GuardedTwo(Step(sha), s, Event.ReadForStatus(0, uuid, key, status, now), Event.Save(0), VersionLock());
    case Applied(uuid, key, localSum, now) =>
      FirstOk(s, Matching(uuid, key));
      GuardedTwo(Step(sha), s, Event.ReadForApplied(0, uuid, key, localSum, now), Event.Save(0), VersionLock());
    case Adopt(a, now) =>
      FirstOk(s, WithUuid(a.uuid));
      GuardedThree(Step(sha), s, Event.ReadForAdopt(0, a, now), Event.Save(0), Event.CreateAdopted(0), VersionLock());
    case _ => NoSavePasses(sha, s, Steps(h));
  }

  /** A handler that nothing interrupts leaves nothing in flight. */
  lemma HandlerEnds(sha: Bytes -> Digest, s: State, h: Handler)
    requires Identity(s) && s.tasks == map[] && (h.Register? ==> h.key != "")
    ensures Run(sha, s, Steps(h)).tasks == map[]
  {
    match h
    case Reconcile(uuid, tar, now) => ReconcileAlone(sha, s, uuid, tar, now);
    case Status(uuid, key, status, now) => StatusAlone(sha, s, uuid, key, status, now);
    case Applied(uuid, key, localSum, now) => AppliedAlone(sha, s, uuid, key, localSum, now);
    case Adopt(a, now) => AdoptAlone(sha, s, a, now);
    case Seen(uuid, now) => ReachedOne(Step(sha), s, Event.MarkSeen(uuid, now));
    case Sweep(cut) => ReachedOne(Step(sha), s, Event.Sweep(cut));
    case Register(key, uuid, name, model, mac) =>
      RegisterSteps(sha, s, key, uuid, name, model, mac);
      if First(s.rows, WithKey(key)).Some? {
        RegisterFound(sha, s, key, uuid, name, model, mac);
      } else {
        RegisterNew(sha, s, key, uuid, name, model, mac);
      }
  }

  lemma HandlerExact(sha: Bytes -> Digest, rows0: Rows, s: State, h: Handler)
    requires Exact(rows0, s) && (h.Register? ==> h.key != "")
    ensures Exact(rows0, Run(sha, s, Steps(h)))
  {
    forall i | i in s.rows ensures s.rows[i].version >= 0 {
      assert CountsAt(rows0, s, i);
    }
    HandlerPasses(sha, s, h);
    HandlerEnds(sha, s, h);
    LockedCount(sha, rows0, s, Steps(h));
  }

  lemma {:induction false} HandlersExact(sha: Bytes -> Digest, rows0: Rows, s: State, hs: seq<Handler>)
    requires Exact(rows0, s) && forall h | h in hs && h.Register? :: h.key != ""
    ensures Exact(rows0, RunHandlers(sha, s, hs))
    decreases |hs|
  {
    if hs != [] {
      HandlerExact(sha, rows0, s, hs[0]);
      HandlersExact(sha, rows0, Run(sha, s, Steps(hs[0])), hs[1..]);
    }
  }

  /** Handlers that do not interleave always pass the lock, so their versions count the puts. */
  lemma VersionCountsPuts(sha: Bytes -> Digest, rows0: Rows, nextId: nat, hs: seq<Handler>)
    requires TableOk(rows0, nextId) && (forall i | i in rows0 :: rows0[i].version >= 0)
    requires forall h | h in hs && h.Register? :: h.key != ""
    ensures var s := RunHandlers(sha, Start(rows0, nextId), hs);
      forall i | i in s.rows :: s.rows[i].version == FirstTriple(rows0, i).version + |Puts(s, i)|
  {
    HandlersExact(sha, rows0, Start(rows0, nextId), hs);
    var s := RunHandlers(sha, Start(rows0, nextId), hs);
    assert forall i | i in s.rows :: CountsAt(rows0, s, i);
  }

  /** Interleaving can lose a put: a status report that read the row before a complete Reconcile and saves
      after it brings the old archive, checksum and version back. */
  lemma StaleSaveUndoesPut(sha: Bytes -> Digest, s: State, d: Device, status: string, tar: Bytes, now: int)
    requires TableOk(s.rows, s.nextId) && s.tasks == map[]
    requires d.id in s.rows && s.rows[d.id] == d && d.uuid != "" && d.key != "" && sha(tar) != d.checksum
    ensures
      var events := [Event.ReadForStatus(1, d.uuid, d.key, status, now)] + Steps(Reconcile(d.uuid, tar, now)) + [Event.Save(1)];
      var s' := Run(sha, s, events);
      && Puts(s', d.id) == Puts(s, d.id) + [Triple(tar, sha(tar), NextVersion(d.version))]
      && d.id in s'.rows && TripleOf(s'.rows[d.id]) == TripleOf(d)
  {
    var read, put, save := [Event.ReadForStatus(1, d.uuid, d.key, status, now)], Steps(Reconcile(d.uuid, tar, now)), [Event.Save(1)];
    var held := Hold(s, 1, Task.Saving(StatusEdit(d, status, now), false));
    ReachedOne(Step(sha), s, read[0]);
    StaleRead(sha, s, d, status, now);
    FirstUnique(s.rows, s.nextId, WithUuid(d.uuid), d.id);
    PutRunMeanwhile(sha, held, d, tar, now);
    ReachedConcat(Step(sha), s, read, put);
    ReachedConcat(Step(sha), s, read + put, save);
    ReachedOne(Step(sha), Run(sha, held, put), save[0]);
    StaleSave(sha, Run(sha, held, put), d, StatusEdit(d, status, now));
  }

  lemma StaleSave(sha: Bytes -> Digest, s: State, d: Device, edited: Device)
    requires 1 in s.tasks && s.tasks[1] == Task.Saving(edited, false) && edited.id == d.id && TripleOf(edited) == TripleOf(d)
    ensures var s' := Next(sha, s, Event.Save(1));
      s'.puts == s.puts && d.id in s'.rows && TripleOf(s'.rows[d.id]) == TripleOf(d)
  {}

  lemma StaleRead(sha: Bytes -> Digest, s: State, d: Device, status: string, now: int)
    requires TableOk(s.rows, s.nextId) && s.tasks == map[] && d.id in s.rows && s.rows[d.id] == d && d.uuid != "" && d.key != ""
    ensures Next(sha, s, Event.ReadForStatus(1, d.uuid, d.key, status, now)) == Hold(s, 1, Task.Saving(StatusEdit(d, status, now), false))
  {
    ValidateKeyMeans(s.rows, s.nextId, d.uuid, d.key, d);
  }

  /** A complete put while another task waits. */
  lemma PutMeanwhile(sha: Bytes -> Digest, s: State, d: Device, tar: Bytes, now: int)
    requires 0 !in s.tasks && First(s.rows, WithUuid(d.uuid)) == Some(d) && sha(tar) != d.checksum
    ensures Next(sha, Next(sha, Next(sha, s, Event.Plan(0, d.uuid, tar)), Event.ReadForPut(0, now)), Event.Save(0)) ==
      s.(rows := s.rows[d.id := PutEdit(sha, d, tar, NextVersion(d.version), now)],
         puts := s.puts[d.id := Puts(s, d.id) + [Triple(tar, sha(tar), NextVersion(d.version))]])
  {
    PlanStep(sha, s, 0, d.uuid, tar);
    var s1 := Hold(s, 0, Task.Planned(d.uuid, tar, NextVersion(d.version)));
    ReadForPutStep(sha, s1, 0, d, now);
    var stored := PutEdit(sha, d, tar, NextVersion(d.version), now);
    var s2 := Hold(s1, 0, Task.Saving(stored, true));
    SaveStep(sha, s2, 0, stored, true);
    assert s2.tasks - {0} == s.tasks;
  }

  lemma PutRunMeanwhile(sha: Bytes -> Digest, s: State, d: Device, tar: Bytes, now: int)
    requires 0 !in s.tasks && First(s.rows, WithUuid(d.uuid)) == Some(d) && sha(tar) != d.checksum
    ensures Run(sha, s, Steps(Reconcile(d.uuid, tar, now))) ==
      s.(rows := s.rows[d.id := PutEdit(sha, d, tar, NextVersion(d.version), now)],
         puts := s.puts[d.id := Puts(s, d.id) + [Triple(tar, sha(tar), NextVersion(d.version))]])
  {
    ReachedThree(Step(sha), s, Event.Plan(0, d.uuid, tar), Event.ReadForPut(0, now), Event.Save(0));
    PutMeanwhile(sha, s, d, tar, now);
  }

  /** An acknowledgement loses a put too, and passes the lock on the version while it does: it echoes the
      version of the row with another checksum. */
  lemma AckLosesPut(sha: Bytes -> Digest, rows0: Rows, s: State, d: Device, checksum: string, now: int)
    requires TableOk(s.rows, s.nextId) && s.tasks == map[] && d.id in s.rows && s.rows[d.id] == d
    requires HoldsLast(rows0, s, d.id) && checksum != d.checksum
    ensures
      var events := [Event.ReadForAck(0, d.uuid, d.version, checksum, now), Event.Save(0)];
      var s' := Run(sha, s, events);
      && Guarded(Step(sha), s, events, VersionLock())
      && Puts(s', d.id) == Puts(s, d.id) && d.id in s'.rows && !HoldsLast(rows0, s', d.id)
  {
    var read, save := Event.ReadForAck(0, d.uuid, d.version, checksum, now), Event.Save(0);
    var acked := AckEdit(d, d.version, checksum, now);
    FirstUnique(s.rows, s.nextId, WithUuid(d.uuid), d.id);
    var s1 := Next(sha, s, read);
    assert s1 == Hold(s, 0, Task.Saving(acked, false));
    ReachedTwo(Step(sha), s, read, save);
    GuardedTwo(Step(sha), s, read, save, VersionLock());
    SaveStep(sha, s1, 0, acked, false);
  }

  /** The other way round, two Reconciles that planned from the same version both put: the second save fails
      the lock, versions stop counting, and yet the row holds the archive put last. */
  lemma RacingPutsLoseNone(sha: Bytes -> Digest, s: State, d: Device, tar: Bytes, other: Bytes, now: int)
    requires TableOk(s.rows, s.nextId) && s.tasks == map[] && d.id in s.rows && s.rows[d.id] == d
    requires sha(tar) != d.checksum && sha(other) != d.checksum
    ensures
      var front := [Event.Plan(1, d.uuid, other)] + Steps(Reconcile(d.uuid, tar, now)) + [Event.ReadForPut(1, now)];
      var s', v := Run(sha, s, front + [Event.Save(1)]), NextVersion(d.version);
      && Puts(s', d.id) == Puts(s, d.id) + [Triple(tar, sha(tar), v), Triple(other, sha(other), v)]
      && d.id in s'.rows && TripleOf(s'.rows[d.id]) == Triple(other, sha(other), v)
      && !VersionLock()(Run(sha, s, front), Event.Save(1))
  {
    var begun := [Event.Plan(1, d.uuid, other)] + Steps(Reconcile(d.uuid, tar, now));
    var again, save, v := Event.ReadForPut(1, now), Event.Save(1), NextVersion(d.version);
    var first := PutEdit(sha, d, tar, v, now);
    PlanThenPut(sha, s, d, tar, other, now);
    ReplaceOk(s.rows, s.nextId, first);
    SecondPut(sha, Run(sha, s, begun), first, other, v, now);
    LastTwo(sha, s, begun, again, save);
  }

  lemma LastTwo(sha: Bytes -> Digest, s: State, events: seq<Event>, a: Event, b: Event)
    ensures Run(sha, s, events + [a]) == Next(sha, Run(sha, s, events), a)
    ensures Run(sha, s, events + [a] + [b]) == Next(sha, Next(sha, Run(sha, s, events), a), b)
  {
    ReachedConcat(Step(sha), s, events, [a]);
    ReachedOne(Step(sha), Run(sha, s, events), a);
    ReachedConcat(Step(sha), s, events + [a], [b]);
    ReachedOne(Step(sha), Run(sha, s, events + [a]), b);
  }

  lemma PlanThenPut(sha: Bytes -> Digest, s: State, d: Device, tar: Bytes, other: Bytes, now: int)
    requires TableOk(s.rows, s.nextId) && s.tasks == map[] && d.id in s.rows && s.rows[d.id] == d
    requires sha(tar) != d.checksum && sha(other) != d.checksum
    ensures var v := NextVersion(d.version);
      Run(sha, s, [Event.Plan(1, d.uuid, other)] + Steps(Reconcile(d.uuid, tar, now))) ==
        Hold(s, 1, Task.Planned(d.uuid, other, v)).(
          rows := s.rows[d.id := PutEdit(sha, d, tar, v, now)],
          puts := s.puts[d.id := Puts(s, d.id) + [Triple(tar, sha(tar), v)]])
  {
    var plan := Event.Plan(1, d.uuid, other);
    FirstUnique(s.rows, s.nextId, WithUuid(d.uuid), d.id);
    ReachedOne(Step(sha), s, plan);
    PlanStep(sha, s, 1, d.uuid, other);
    PutRunMeanwhile(sha, Next(sha, s, plan), d, tar, now);
    ReachedConcat(Step(sha), s, [plan], Steps(Reconcile(d.uuid, tar, now)));
  }

  lemma SecondPut(sha: Bytes -> Digest, s: State, d: Device, tar: Bytes, version: int, now: int)
    requires TableOk(s.rows, s.nextId) && d.id in s.rows && s.rows[d.id] == d && d.version == version
    requires 1 in s.tasks && s.tasks[1] == Task.Planned(d.uuid, tar, version)
    ensures var s1 := Next(sha, s, Event.ReadForPut(1, now));
      var s2 := Next(sha, s1, Event.Save(1));
      && !VersionLock()(s1, Event.Save(1))
      && Puts(s2, d.id) == Puts(s, d.id) + [Triple(tar, sha(tar), version)]
      && d.id in s2.rows && TripleOf(s2.rows[d.id]) == Triple(tar, sha(tar), version)
  {
    FirstUnique(s.rows, s.nextId, WithUuid(d.uuid), d.id);
    ReadForPutStep(sha, s, 1, d, now);
  }
}
