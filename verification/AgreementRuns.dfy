/** Which runs keep archive and checksum together, acknowledgements included. AckConfigOW stores what the
    agent sends, so it is the one statement that can break them apart. */
module AgreementRuns {
  import opened Base
  import opened DeviceStore
  import opened DeviceRuns
  import opened Runs

  /** A condition on an archive and the checksum stored with it. */
  type Pairing = (Bytes, string) -> bool

  /** Empty rows and whatever PutConfigTar writes meet the condition. */
  ghost predicate Ordinary(sha: Bytes -> Digest, fits: Pairing) {
    fits([], "") && forall tar :: fits(tar, sha(tar))
  }

  function Fit(fits: Pairing): Device -> bool {
    (d: Device) => fits(d.archive, d.checksum)
  }

  predicate TaskFits(fits: Pairing, task: Task) {
    task.Saving? ==> Fit(fits)(task.snapshot)
  }

  /** Every row and every snapshot about to be saved meets the condition. */
  ghost function AllFit(fits: Pairing): State -> bool {
    (s: State) => (forall i | i in s.rows :: Fit(fits)(s.rows[i])) && (forall t | t in s.tasks :: TaskFits(fits, s.tasks[t]))
  }

  /** What an acknowledgement has to bring: a checksum that fits the archive of the row it finds. */
  function AckFits(fits: Pairing): (State, Event) -> bool {
    (s: State, e: Event) =>
      e.ReadForAck? && e.t !in s.tasks ==>
        match First(s.rows, WithUuid(e.uuid)) case None => true case Some(d) => fits(d.archive, e.checksum)
  }

  lemma FoundFits(fits: Pairing, s: State, f: Device -> bool)
    requires TableOk(s.rows, s.nextId) && AllFit(fits)(s)
    ensures First(s.rows, f).Some? ==> Fit(fits)(First(s.rows, f).value)
  {
    FirstOk(s, f);
  }

  lemma BeginFits(sha: Bytes -> Digest, fits: Pairing, s: State, e: Event)
    requires Identity(s) && Ordinary(sha, fits) && AllFit(fits)(s) && Begins(e) && e.t !in s.tasks
    ensures e.t in Begin(sha, s, e).tasks ==> (TaskFits(fits, Begin(sha, s, e).tasks[e.t]) <==> AckFits(fits)(s, e))
    ensures e.t !in Begin(sha, s, e).tasks ==> AckFits(fits)(s, e)
  {
    match e
    case ReadForStatus(_, uuid, key, _, _) => FoundFits(fits, s, Matching(uuid, key));
    case ReadForApplied(_, uuid, key, _, _) => FoundFits(fits, s, Matching(uuid, key));
    case ReadForAdopt(_, a, _) => FoundFits(fits, s, WithUuid(a.uuid));
    case _ =>
  }

  lemma BeginAllFit(sha: Bytes -> Digest, fits: Pairing, s: State, e: Event)
    requires Identity(s) && Ordinary(sha, fits) && AllFit(fits)(s) && Begins(e)
    ensures AllFit(fits)(Next(sha, s, e)) <==> AckFits(fits)(s, e)
  {
    if e.t !in s.tasks {
      BeginKeeps(sha, s, e);
      BeginFits(sha, fits, s, e);
      var s' := Begin(sha, s, e);
      forall t | t in s'.tasks && t != e.t ensures TaskFits(fits, s'.tasks[t]) {
        BeginTasks(sha, s, e, t);
      }
    }
  }

  lemma ContinueTasksFit(sha: Bytes -> Digest, fits: Pairing, s: State, e: Event)
    requires Ordinary(sha, fits) && AllFit(fits)(s) && !Begins(e)
    ensures forall t | t in Continue(sha, s, e).tasks :: TaskFits(fits, Continue(sha, s, e).tasks[t])
  {
    forall t | t in Continue(sha, s, e).tasks ensures TaskFits(fits, Continue(sha, s, e).tasks[t]) {
      if !(e.ReadForPut? && e.t == t && t in s.tasks && s.tasks[t].Planned?) {
        KeptTask(sha, s, e, t);
      }
    }
  }

  lemma SameRowsFit(sha: Bytes -> Digest, fits: Pairing, s: State, s': State)
    requires Ordinary(sha, fits) && AllFit(fits)(s) && SameConfigs(s, s')
    ensures forall i | i in s'.rows :: Fit(fits)(s'.rows[i])
  {
    forall i | i in s'.rows ensures Fit(fits)(s'.rows[i]) {
      assert TripleOf(s'.rows[i]) == if i in s.rows then TripleOf(s.rows[i]) else Triple([], "", 0);
    }
  }

  lemma ContinueAllFit(sha: Bytes -> Digest, fits: Pairing, s: State, e: Event)
    requires Identity(s) && Ordinary(sha, fits) && AllFit(fits)(s) && !Begins(e)
    ensures AllFit(fits)(Next(sha, s, e))
  {
    ContinueTasksFit(sha, fits, s, e);
    if !e.Save? {
      OthersSame(sha, s, e);
      SameRowsFit(sha, fits, s, Continue(sha, s, e));
    } else if e.t in s.tasks {
      assert TaskFits(fits, s.tasks[e.t]);
    }
  }

  /** Of all statements only the acknowledgement's read can break the condition, and it does exactly when
      its checksum does not fit the archive it found. */
  lemma NextAllFit(sha: Bytes -> Digest, fits: Pairing, s: State, e: Event)
    requires Identity(s) && Ordinary(sha, fits) && AllFit(fits)(s)
    ensures AllFit(fits)(Next(sha, s, e)) <==> AckFits(fits)(s, e)
  {
    if Begins(e) {
      BeginAllFit(sha, fits, s, e);
    } else {
      ContinueAllFit(sha, fits, s, e);
    }
  }

  ghost function Identified(): State -> bool { (s: State) => Identity(s) }

  lemma RunAllFit(sha: Bytes -> Digest, fits: Pairing, s: State, events: seq<Event>)
    requires Identity(s) && Ordinary(sha, fits) && AllFit(fits)(s)
    ensures Throughout(Step(sha), s, events, AllFit(fits)) <==> Guarded(Step(sha), s, events, AckFits(fits))
  {
    forall x, e | Identified()(x) ensures Identified()(Step(sha)(x, e)) {
      NextIdentity(sha, x, e);
    }
    forall x, e | Identified()(x) && AllFit(fits)(x) ensures AllFit(fits)(Step(sha)(x, e)) <==> AckFits(fits)(x, e) {
      NextAllFit(sha, fits, x, e);
    }
    ThroughoutIff(Step(sha), s, events, Identified(), AllFit(fits), AckFits(fits));
  }

  // ---- agreement ----

  /** The checksum is that of the archive, or there is neither. */
  function Agreeing(sha: Bytes -> Digest): Pairing {
    (archive: Bytes, checksum: string) => checksum == sha(archive) || (archive == [] && checksum == "")
  }

  predicate Agree(sha: Bytes -> Digest, d: Device) {
    Agreeing(sha)(d.archive, d.checksum)
  }

  /** Over any interleaving of all handlers from an agreeing table: archive and checksum agree in every row
      and in every snapshot about to be saved, after every event, if and only if every acknowledgement sends
      the checksum of the archive it finds, or none where there is none. */
  lemma AlwaysAgree(sha: Bytes -> Digest, rows: Rows, nextId: nat, events: seq<Event>)
    requires TableOk(rows, nextId) && forall i | i in rows :: Agree(sha, rows[i])
    ensures Throughout(Step(sha), Start(rows, nextId), events, AllFit(Agreeing(sha)))
       <==> Guarded(Step(sha), Start(rows, nextId), events, AckFits(Agreeing(sha)))
  {
    RunAllFit(sha, Agreeing(sha), Start(rows, nextId), events);
  }

  // ---- serving ----

  /** sum[:8] is in range whenever there is something to serve. */
  function Servable(): Pairing {
    (archive: Bytes, checksum: string) => archive == [] || |checksum| >= 8
  }

  /** Over any interleaving no row or snapshot is one whose download would slice out of range, if and only if
      no acknowledgement sends fewer than eight characters for a row with an archive. */
  lemma AlwaysServable(sha: Bytes -> Digest, rows: Rows, nextId: nat, events: seq<Event>)
    requires TableOk(rows, nextId) && forall i | i in rows :: Servable()(rows[i].archive, rows[i].checksum)
    ensures Throughout(Step(sha), Start(rows, nextId), events, AllFit(Servable()))
       <==> Guarded(Step(sha), Start(rows, nextId), events, AckFits(Servable()))
  {
    RunAllFit(sha, Servable(), Start(rows, nextId), events);
  }

  /** So with such acknowledgements what GetConfig finds has its own checksum after every run. */
  lemma ServedAgrees(sha: Bytes -> Digest, rows: Rows, nextId: nat, events: seq<Event>, uuid: string, key: string)
    requires TableOk(rows, nextId) && forall i | i in rows :: Agree(sha, rows[i])
    requires Guarded(Step(sha), Start(rows, nextId), events, AckFits(Agreeing(sha)))
    ensures var d := First(Run(sha, Start(rows, nextId), events).rows, Matching(uuid, key));
      d.Some? && d.value.archive != [] ==> d.value.checksum == sha(d.value.archive)
  {
    AlwaysAgree(sha, rows, nextId, events);
    ThroughoutEnd(Step(sha), Start(rows, nextId), events, AllFit(Agreeing(sha)));
    RunIdentity(sha, Start(rows, nextId), events);
    FoundFits(Agreeing(sha), Run(sha, Start(rows, nextId), events), Matching(uuid, key));
  }

  // ---- acknowledgements that break it ----

  /** What one uninterrupted acknowledgement leaves in the row it finds. */
  lemma AckAlone(sha: Bytes -> Digest, s: State, d: Device, version: int, checksum: string, now: int)
    requires TableOk(s.rows, s.nextId) && s.tasks == map[] && d.id in s.rows && s.rows[d.id] == d
    ensures var s' := Run(sha, s, [ReadForAck(0, d.uuid, version, checksum, now), Save(0)]);
      s'.rows == s.rows[d.id := AckEdit(d, version, checksum, now)]
  {
    var read, save := ReadForAck(0, d.uuid, version, checksum, now), Save(0);
    FirstUnique(s.rows, s.nextId, WithUuid(d.uuid), d.id);
    var s1 := Next(sha, s, read);
    assert s1 == Hold(s, 0, Saving(AckEdit(d, version, checksum, now), false));
    ReachedTwo(Step(sha), s, read, save);
  }

  /** GetConfigNoKey announces the rendered tree's hash behind a "sha256:" prefix. */
  function Announced(h: Digest): string { "sha256:" + h }

  /** An agent that acknowledges the very checksum the signed protocol announced breaks the agreement, whatever
      was rendered; and one that sends fewer than eight characters makes the next download of an archive fail. */
  lemma AckBreaks(sha: Bytes -> Digest, s: State, d: Device, version: int, checksum: string, now: int)
    requires TableOk(s.rows, s.nextId) && s.tasks == map[] && d.id in s.rows && s.rows[d.id] == d
    ensures var s' := Run(sha, s, [ReadForAck(0, d.uuid, version, checksum, now), Save(0)]);
      && d.id in s'.rows
      && ((exists h :: checksum == Announced(h)) ==> !Agree(sha, s'.rows[d.id]))
      && (d.archive != [] && |checksum| < 8 ==> !Servable()(s'.rows[d.id].archive, s'.rows[d.id].checksum))
  {
    AckAlone(sha, s, d, version, checksum, now);
  }
}
