/** How long a device stays online over every interleaving: MarkSeen and the sweeper update columns, but
    whole-row saves carry the columns their snapshot was read with. */
module PresenceRuns {
  import opened Base
  import opened DeviceStore
  import opened DeviceRuns
  import opened Runs

  predicate Present(d: Device, since: int) {
    d.status == Online && d.lastSeen.Some? && d.lastSeen.value >= since
  }

  /** Row i is online and was last seen at since or later. */
  function StaysPresent(i: nat, since: int): State -> bool {
    (s: State) => i in s.rows && Present(s.rows[i], since)
  }

  /** What must not happen: a save of a snapshot that is offline or was seen earlier, a mark with an earlier
      time, a sweep that cuts later than the row was seen. */
  function Undisturbed(i: nat, since: int): (State, Event) -> bool {
    (s: State, e: Event) =>
      match e
      case Save(t) =>
        t in s.tasks && s.tasks[t].Saving? && s.tasks[t].snapshot.id == i ==> Present(s.tasks[t].snapshot, since)
      case MarkSeen(uuid, now) => i in s.rows && s.rows[i].uuid == uuid ==> since <= now
      case Sweep(cut) => i in s.rows && s.rows[i].lastSeen.Some? ==> cut <= s.rows[i].lastSeen.value
      case _ => true
  }

  lemma OthersKeepPresence(sha: Bytes -> Digest, s: State, e: Event, i: nat)
    requires Identity(s) && i in s.rows && !e.Save? && !e.MarkSeen? && !e.Sweep?
    ensures i in Next(sha, s, e).rows
    ensures Next(sha, s, e).rows[i].status == s.rows[i].status && Next(sha, s, e).rows[i].lastSeen == s.rows[i].lastSeen
  {
    if Begins(e) {
      BeginKeeps(sha, s, e);
    } else if !e.CreateAdopted? && !e.InsertMissed? && !e.UpdateFound? {
      OthersKeepRows(sha, s, e);
    }
  }

  lemma NextPresent(sha: Bytes -> Digest, s: State, e: Event, i: nat, since: int)
    requires Identity(s) && StaysPresent(i, since)(s)
    ensures StaysPresent(i, since)(Next(sha, s, e)) <==> Undisturbed(i, since)(s, e)
  {
    if !e.Save? && !e.MarkSeen? && !e.Sweep? {
      OthersKeepPresence(sha, s, e, i);
    }
  }

  /** Over any interleaving of all handlers a device that is present stays so after every event, if and only
      if no event disturbs it. */
  lemma PresenceIff(sha: Bytes -> Digest, s: State, events: seq<Event>, i: nat, since: int)
    requires Identity(s) && StaysPresent(i, since)(s)
    ensures Throughout(Step(sha), s, events, StaysPresent(i, since)) <==> Guarded(Step(sha), s, events, Undisturbed(i, since))
  {
    var sound := (x: State) => Identity(x);
    forall x, e | sound(x) ensures sound(Step(sha)(x, e)) {
      NextIdentity(sha, x, e);
    }
    forall x, e | sound(x) && StaysPresent(i, since)(x)
      ensures StaysPresent(i, since)(Step(sha)(x, e)) <==> Undisturbed(i, since)(x, e)
    {
      NextPresent(sha, x, e, i, since);
    }
    ThroughoutIff(Step(sha), s, events, sound, StaysPresent(i, since), Undisturbed(i, since));
  }

  // ---- the same, told at the reads ----

  predicate TaskPresent(i: nat, since: int, task: Task) {
    task.Saving? && task.snapshot.id == i ==> Present(task.snapshot, since)
  }

  /** Row i is present, and so is it in every snapshot about to be saved. */
  function AllPresent(i: nat, since: int): State -> bool {
    (s: State) => StaysPresent(i, since)(s) && forall t | t in s.tasks :: TaskPresent(i, since, s.tasks[t])
  }

  predicate Finds(s: State, f: Device -> bool, i: nat) {
    First(s.rows, f).Some? && First(s.rows, f).value.id == i
  }

  /** What must not happen: a status report that says offline or an earlier time, an adoption or a mark with
      an earlier time, a sweep that cuts later than the row was seen. Saves need no condition. */
  function PresentReads(i: nat, since: int): (State, Event) -> bool {
    (s: State, e: Event) =>
      match e
      case ReadForStatus(t, uuid, key, status, now) =>
        t !in s.tasks && Finds(s, Matching(uuid, key), i) ==>
          Lower(TrimSpace(status)) !in {"error", "failed", "offline"} && since <= now
      case ReadForAdopt(t, a, now) => t !in s.tasks && Finds(s, WithUuid(a.uuid), i) ==> since <= now
      case MarkSeen(uuid, now) => i in s.rows && s.rows[i].uuid == uuid ==> since <= now
      case Sweep(cut) => i in s.rows && s.rows[i].lastSeen.Some? ==> cut <= s.rows[i].lastSeen.value
      case _ => true
  }

  lemma FoundPresent(s: State, f: Device -> bool, i: nat, since: int)
    requires Identity(s) && AllPresent(i, since)(s)
    ensures Finds(s, f, i) ==> Present(First(s.rows, f).value, since)
  {
    FirstOk(s, f);
    if Finds(s, f, i) {
      assert StaysPresent(i, since)(s) && First(s.rows, f).value == s.rows[i];
    }
  }

  lemma BeginPresent(sha: Bytes -> Digest, s: State, e: Event, i: nat, since: int)
    requires Identity(s) && AllPresent(i, since)(s) && Begins(e) && e.t !in s.tasks
    ensures (e.t in Begin(sha, s, e).tasks ==> TaskPresent(i, since, Begin(sha, s, e).tasks[e.t])) <==> PresentReads(i, since)(s, e)
  {
    match e
    case ReadForStatus(_, uuid, key, _, _) => FoundPresent(s, Matching(uuid, key), i, since);
    case ReadForApplied(_, uuid, key, _, _) => FoundPresent(s, Matching(uuid, key), i, since);
    case ReadForAdopt(_, a, _) => FoundPresent(s, WithUuid(a.uuid), i, since);
    case ReadForAck(_, uuid, _, _, _) => FoundPresent(s, WithUuid(uuid), i, since);
    case _ =>
  }

  lemma BeginAllPresent(sha: Bytes -> Digest, s: State, e: Event, i: nat, since: int)
    requires Identity(s) && AllPresent(i, since)(s) && Begins(e)
    ensures AllPresent(i, since)(Next(sha, s, e)) <==> PresentReads(i, since)(s, e)
  {
    if e.t !in s.tasks {
      BeginKeeps(sha, s, e);
      BeginPresent(sha, s, e, i, since);
      var s' := Begin(sha, s, e);
      assert StaysPresent(i, since)(s) && StaysPresent(i, since)(s');
      forall t | t in s'.tasks && t != e.t ensures TaskPresent(i, since, s'.tasks[t]) {
        BeginTasks(sha, s, e, t);
        assert TaskPresent(i, since, s.tasks[t]);
      }
      assert AllPresent(i, since)(s') <==> (e.t in s'.tasks ==> TaskPresent(i, since, s'.tasks[e.t]));
    }
  }

  lemma ContinueTasksPresent(sha: Bytes -> Digest, s: State, e: Event, i: nat, since: int)
    requires Identity(s) && AllPresent(i, since)(s) && !Begins(e)
    ensures forall t | t in Continue(sha, s, e).tasks :: TaskPresent(i, since, Continue(sha, s, e).tasks[t])
  {
    forall t | t in Continue(sha, s, e).tasks ensures TaskPresent(i, since, Continue(sha, s, e).tasks[t]) {
      if e.ReadForPut? && e.t == t && t in s.tasks && s.tasks[t].Planned? {
        FoundPresent(s, WithUuid(s.tasks[t].uuid), i, since);
      } else {
        KeptTask(sha, s, e, t);
      }
    }
  }

  lemma NextAllPresent(sha: Bytes -> Digest, s: State, e: Event, i: nat, since: int)
    requires Identity(s) && AllPresent(i, since)(s)
    ensures AllPresent(i, since)(Next(sha, s, e)) <==> PresentReads(i, since)(s, e)
  {
    if Begins(e) {
      BeginAllPresent(sha, s, e, i, since);
    } else {
      ContinueTasksPresent(sha, s, e, i, since);
      NextPresent(sha, s, e, i, since);
      assert e.Save? && e.t in s.tasks ==> TaskPresent(i, since, s.tasks[e.t]);
    }
  }

  /** Over any interleaving, from a present row without a stale snapshot in flight: row and snapshots stay
      present after every event, if and only if no report or adoption that reads the row is offline or
      backdated, no mark is backdated and no sweep cuts later. */
  lemma PresentReadsIff(sha: Bytes -> Digest, s: State, events: seq<Event>, i: nat, since: int)
    requires Identity(s) && AllPresent(i, since)(s)
    ensures Throughout(Step(sha), s, events, AllPresent(i, since)) <==> Guarded(Step(sha), s, events, PresentReads(i, since))
  {
    var sound := (x: State) => Identity(x);
    forall x, e | sound(x) ensures sound(Step(sha)(x, e)) {
      NextIdentity(sha, x, e);
    }
    forall x, e | sound(x) && AllPresent(i, since)(x)
      ensures AllPresent(i, since)(Step(sha)(x, e)) <==> PresentReads(i, since)(x, e)
    {
      NextAllPresent(sha, x, e, i, since);
    }
    ThroughoutIff(Step(sha), s, events, sound, AllPresent(i, since), PresentReads(i, since));
  }

  // ---- a run that disturbs ----

  lemma StaleReport(sha: Bytes -> Digest, s: State, d: Device, localSum: string, now: int)
    requires TableOk(s.rows, s.nextId) && s.tasks == map[] && d.id in s.rows && s.rows[d.id] == d && d.uuid != "" && d.key != ""
    ensures Next(sha, s, ReadForApplied(0, d.uuid, d.key, localSum, now)) == Hold(s, 0, Saving(AppliedEdit(d, localSum, now), false))
  {
    ValidateKeyMeans(s.rows, s.nextId, d.uuid, d.key, d);
  }

  lemma SavedBack(sha: Bytes -> Digest, s: State, edited: Device, uuid: string, now: int)
    requires 0 in s.tasks && s.tasks[0] == Saving(edited, false)
    ensures var s' := Next(sha, Next(sha, s, MarkSeen(uuid, now)), Save(0)); edited.id in s'.rows && s'.rows[edited.id] == edited
  {}

  lemma SweptOff(sha: Bytes -> Digest, s: State, i: nat, cut: int)
    requires i in s.rows && s.rows[i].lastSeen.Some? && s.rows[i].lastSeen.value < cut
    ensures i in Next(sha, s, Sweep(cut)).rows && Next(sha, s, Sweep(cut)).rows[i].status == Offline
  {}

  /** A run that disturbs it: an applied report reads the row, the device is marked as seen, the report saves
      its older time back, and the next sweep takes the device offline although it was seen after the cut. */
  lemma StaleSaveUndoesSeen(sha: Bytes -> Digest, s: State, d: Device, localSum: string, now: int, cut: int)
    requires TableOk(s.rows, s.nextId) && s.tasks == map[] && d.id in s.rows && s.rows[d.id] == d
    requires d.uuid != "" && d.key != "" && d.lastSeen.Some? && d.lastSeen.value < cut <= now
    ensures var s' := Run(sha, s, [ReadForApplied(0, d.uuid, d.key, localSum, now), MarkSeen(d.uuid, now), Save(0), Sweep(cut)]);
      d.id in s'.rows && s'.rows[d.id].status == Offline
  {
    var read, mark := ReadForApplied(0, d.uuid, d.key, localSum, now), MarkSeen(d.uuid, now);
    ReachedFour(Step(sha), s, read, mark, Save(0), Sweep(cut));
    StaleReport(sha, s, d, localSum, now);
    SavedBack(sha, Next(sha, s, read), AppliedEdit(d, localSum, now), d.uuid, now);
    SweptOff(sha, Next(sha, Next(sha, Next(sha, s, read), mark), Save(0)), d.id, cut);
  }
}
