/** Every interleaving of the handlers over the device table: a handler's reads and its whole-row save
    are separate steps, and other handlers run in between. */
module DeviceRuns {
  import opened Base
  import opened DeviceStore
  import opened Runs

  /** Where a handler stands between two of its statements. */
  datatype Task =
    | Planned(uuid: string, tar: Bytes, version: int)
    | Saving(snapshot: Device, put: bool)
    | AdoptMissed(row: Device)
    | Found(id: nat, result: Registered, name: string, model: string, mac: string)
    | Missed(row: Device)
    | Conflicted(key: string)

  /** What PutConfigTar writes in one go. */
  datatype Triple = Triple(archive: Bytes, checksum: string, version: int)

  /** puts and registered record, per row and in order, what was put and what registrations returned. */
  datatype State = State(rows: Rows, nextId: nat, tasks: map<int, Task>, puts: map<nat, seq<Triple>>, registered: seq<Registered>)

  datatype Event =
    | Plan(t: int, uuid: string, tar: Bytes)
    | ReadForPut(t: int, now: int)
    | ReadForStatus(t: int, uuid: string, key: string, status: string, now: int)
    | ReadForApplied(t: int, uuid: string, key: string, localSum: string, now: int)
    | ReadForAdopt(t: int, a: AdoptInput, now: int)
    | ReadForAck(t: int, uuid: string, version: int, checksum: string, now: int)
    | Save(t: int)
    | CreateAdopted(t: int)
    | MarkSeen(uuid: string, now: int)
    | Sweep(cut: int)
    | LookUpKey(t: int, key: string, uuid: string, name: string, model: string, mac: string)
    | UpdateFound(t: int)
    | InsertMissed(t: int)
    | Reread(t: int)

  function TripleOf(d: Device): Triple { Triple(d.archive, d.checksum, d.version) }

  function Puts(s: State, id: nat): seq<Triple> { if id in s.puts then s.puts[id] else [] }

  /** The version Reconcile gives the archive it is about to store. */
  function NextVersion(version: int): int { if version + 1 <= 0 then 1 else version + 1 }

  function Start(rows: Rows, nextId: nat): State { State(rows, nextId, map[], map[], []) }

  function Drop(s: State, t: int): State { s.(tasks := s.tasks - {t}) }

  function Hold(s: State, t: int, task: Task): State { s.(tasks := s.tasks[t := task]) }

  function HoldSnapshot(s: State, t: int, d: Option<Device>, edit: Device -> Device): State {
    if d.None? then s else Hold(s, t, Saving(edit(d.value), false))
  }

  function Inserted(s: State, row: Device): State {
    s.(rows := s.rows[s.nextId := row.(id := s.nextId)], nextId := s.nextId + 1)
  }

  /** The value Register will write over what it read, empty when there is nothing to write. */
  function Change(read: string, given: string): string { if given == read then "" else given }

  /** A handler's first statement. Ids in use are left alone. */
  function Begin(sha: Bytes -> Digest, s: State, e: Event): State {
    match e
    case Plan(t, uuid, tar) =>
      var d := First(s.rows, WithUuid(uuid));
      if d.None? || sha(tar) == d.value.checksum then s
      else Hold(s, t, Planned(uuid, tar, NextVersion(d.value.version)))
    case ReadForStatus(t, uuid, key, status, now) =>
      HoldSnapshot(s, t, First(s.rows, Matching(uuid, key)), d => StatusEdit(d, status, now))
    case ReadForApplied(t, uuid, key, localSum, now) =>
      HoldSnapshot(s, t, First(s.rows, Matching(uuid, key)), d => AppliedEdit(d, localSum, now))
    case ReadForAdopt(t, a, now) =>
      var d := First(s.rows, WithUuid(a.uuid));
      if d.None? then Hold(s, t, AdoptMissed(AdoptNew(a, now))) else Hold(s, t, Saving(AdoptEdit(d.value, a, now), false))
    case ReadForAck(t, uuid, version, checksum, now) =>
      HoldSnapshot(s, t, First(s.rows, WithUuid(uuid)), d => AckEdit(d, version, checksum, now))
    case LookUpKey(t, key, uuid, name, model, mac) =>
      var d := First(s.rows, WithKey(key));
      if d.Some? then
        var row := d.value;
        Hold(s, t, Found(row.id, Registered(row.uuid, key, false), Change(row.name, name), Change(row.model, model), Change(row.mac, mac)))
      else if key == "" then s
      else Hold(s, t, Missed(NewDevice(uuid, key, name, model, mac)))
    case _ => s
  }

  /** A later statement of a handler. Events that do not fit the task leave the state alone. */
  function Continue(sha: Bytes -> Digest, s: State, e: Event): State {
    match e
    case ReadForPut(t, now) =>
      if t in s.tasks && s.tasks[t].Planned? then
        var d := First(s.rows, WithUuid(s.tasks[t].uuid));
        if d.None? then Drop(s, t) else Hold(s, t, Saving(PutEdit(sha, d.value, s.tasks[t].tar, s.tasks[t].version, now), true))
      else s
    case Save(t) =>
      if t in s.tasks && s.tasks[t].Saving? then
        var d := s.tasks[t].snapshot;
        Drop(s, t).(rows := s.rows[d.id := d],
                    puts := if s.tasks[t].put then s.puts[d.id := Puts(s, d.id) + [TripleOf(d)]] else s.puts)
      else s
    case CreateAdopted(t) =>
      if t in s.tasks && s.tasks[t].AdoptMissed? then
        var row := s.tasks[t].row;
        if Taken(s.rows, WithUuid(row.uuid)) || Taken(s.rows, WithKey(row.key)) then Drop(s, t) else Inserted(Drop(s, t), row)
      else s
    case UpdateFound(t) =>
      if t in s.tasks && s.tasks[t].Found? && s.tasks[t].id in s.rows then
        var f := s.tasks[t];
        Drop(s, t).(rows := s.rows[f.id := RegisterEdit(s.rows[f.id], f.name, f.model, f.mac)], registered := s.registered + [f.result])
      else s
    case InsertMissed(t) =>
      if t in s.tasks && s.tasks[t].Missed? then
        var row := s.tasks[t].row;
        if Taken(s.rows, WithKey(row.key)) then Hold(s, t, Conflicted(row.key))
        else if Taken(s.rows, WithUuid(row.uuid)) then Drop(s, t)
        else Inserted(Drop(s, t), row).(registered := s.registered + [Registered(row.uuid, row.key, true)])
      else s
    case Reread(t) =>
      if t in s.tasks && s.tasks[t].Conflicted? then
        var d := First(s.rows, WithKey(s.tasks[t].key));
        if d.None? then Drop(s, t) else Drop(s, t).(registered := s.registered + [Registered(d.value.uuid, s.tasks[t].key, false)])
      else s
    case MarkSeen(uuid, now) =>
      s.(rows := SeenRows(s.rows, uuid, now))
    case Sweep(cut) => s.(rows := SweepRows(s.rows, cut))
    case _ => s
  }

  predicate Begins(e: Event) {
    e.Plan? || e.ReadForStatus? || e.ReadForApplied? || e.ReadForAdopt? || e.ReadForAck? || e.LookUpKey?
  }

  function Next(sha: Bytes -> Digest, s: State, e: Event): State {
    if Begins(e) then (if e.t in s.tasks then s else Begin(sha, s, e)) else Continue(sha, s, e)
  }

  function Step(sha: Bytes -> Digest): (State, Event) -> State {
    (s: State, e: Event) => Next(sha, s, e)
  }

  function Run(sha: Bytes -> Digest, s: State, events: seq<Event>): State {
    Reached(Step(sha), s, events)
  }

  // ---- identity: rows never change uuid or key, snapshots belong to their rows ----

  predicate SnapshotOf(rows: Rows, d: Device) {
    d.id in rows && d.uuid == rows[d.id].uuid && d.key == rows[d.id].key
  }

  predicate Holds(rows: Rows, r: Registered) {
    exists i | i in rows :: rows[i].uuid == r.uuid && rows[i].key == r.key
  }

  predicate TaskOk(rows: Rows, task: Task) {
    match task
    case Saving(d, _) => SnapshotOf(rows, d)
    case Found(id, r, _, _, _) => id in rows && rows[id].uuid == r.uuid && rows[id].key == r.key && !r.isNew
    case AdoptMissed(row) => TripleOf(row) == Triple([], "", 0)
    case Missed(row) => TripleOf(row) == Triple([], "", 0) && row.key != ""
    case _ => true
  }

  /** Among the results so far, one registration at most was told that it is new. */
  predicate OneNew(registered: seq<Registered>) {
    forall i, j | 0 <= i < j < |registered| && registered[i].key == registered[j].key :: !registered[j].isNew
  }

  ghost predicate Identity(s: State) {
    && TableOk(s.rows, s.nextId)
    && (forall t | t in s.tasks :: TaskOk(s.rows, s.tasks[t]))
    && (forall r | r in s.registered :: Holds(s.rows, r))
    && OneNew(s.registered)
  }

  /** Every row of rows is in later, with the same uuid and key. */
  predicate Extends(rows: Rows, later: Rows) {
    forall i | i in rows :: i in later && later[i].uuid == rows[i].uuid && later[i].key == rows[i].key
  }

  lemma ReplaceOk(rows: Rows, nextId: nat, d: Device)
    requires TableOk(rows, nextId) && SnapshotOf(rows, d)
    ensures TableOk(rows[d.id := d], nextId) && Extends(rows, rows[d.id := d])
  {}

  lemma InsertOk(rows: Rows, nextId: nat, d: Device)
    requires TableOk(rows, nextId) && d.id == nextId
    requires !Taken(rows, WithUuid(d.uuid)) && !Taken(rows, WithKey(d.key))
    ensures TableOk(rows[nextId := d], nextId + 1) && Extends(rows, rows[nextId := d])
  {
    forall i | i in rows ensures rows[i].uuid != d.uuid && rows[i].key != d.key {
      assert !WithUuid(d.uuid)(rows[i]) && !WithKey(d.key)(rows[i]);
    }
  }

  lemma ColumnsOk(rows: Rows, nextId: nat, later: Rows)
    requires TableOk(rows, nextId) && rows.Keys == later.Keys
    requires forall i | i in rows :: later[i].id == rows[i].id && later[i].uuid == rows[i].uuid && later[i].key == rows[i].key
    ensures TableOk(later, nextId) && Extends(rows, later)
  {}

  lemma BeginKeeps(sha: Bytes -> Digest, s: State, e: Event)
    ensures var s' := Begin(sha, s, e);
      s'.rows == s.rows && s'.nextId == s.nextId && s'.puts == s.puts && s'.registered == s.registered
  {}

  ghost predicate Grows(s: State, s': State) {
    Extends(s.rows, s'.rows) && TableOk(s'.rows, s'.nextId)
  }

  lemma SaveGrows(sha: Bytes -> Digest, s: State, t: int)
    requires Identity(s)
    ensures Grows(s, Continue(sha, s, Save(t)))
  {
    if t in s.tasks && s.tasks[t].Saving? {
      assert TaskOk(s.rows, s.tasks[t]);
      ReplaceOk(s.rows, s.nextId, s.tasks[t].snapshot);
    }
  }

  lemma CreateGrows(sha: Bytes -> Digest, s: State, t: int)
    requires Identity(s)
    ensures Grows(s, Continue(sha, s, CreateAdopted(t)))
  {
    if t in s.tasks && s.tasks[t].AdoptMissed? {
      var row := s.tasks[t].row;
      if !Taken(s.rows, WithUuid(row.uuid)) && !Taken(s.rows, WithKey(row.key)) {
        InsertOk(s.rows, s.nextId, row.(id := s.nextId));
      }
    }
  }

  lemma InsertGrows(sha: Bytes -> Digest, s: State, t: int)
    requires Identity(s)
    ensures Grows(s, Continue(sha, s, InsertMissed(t)))
  {
    if t in s.tasks && s.tasks[t].Missed? {
      var row := s.tasks[t].row;
      if !Taken(s.rows, WithUuid(row.uuid)) && !Taken(s.rows, WithKey(row.key)) {
        InsertOk(s.rows, s.nextId, row.(id := s.nextId));
      }
    }
  }

  lemma UpdateGrows(sha: Bytes -> Digest, s: State, t: int)
    requires Identity(s)
    ensures Grows(s, Continue(sha, s, UpdateFound(t)))
  {
    if t in s.tasks && s.tasks[t].Found? && s.tasks[t].id in s.rows {
      var f := s.tasks[t];
      ReplaceOk(s.rows, s.nextId, RegisterEdit(s.rows[f.id], f.name, f.model, f.mac));
    }
  }

  lemma SeenGrows(s: State, uuid: string, now: int)
    requires TableOk(s.rows, s.nextId)
    ensures Grows(s, s.(rows := SeenRows(s.rows, uuid, now)))
  {
    ColumnsOk(s.rows, s.nextId, SeenRows(s.rows, uuid, now));
  }

  lemma SweepGrows(s: State, cut: int)
    requires TableOk(s.rows, s.nextId)
    ensures Grows(s, s.(rows := SweepRows(s.rows, cut)))
  {
    ColumnsOk(s.rows, s.nextId, SweepRows(s.rows, cut));
  }

  /** No statement of any handler removes a row, changes a uuid or key, or breaks a unique index. */
  lemma NextGrows(sha: Bytes -> Digest, s: State, e: Event)
    requires Identity(s)
    ensures Grows(s, Next(sha, s, e))
  {
    if Begins(e) {
      BeginKeeps(sha, s, e);
    } else {
      match e
      case Save(t) => SaveGrows(sha, s, t);
      case CreateAdopted(t) => CreateGrows(sha, s, t);
      case InsertMissed(t) => InsertGrows(sha, s, t);
      case UpdateFound(t) => UpdateGrows(sha, s, t);
      case MarkSeen(uuid, now) => SeenGrows(s, uuid, now);
      case Sweep(cut) => SweepGrows(s, cut);
      case _ => OthersKeepRows(sha, s, e);
    }
  }

  lemma OthersKeepRows(sha: Bytes -> Digest, s: State, e: Event)
    requires !Begins(e) && !e.Save? && !e.CreateAdopted? && !e.InsertMissed? && !e.UpdateFound? && !e.MarkSeen? && !e.Sweep?
    ensures Next(sha, s, e).rows == s.rows && Next(sha, s, e).nextId == s.nextId && Next(sha, s, e).puts == s.puts
  {}

  // ---- tasks ----

  lemma TaskExtends(rows: Rows, later: Rows, task: Task)
    requires Extends(rows, later) && TaskOk(rows, task)
    ensures TaskOk(later, task)
  {}

  /** The task an event leaves behind, if it leaves a new one, is sound. */
  lemma BeginTask(sha: Bytes -> Digest, s: State, e: Event)
    requires TableOk(s.rows, s.nextId) && Begins(e)
    ensures forall t | t in Begin(sha, s, e).tasks ::
      (t in s.tasks && s.tasks[t] == Begin(sha, s, e).tasks[t]) || TaskOk(s.rows, Begin(sha, s, e).tasks[t])
  {
    match e
    case ReadForStatus(_, uuid, key, _, _) => FirstOk(s, Matching(uuid, key));
    case ReadForApplied(_, uuid, key, _, _) => FirstOk(s, Matching(uuid, key));
    case ReadForAdopt(_, a, _) => FirstOk(s, WithUuid(a.uuid));
    case ReadForAck(_, uuid, _, _, _) => FirstOk(s, WithUuid(uuid));
    case LookUpKey(_, key, _, _, _, _) => FirstOk(s, WithKey(key));
    case Plan(_, _, _) =>
  }

  lemma FirstOk(s: State, f: Device -> bool)
    requires TableOk(s.rows, s.nextId)
    ensures var d := First(s.rows, f); d.Some? ==> f(d.value) && d.value.id in s.rows && s.rows[d.value.id] == d.value
  {
    if First(s.rows, f).Some? {
      FirstIsRow(s.rows, s.nextId, f);
    }
  }

  lemma ContinueTask(sha: Bytes -> Digest, s: State, e: Event)
    requires TableOk(s.rows, s.nextId) && !Begins(e)
    ensures forall t | t in Continue(sha, s, e).tasks ::
      (t in s.tasks && s.tasks[t] == Continue(sha, s, e).tasks[t]) || TaskOk(s.rows, Continue(sha, s, e).tasks[t])
  {
    if e.ReadForPut? && e.t in s.tasks && s.tasks[e.t].Planned? {
      FirstOk(s, WithUuid(s.tasks[e.t].uuid));
    }
  }

  lemma NextTasks(sha: Bytes -> Digest, s: State, e: Event)
    requires Identity(s)
    ensures forall t | t in Next(sha, s, e).tasks :: TaskOk(Next(sha, s, e).rows, Next(sha, s, e).tasks[t])
  {
    NextGrows(sha, s, e);
    var s' := Next(sha, s, e);
    forall t | t in s'.tasks ensures TaskOk(s'.rows, s'.tasks[t]) {
      if Begins(e) { BeginTask(sha, s, e); } else { ContinueTask(sha, s, e); }
      TaskExtends(s.rows, s'.rows, s'.tasks[t]);
    }
  }

  // ---- registrations ----

  lemma HoldsExtends(rows: Rows, later: Rows, r: Registered)
    requires Extends(rows, later) && Holds(rows, r)
    ensures Holds(later, r)
  {
    var i :| i in rows && rows[i].uuid == r.uuid && rows[i].key == r.key;
    assert later[i].uuid == r.uuid;
  }

  /** At most one result is added, it names a row of the table, and if it says "new" the key was free before. */
  lemma NextRegistered(sha: Bytes -> Digest, s: State, e: Event)
    requires Identity(s)
    ensures AddsResult(s, Next(sha, s, e))
  {
    var s' := Next(sha, s, e);
    if Begins(e) {
      BeginKeeps(sha, s, e);
    } else if e.UpdateFound? && e.t in s.tasks && s.tasks[e.t].Found? && s.tasks[e.t].id in s.rows {
      var f := s.tasks[e.t];
      assert TaskOk(s.rows, f);
      assert s'.rows[f.id].uuid == f.result.uuid && s'.rows[f.id].key == f.result.key;
      assert Holds(s'.rows, f.result) && s'.registered == s.registered + [f.result];
    } else if e.InsertMissed? && e.t in s.tasks && s.tasks[e.t].Missed? {
      InsertRegistered(sha, s, e.t);
    } else if e.Reread? && e.t in s.tasks && s.tasks[e.t].Conflicted? {
      RereadRegistered(sha, s, e.t);
    }
  }

  lemma InsertRegistered(sha: Bytes -> Digest, s: State, t: int)
    requires t in s.tasks && s.tasks[t].Missed?
    ensures AddsResult(s, Continue(sha, s, InsertMissed(t)))
  {
    var s', row := Continue(sha, s, InsertMissed(t)), s.tasks[t].row;
    if !Taken(s.rows, WithKey(row.key)) && !Taken(s.rows, WithUuid(row.uuid)) {
      var r := Registered(row.uuid, row.key, true);
      forall i | i in s.rows ensures s.rows[i].key != r.key {
        assert !WithKey(row.key)(s.rows[i]);
      }
      assert s'.rows[s.nextId].uuid == r.uuid && s'.rows[s.nextId].key == r.key;
      assert s'.registered == s.registered + [r];
    }
  }

  lemma RereadRegistered(sha: Bytes -> Digest, s: State, t: int)
    requires TableOk(s.rows, s.nextId) && t in s.tasks && s.tasks[t].Conflicted?
    ensures AddsResult(s, Continue(sha, s, Reread(t)))
  {
    var s', key := Continue(sha, s, Reread(t)), s.tasks[t].key;
    var d := First(s.rows, WithKey(key));
    if d.Some? {
      FirstOk(s, WithKey(key));
      var r := Registered(d.value.uuid, key, false);
      assert s'.rows[d.value.id].uuid == r.uuid && s'.rows[d.value.id].key == r.key;
      assert s'.registered == s.registered + [r];
    }
  }

  lemma NextIdentity(sha: Bytes -> Digest, s: State, e: Event)
    requires Identity(s)
    ensures Identity(Next(sha, s, e))
  {
    NextGrows(sha, s, e);
    NextTasks(sha, s, e);
    NextRegistered(sha, s, e);
    IdentityKept(s, Next(sha, s, e));
  }

  /** What one statement may add to the results. */
  ghost predicate AddsResult(s: State, s': State) {
    s'.registered == s.registered ||
    exists r :: s'.registered == s.registered + [r] && Holds(s'.rows, r) && (r.isNew ==> forall i | i in s.rows :: s.rows[i].key != r.key)
  }

  lemma IdentityKept(s: State, s': State)
    requires Identity(s) && Grows(s, s') && AddsResult(s, s')
    requires forall t | t in s'.tasks :: TaskOk(s'.rows, s'.tasks[t])
    ensures Identity(s')
  {
    forall r | r in s.registered ensures Holds(s'.rows, r) {
      HoldsExtends(s.rows, s'.rows, r);
    }
    if s'.registered != s.registered {
      var r :| s'.registered == s.registered + [r] && Holds(s'.rows, r) && (r.isNew ==> forall i | i in s.rows :: s.rows[i].key != r.key);
      forall i | 0 <= i < |s.registered| && s.registered[i].key == r.key ensures !r.isNew {
        assert s.registered[i] in s.registered && Holds(s.rows, s.registered[i]);
      }
    }
  }

  lemma {:induction false} RunIdentity(sha: Bytes -> Digest, s: State, events: seq<Event>)
    requires Identity(s)
    ensures Identity(Run(sha, s, events))
    decreases |events|
  {
    if events != [] {
      NextIdentity(sha, s, events[0]);
      RunIdentity(sha, Next(sha, s, events[0]), events[1..]);
    }
  }

  /** Register under races, together with everything else that goes on: the indexes stay unique, all
      registrations that returned for one key returned the same UUID, that of the row with the key, and
      at most one of them was told that the device is new. */
  lemma RegisterUnderRaces(sha: Bytes -> Digest, rows: Rows, nextId: nat, events: seq<Event>)
    requires TableOk(rows, nextId)
    ensures var s := Run(sha, Start(rows, nextId), events);
      && TableOk(s.rows, s.nextId)
      && (forall r, q | r in s.registered && q in s.registered && r.key == q.key :: r.uuid == q.uuid)
      && (forall r | r in s.registered :: Holds(s.rows, r))
      && OneNew(s.registered)
  {
    RunIdentity(sha, Start(rows, nextId), events);
    var s := Run(sha, Start(rows, nextId), events);
    forall r, q | r in s.registered && q in s.registered && r.key == q.key ensures r.uuid == q.uuid {
      var i :| i in s.rows && s.rows[i].uuid == r.uuid && s.rows[i].key == r.key;
      var j :| j in s.rows && s.rows[j].uuid == q.uuid && s.rows[j].key == q.key;
    }
  }

  // ---- what a statement leaves alone ----

  lemma BeginTasks(sha: Bytes -> Digest, s: State, e: Event, t: int)
    requires Begins(e) && t in Begin(sha, s, e).tasks && t != e.t
    ensures t in s.tasks && Begin(sha, s, e).tasks[t] == s.tasks[t]
  {}

  lemma KeptTask(sha: Bytes -> Digest, s: State, e: Event, t: int)
    requires !Begins(e) && t in Continue(sha, s, e).tasks && !(e.ReadForPut? && e.t == t && t in s.tasks && s.tasks[t].Planned?)
    ensures (t in s.tasks && Continue(sha, s, e).tasks[t] == s.tasks[t]) || Continue(sha, s, e).tasks[t].Conflicted?
  {}

  /** Nothing was put, and every row has the configuration it had, or is new and has none. */
  ghost predicate SameConfigs(s: State, s': State) {
    && s'.puts == s.puts
    && (forall i | i in s'.rows :: if i in s.rows then TripleOf(s'.rows[i]) == TripleOf(s.rows[i])
                                   else i == s.nextId && TripleOf(s'.rows[i]) == Triple([], "", 0))
  }

  lemma CreateSame(sha: Bytes -> Digest, s: State, t: int)
    requires Identity(s)
    ensures SameConfigs(s, Continue(sha, s, CreateAdopted(t)))
  {
    if t in s.tasks && s.tasks[t].AdoptMissed? { assert TaskOk(s.rows, s.tasks[t]); }
  }

  lemma InsertSame(sha: Bytes -> Digest, s: State, t: int)
    requires Identity(s)
    ensures SameConfigs(s, Continue(sha, s, InsertMissed(t)))
  {
    if t in s.tasks && s.tasks[t].Missed? { assert TaskOk(s.rows, s.tasks[t]); }
  }

  lemma UpdateSame(sha: Bytes -> Digest, s: State, t: int)
    ensures SameConfigs(s, Continue(sha, s, UpdateFound(t)))
  {}

  lemma ColumnsSame(sha: Bytes -> Digest, s: State, e: Event)
    requires e.MarkSeen? || e.Sweep?
    ensures SameConfigs(s, Continue(sha, s, e))
  {}

  /** Statements other than Save put nothing and keep every row's configuration; new rows have none. */
  lemma OthersSame(sha: Bytes -> Digest, s: State, e: Event)
    requires Identity(s) && !e.Save?
    ensures SameConfigs(s, Next(sha, s, e))
  {
    if Begins(e) {
      BeginKeeps(sha, s, e);
    } else {
      match e
      case CreateAdopted(t) => CreateSame(sha, s, t);
      case InsertMissed(t) => InsertSame(sha, s, t);
      case UpdateFound(t) => UpdateSame(sha, s, t);
      case MarkSeen(_, _) => ColumnsSame(sha, s, e);
      case Sweep(_) => ColumnsSame(sha, s, e);
      case _ => OthersKeepRows(sha, s, e);
    }
  }
}
