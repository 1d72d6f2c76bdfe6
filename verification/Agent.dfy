/** The agent-facing handlers as compositions of store and reconcile steps, when nothing interrupts them. */
module Agent {
  import opened Base
  import opened DeviceStore
  import opened AgreementRuns
  import opened DeviceRuns
  import opened Runs
  import R = Reconcile

  ghost predicate AllAgree(sha: Bytes -> Digest, rows: Rows) {
    forall i | i in rows :: Agree(sha, rows[i])
  }

  /** A status other than 200, a checksum line, a served archive, an empty 200, or a handler that panics. */
  datatype Response = Status(code: nat) | ChecksumLine(sum: string) | ArchiveFile(filename: string, body: Option<Bytes>) | Empty | Panicked

  /** What a download answers; the file name takes sum[:8] before anything is sent. */
  function Served(rows: Rows, uuid: string, key: string, head: bool): Response {
    match First(rows, Matching(uuid, key))
    case None => Status(404)
    case Some(d) =>
      if d.archive == [] then Status(404)
      else if |d.checksum| < 8 then Panicked
      else ArchiveFile(uuid + "-" + d.checksum[..8] + ".tar.gz", if head then None else Some(d.archive))
  }

  datatype StatusForm = StatusForm(key: string, status: string, applied: string, checksum: string)

  /** The status a form stands for. */
  function FormStatus(f: StatusForm): string {
    var s := Lower(TrimSpace(f.status));
    if s == "" then "running" else s
  }

  predicate FormApplied(f: StatusForm) {
    Lower(TrimSpace(f.applied)) in {"1", "true", "yes"} || FormStatus(f) in {"ok", "applied", "success"}
  }

  /** The rows after a status report: one whole-row save, and a second one when the form says "applied". */
  function ReportedRows(rows: Rows, uuid: string, f: StatusForm, now: int): Rows {
    var key := TrimSpace(f.key);
    match First(rows, Matching(uuid, key))
    case None => rows
    case Some(d) =>
      var once := rows[d.id := StatusEdit(d, FormStatus(f), now)];
      if !FormApplied(f) then once
      else match First(once, Matching(uuid, key))
        case None => once
        case Some(e) => once[e.id := AppliedEdit(e, TrimSpace(f.checksum), now)]
  }

  class Handler {
    const ds: Store
    const rec: R.Reconciler

    constructor (ds: Store, rec: R.Reconciler)
      ensures this.ds == ds && this.rec == rec
    {
      this.ds, this.rec := ds, rec;
    }

    ghost predicate Valid()
      reads this, ds, rec
    {
      ds.Valid() && rec.devices == ds && rec.env.codec.sha == ds.sha
    }

    /** Reconciles first, then answers with the checksum on file, then marks the device as seen. */
    method Checksum(uuid: string, key: string, templates: seq<R.Template>, m: R.Material, now: int) returns (r: Response)
      requires Valid()
      modifies ds`rows, ds`peers
      ensures Valid()
      ensures var (_, rows, peers) := R.Reconciled(rec.env, rec.cfg, templates, m, now, uuid, old(ds.rows), old(ds.peers));
        && ds.peers == peers
        && match First(rows, Matching(uuid, key))
           case None => r == Status(404) && ds.rows == rows
           case Some(d) =>
             if d.archive == [] || d.checksum == "" then r == Status(404) && ds.rows == rows
             else r == ChecksumLine(d.checksum) && ds.rows == SeenRows(rows, uuid, now)
    {
      var o := rec.Reconcile(uuid, templates, m, now);
      var sum := ds.GetChecksum(uuid, key);
      if sum.Err? {
        return Status(404);
      }
      ds.MarkSeen(uuid, now);
      return ChecksumLine(sum.value);
    }

    /** Serves the archive under a name made from its checksum; it panics exactly when there is an archive
        and its checksum has fewer than eight characters. Only a complete GET marks the device as seen. */
    method DownloadConfig(uuid: string, key: string, head: bool, now: int) returns (r: Response)
      requires Valid()
      modifies ds`rows
      ensures Valid()
      ensures r == Served(old(ds.rows), uuid, key, head)
      ensures r == Panicked <==>
        var d := First(old(ds.rows), Matching(uuid, key)); d.Some? && d.value.archive != [] && |d.value.checksum| < 8
      ensures ds.rows == if r.ArchiveFile? && !head then SeenRows(old(ds.rows), uuid, now) else old(ds.rows)
    {
      var c := ds.GetConfig(uuid, key);
      if c.Err? {
        return Status(404);
      }
      var (data, sum) := c.value;
      if |sum| < 8 {
        return Panicked;
      }
      var filename := uuid + "-" + sum[..8] + ".tar.gz";
      if head {
        return ArchiveFile(filename, None);
      }
      ds.MarkSeen(uuid, now);
      return ArchiveFile(filename, Some(data));
    }

    method ReportStatus(uuid: string, f: StatusForm, now: int) returns (r: Response)
      requires Valid()
      modifies ds`rows
      ensures Valid()
      ensures ds.rows == ReportedRows(old(ds.rows), uuid, f, now)
      ensures r == if First(old(ds.rows), Matching(uuid, TrimSpace(f.key))).None? then Status(404) else Empty
    {
      var key := TrimSpace(f.key);
      var applied := false;
      if Lower(TrimSpace(f.applied)) in {"1", "true", "yes"} {
        applied := true;
      }
      if FormStatus(f) in {"ok", "applied", "success"} {
        applied := true;
      }
      var reported := ds.ReportStatus(uuid, key, FormStatus(f), now);
      if reported.Err? {
        return Status(404);
      }
      if applied {
        var ignored := ds.ReportApplied(uuid, key, TrimSpace(f.checksum), now);
      }
      return Empty;
    }
  }

  lemma ReconcileAgrees(env: R.Env, cfg: R.Config, templates: seq<R.Template>, m: R.Material, now: int, uuid: string, rows: Rows, peers: seq<Peer>, nextId: nat)
    requires TableOk(rows, nextId) && AllAgree(env.codec.sha, rows)
    ensures AllAgree(env.codec.sha, R.Reconciled(env, cfg, templates, m, now, uuid, rows, peers).1)
  {
    R.ReconciledPut(env, cfg, templates, m, now, uuid, rows, peers);
  }

  lemma ReportAgrees(sha: Bytes -> Digest, rows: Rows, nextId: nat, uuid: string, f: StatusForm, now: int)
    requires TableOk(rows, nextId) && AllAgree(sha, rows)
    ensures AllAgree(sha, ReportedRows(rows, uuid, f, now))
  {
    var key := TrimSpace(f.key);
    if First(rows, Matching(uuid, key)).Some? {
      FirstIsRow(rows, nextId, Matching(uuid, key));
      var d := First(rows, Matching(uuid, key)).value;
      var once := rows[d.id := StatusEdit(d, FormStatus(f), now)];
      assert AllAgree(sha, once);
      if First(once, Matching(uuid, key)).Some? {
        FirstIsRow(once, nextId, Matching(uuid, key));
      }
    }
  }

  /** After any interleaving in which no acknowledgement sends fewer than eight characters for a row with an
      archive, no download panics. */
  lemma DownloadsNeverPanic(sha: Bytes -> Digest, rows: Rows, nextId: nat, events: seq<Event>, uuid: string, key: string, head: bool)
    requires TableOk(rows, nextId) && forall i | i in rows :: Servable()(rows[i].archive, rows[i].checksum)
    requires Guarded(Step(sha), Start(rows, nextId), events, AckFits(Servable()))
    ensures Served(Run(sha, Start(rows, nextId), events).rows, uuid, key, head) != Panicked
  {
    AlwaysServable(sha, rows, nextId, events);
    ThroughoutEnd(Step(sha), Start(rows, nextId), events, AllFit(Servable()));
    RunIdentity(sha, Start(rows, nextId), events);
    FoundFits(Servable(), Run(sha, Start(rows, nextId), events), Matching(uuid, key));
  }

  /** After any interleaving in which acknowledgements send the checksum of what they find, a download carries
      the first eight characters of its own hash in its name. */
  lemma DownloadsNameTheirHash(sha: Bytes -> Digest, rows: Rows, nextId: nat, events: seq<Event>, uuid: string, key: string)
    requires TableOk(rows, nextId) && forall i | i in rows :: Agree(sha, rows[i])
    requires Guarded(Step(sha), Start(rows, nextId), events, AckFits(Agreeing(sha)))
    ensures match Served(Run(sha, Start(rows, nextId), events).rows, uuid, key, false)
      case ArchiveFile(name, Some(body)) => name == uuid + "-" + sha(body)[..8] + ".tar.gz"
      case r => r == Status(404)
  {
    ServedAgrees(sha, rows, nextId, events, uuid, key);
  }

  /** An acknowledgement with fewer than eight characters for a device that has an archive: its next download panics. */
  lemma ShortAckPanics(sha: Bytes -> Digest, s: State, d: Device, version: int, checksum: string, now: int, head: bool)
    requires TableOk(s.rows, s.nextId) && s.tasks == map[] && d.id in s.rows && s.rows[d.id] == d
    requires d.uuid != "" && d.key != "" && d.archive != [] && |checksum| < 8
    ensures Served(Run(sha, s, [Event.ReadForAck(0, d.uuid, version, checksum, now), Event.Save(0)]).rows, d.uuid, d.key, head) == Panicked
  {
    AckAlone(sha, s, d, version, checksum, now);
    var acked := AckEdit(d, version, checksum, now);
    var rows := s.rows[d.id := acked];
    ReplaceOk(s.rows, s.nextId, acked);
    ValidateKeyMeans(rows, s.nextId, d.uuid, d.key, acked);
  }

  /** A successful Reconcile repairs the row exactly when it stores; otherwise the row agrees if it did before. */
  lemma ReconcileRepairs(env: R.Env, cfg: R.Config, templates: seq<R.Template>, m: R.Material, now: int,
                         uuid: string, rows: Rows, peers: seq<Peer>, nextId: nat)
    requires TableOk(rows, nextId)
    ensures var (o, rows', _) := R.Reconciled(env, cfg, templates, m, now, uuid, rows, peers);
      var d, d' := First(rows, WithUuid(uuid)), First(rows', WithUuid(uuid));
      o.Done? ==> d.Some? && d'.Some? && (Agree(env.codec.sha, d'.value) <==> o.updated || Agree(env.codec.sha, d.value))
  {
    var (o, rows', _) := R.Reconciled(env, cfg, templates, m, now, uuid, rows, peers);
    if o.Done? {
      R.ReconciledRow(env, cfg, templates, m, now, uuid, rows, peers, nextId);
      FirstIsRow(rows, nextId, WithUuid(uuid));
    }
  }

  /** Same configuration in every row. */
  predicate SameConfig(rows: Rows, later: Rows) {
    rows.Keys == later.Keys &&
    forall i | i in rows :: later[i].archive == rows[i].archive && later[i].checksum == rows[i].checksum && later[i].version == rows[i].version
  }

  lemma EditKeepsConfig(rows: Rows, nextId: nat, f: Device -> bool, edited: Device)
    requires TableOk(rows, nextId) && First(rows, f).Some?
    requires var d := First(rows, f).value;
      edited == d.(status := edited.status, lastSeen := edited.lastSeen, lastReported := edited.lastReported,
                   lastAppliedAt := edited.lastAppliedAt, lastAppliedSum := edited.lastAppliedSum)
    ensures TableOk(rows[edited.id := edited], nextId) && SameConfig(rows, rows[edited.id := edited])
  {
    FirstIsRow(rows, nextId, f);
  }

  /** A status report never touches the configuration, and an "applied" one without a checksum records
      the checksum on file as applied. */
  lemma ReportKeepsConfig(rows: Rows, nextId: nat, uuid: string, f: StatusForm, now: int)
    requires TableOk(rows, nextId)
    ensures SameConfig(rows, ReportedRows(rows, uuid, f, now))
    ensures var d := First(rows, Matching(uuid, TrimSpace(f.key)));
      d.Some? && FormApplied(f) && TrimSpace(TrimSpace(f.checksum)) == "" ==>
        d.value.id in rows && d.value.id in ReportedRows(rows, uuid, f, now)
        && ReportedRows(rows, uuid, f, now)[d.value.id].lastAppliedSum == rows[d.value.id].checksum
  {
    var m := Matching(uuid, TrimSpace(f.key));
    if First(rows, m).Some? {
      FirstIsRow(rows, nextId, m);
      var d := First(rows, m).value;
      var edited := StatusEdit(d, FormStatus(f), now);
      EditKeepsConfig(rows, nextId, m, edited);
      var once := rows[d.id := edited];
      SameFirst(rows, once, nextId, m, d.id);
      if FormApplied(f) {
        EditKeepsConfig(once, nextId, m, AppliedEdit(edited, TrimSpace(f.checksum), now));
      }
    }
  }

  /** The status of a form, in lower case, "running" when there is none; and what it says about the device. */
  lemma FormMeans(f: StatusForm)
    ensures var given := Lower(TrimSpace(f.status));
      FormStatus(f) == if given == "" then "running" else given
    ensures StatusOf(FormStatus(f)) ==
      if FormStatus(f) == "error" || FormStatus(f) == "failed" || FormStatus(f) == "offline" then Offline else Online
    ensures var flag, s := Lower(TrimSpace(f.applied)), FormStatus(f);
      FormApplied(f) <==> flag == "1" || flag == "true" || flag == "yes" || s == "ok" || s == "applied" || s == "success"
  {
    TrimmedStays(f.status);
    TrimmedStays(TrimSpace(f.status));
    assert TrimSpace("running") == "running" && Lower("running") == "running";
  }

  /** The rows after a status report, as one edit of the row that was found. */
  lemma ReportedOnce(rows: Rows, nextId: nat, uuid: string, f: StatusForm, now: int, d: Device)
    requires TableOk(rows, nextId) && First(rows, Matching(uuid, TrimSpace(f.key))) == Some(d)
    ensures var edited := StatusEdit(d, FormStatus(f), now);
      ReportedRows(rows, uuid, f, now) == rows[d.id := if FormApplied(f) then AppliedEdit(edited, TrimSpace(f.checksum), now) else edited]
  {
    var m, edited := Matching(uuid, TrimSpace(f.key)), StatusEdit(d, FormStatus(f), now);
    FirstIsRow(rows, nextId, m);
    assert m(edited);
    SameFirst(rows, rows[d.id := edited], nextId, m, d.id);
  }

  /** What a status report leaves in the row it finds: the status and the time; offline for an error unless the
      form also says applied; and, if it does, when and which sum, by default the one on file. */
  lemma ReportMeans(rows: Rows, nextId: nat, uuid: string, f: StatusForm, now: int, d: Device)
    requires TableOk(rows, nextId) && First(rows, Matching(uuid, TrimSpace(f.key))) == Some(d)
    ensures
      var s, applied, sum := FormStatus(f), FormApplied(f), TrimSpace(f.checksum);
      ReportedRows(rows, uuid, f, now) == rows[d.id := d.(
        lastSeen := Some(now), lastReported := s,
        status := if (s == "error" || s == "failed" || s == "offline") && !applied then Offline else Online,
        lastAppliedAt := if applied then Some(now) else d.lastAppliedAt,
        lastAppliedSum := if !applied then d.lastAppliedSum else if sum == "" then d.checksum else sum)]
  {
    ReportedOnce(rows, nextId, uuid, f, now, d);
    FormMeans(f);
    TrimmedStays(f.checksum);
  }

  /** Replacing the first match by another match leaves it first. */
  lemma SameFirst(rows: Rows, later: Rows, nextId: nat, f: Device -> bool, i: nat)
    requires TableOk(rows, nextId) && i in rows && First(rows, f) == Some(rows[i])
    requires i in later && later == rows[i := later[i]] && f(later[i])
    ensures First(later, f) == Some(later[i])
  {
    assert FirstId(rows, f) == Some(i) by { FirstIsRow(rows, nextId, f); }
    assert FirstId(later, f) == Some(i);
  }

  /** Marking a device as seen changes neither which row a lookup finds nor its configuration. */
  lemma SeenKeepsFirst(rows: Rows, nextId: nat, uuid: string, key: string, now: int)
    requires TableOk(rows, nextId) && First(rows, Matching(uuid, key)).Some?
    ensures var d, e := First(rows, Matching(uuid, key)).value, First(SeenRows(rows, uuid, now), Matching(uuid, key));
      e.Some? && e.value.id == d.id && e.value.archive == d.archive && e.value.checksum == d.checksum
  {
    FirstIsRow(rows, nextId, Matching(uuid, key));
    var i, seen := First(rows, Matching(uuid, key)).value.id, SeenRows(rows, uuid, now);
    forall j | j in rows ensures Matching(uuid, key)(seen[j]) <==> Matching(uuid, key)(rows[j]) {}
    assert FirstId(rows, Matching(uuid, key)) == Some(i);
    assert FirstId(seen, Matching(uuid, key)) == Some(i);
  }

  /** Marking as seen leaves what Reconcile looks at. */
  lemma SeenKeepsInputs(rows: Rows, nextId: nat, uuid: string, now: int)
    requires TableOk(rows, nextId) && First(rows, WithUuid(uuid)).Some?
    ensures var d, e := First(rows, WithUuid(uuid)).value, First(SeenRows(rows, uuid, now), WithUuid(uuid));
      e.Some? && e.value == SeenEdit(d, now)
  {
    FirstIsRow(rows, nextId, WithUuid(uuid));
    var i, seen := First(rows, WithUuid(uuid)).value.id, SeenRows(rows, uuid, now);
    ColumnsOk(rows, nextId, seen);
    FirstUnique(seen, nextId, WithUuid(uuid), i);
  }

  /** Consecutive polls settle: a checksum request reconciles and marks the device as seen, and the Reconcile of
      the next one finds nothing to do, whatever keys it would generate. */
  lemma PollsSettle(env: R.Env, cfg: R.Config, templates: seq<R.Template>, m: R.Material, m': R.Material, now: int, later: int,
                    uuid: string, rows: Rows, peers: seq<Peer>, nextId: nat)
    requires TableOk(rows, nextId) && cfg.mode != R.OpenVpn
    ensures var (o, rows', peers') := R.Reconciled(env, cfg, templates, m, now, uuid, rows, peers);
      var seen := SeenRows(rows', uuid, now);
      o.Done? ==> R.Reconciled(env, cfg, templates, m', later, uuid, seen, peers') == (R.Done(o.sum, false), seen, peers')
  {
    var (o, rows', peers') := R.Reconciled(env, cfg, templates, m, now, uuid, rows, peers);
    R.ReconciledRow(env, cfg, templates, m, now, uuid, rows, peers, nextId);
    if o.Done? {
      SeenKeepsInputs(rows', nextId, uuid, now);
      R.Fixpoint(env, cfg, templates, m, m', now, later, uuid, rows, peers, SeenRows(rows', uuid, now), peers');
    }
  }

  /** An agent that asks for the checksum and then downloads gets the sum Reconcile computed and an archive with
      that hash, provided the pair (uuid, key) is right and the device's own row agreed before or was updated. */
  lemma ChecksumMatchesDownload(env: R.Env, cfg: R.Config, templates: seq<R.Template>, m: R.Material, now: int,
                                uuid: string, key: string, rows: Rows, peers: seq<Peer>, nextId: nat)
    requires TableOk(rows, nextId) && uuid != ""
    ensures var (o, rows', _) := R.Reconciled(env, cfg, templates, m, now, uuid, rows, peers);
      var d, e := First(rows', Matching(uuid, key)), First(SeenRows(rows', uuid, now), Matching(uuid, key));
      o.Done? && d.Some? ==>
        && First(rows, WithUuid(uuid)).Some?
        && e.Some? && d.value.checksum == o.sum && e.value.archive == d.value.archive
        && (o.updated || Agree(env.codec.sha, First(rows, WithUuid(uuid)).value) ==>
              d.value.archive != [] ==> env.codec.sha(e.value.archive) == o.sum)
  {
    R.ReconciledRow(env, cfg, templates, m, now, uuid, rows, peers, nextId);
    ReconcileRepairs(env, cfg, templates, m, now, uuid, rows, peers, nextId);
    var (o, rows', _) := R.Reconciled(env, cfg, templates, m, now, uuid, rows, peers);
    if o.Done? && First(rows', Matching(uuid, key)).Some? {
      SeenKeepsFirst(rows', nextId, uuid, key, now);
      SameDevice(rows', nextId, uuid, key);
    }
  }

  lemma SameDevice(rows: Rows, nextId: nat, uuid: string, key: string)
    requires TableOk(rows, nextId) && uuid != "" && First(rows, Matching(uuid, key)).Some?
    ensures First(rows, Matching(uuid, key)) == First(rows, WithUuid(uuid))
    ensures First(rows, Matching(uuid, key)).value in rows.Values
  {
    FirstIsRow(rows, nextId, Matching(uuid, key));
    FirstUnique(rows, nextId, WithUuid(uuid), First(rows, Matching(uuid, key)).value.id);
  }
}
