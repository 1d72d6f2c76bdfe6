/** The device table and the store methods that work on it. A row is read into a snapshot, edited,
    and written back whole; a few statements update single columns. */
module DeviceStore {
  import opened Base

  datatype Status = Unknown | Online | Offline

  datatype Device = Device(
    id: nat, uuid: string, key: string,
    name: string, model: string, mac: string, fingerprint: string,
    status: Status, lastSeen: Option<int>,
    archive: Bytes, checksum: string, version: int, configUpdatedAt: Option<int>,
    lastReported: string, lastAppliedAt: Option<int>, lastAppliedSum: string)

  type Rows = map<nat, Device>

  /** A row as it is first inserted: no configuration, version 0. */
  function NewDevice(uuid: string, key: string, name: string, model: string, mac: string): Device {
    Device(0, uuid, key, name, model, mac, "", Unknown, None, [], "", 0, None, "", None, "")
  }

  /** Primary keys match, and the unique indexes on uuid and device_key hold. */
  ghost predicate TableOk(rows: Rows, nextId: nat) {
    && (forall i | i in rows :: rows[i].id == i && i < nextId)
    && (forall i, j | i in rows && j in rows && rows[i].uuid == rows[j].uuid :: i == j)
    && (forall i, j | i in rows && j in rows && rows[i].key == rows[j].key :: i == j)
  }

  lemma {:induction false} LeastExists(rows: Rows, f: Device -> bool, bound: nat)
    requires exists i | i in rows && i < bound :: f(rows[i])
    ensures exists i :: i in rows && f(rows[i]) && forall j | j in rows && f(rows[j]) :: i <= j
  {
    if i :| i in rows && i < bound - 1 && f(rows[i]) {
      LeastExists(rows, f, bound - 1);
    } else {
      assert bound - 1 in rows && f(rows[bound - 1]);
    }
  }

  /** The lowest primary key whose row matches. */
  function FirstId(rows: Rows, f: Device -> bool): (r: Option<nat>)
    ensures r.None? ==> forall i | i in rows :: !f(rows[i])
    ensures r.Some? ==> r.value in rows && f(rows[r.value]) && forall j | j in rows && f(rows[j]) :: r.value <= j
  {
    if exists i | i in rows :: f(rows[i]) then
      assert exists i :: i in rows && f(rows[i]) && forall j | j in rows && f(rows[j]) :: i <= j by {
        var i :| i in rows && f(rows[i]);
        LeastExists(rows, f, i + 1);
      }
      var i :| i in rows && f(rows[i]) && forall j | j in rows && f(rows[j]) :: i <= j;
      Some(i)
    else None
  }

  /** First: the matching row with the lowest primary key. */
  function First(rows: Rows, f: Device -> bool): Option<Device> {
    match FirstId(rows, f) case None => None case Some(i) => Some(rows[i])
  }

  function WithUuid(uuid: string): Device -> bool { (d: Device) => d.uuid == uuid }

  function WithKey(key: string): Device -> bool { (d: Device) => d.key == key }

  /** The struct filter of ValidateKey: zero-valued fields drop out of it. */
  function Matching(uuid: string, key: string): Device -> bool {
    (d: Device) => (uuid == "" || d.uuid == uuid) && (key == "" || d.key == key)
  }

  /** A unique column finds its row, wherever it stands. */
  lemma FirstUnique(rows: Rows, nextId: nat, f: Device -> bool, i: nat)
    requires TableOk(rows, nextId) && i in rows && f(rows[i])
    requires forall j | j in rows && f(rows[j]) :: j == i
    ensures First(rows, f) == Some(rows[i])
  {}

  /** What ValidateKey finds, for all arguments: a row that has every non-empty one of them, and if both are
      empty the row with the lowest primary key. Either argument alone is enough to find its row. */
  lemma ValidateKeyMeans(rows: Rows, nextId: nat, uuid: string, key: string, d: Device)
    requires TableOk(rows, nextId)
    ensures First(rows, Matching(uuid, key)) == Some(d) <==>
      && d.id in rows && rows[d.id] == d && (uuid == "" || d.uuid == uuid) && (key == "" || d.key == key)
      && (uuid == "" && key == "" ==> forall i | i in rows :: d.id <= i)
  {
    if d.id in rows && rows[d.id] == d && Matching(uuid, key)(d) && (uuid != "" || key != "") {
      FirstUnique(rows, nextId, Matching(uuid, key), d.id);
    }
  }

  /** The device found has the key that was given exactly when that is not empty or its own one is: an
      empty key leaves the lookup to the uuid alone. */
  lemma EmptyKeyIgnored(rows: Rows, nextId: nat, uuid: string, key: string)
    requires TableOk(rows, nextId)
    ensures var d := First(rows, Matching(uuid, key));
      && (d.Some? ==> (d.value.key == key <==> key != "" || d.value.key == ""))
      && (uuid != "" && key == "" ==> d == First(rows, WithUuid(uuid)))
  {
    if uuid != "" && key == "" {
      forall d: Device ensures Matching(uuid, key)(d) <==> WithUuid(uuid)(d) {}
      if First(rows, WithUuid(uuid)).Some? {
        var i := FirstId(rows, WithUuid(uuid)).value;
        assert WithUuid(uuid)(rows[i]);
        FirstUnique(rows, nextId, Matching(uuid, key), i);
      }
    }
  }

  /** What a successful First says about a well-formed table. */
  lemma FirstIsRow(rows: Rows, nextId: nat, f: Device -> bool)
    requires TableOk(rows, nextId) && First(rows, f).Some?
    ensures var d := First(rows, f).value; d.id in rows && rows[d.id] == d && f(d)
  {}

  // ---- edits of a snapshot ----

  function PutEdit(sha: Bytes -> Digest, d: Device, tar: Bytes, version: int, now: int): Device {
    d.(archive := tar, checksum := sha(tar), version := version, configUpdatedAt := Some(now))
  }

  function StatusOf(status: string): Status {
    if Lower(TrimSpace(status)) in {"error", "failed", "offline"} then Offline else Online
  }

  function StatusEdit(d: Device, status: string, now: int): Device {
    d.(lastSeen := Some(now), lastReported := status, status := StatusOf(status))
  }

  function AppliedEdit(d: Device, localSum: string, now: int): Device {
    d.(lastAppliedAt := Some(now), lastAppliedSum := if TrimSpace(localSum) == "" then d.checksum else localSum, status := Online)
  }

  function SeenEdit(d: Device, now: int): Device {
    d.(lastSeen := Some(now), status := Online)
  }

  datatype AdoptInput = AdoptInput(uuid: string, fingerprint: string, name: Option<string>, mac: Option<string>, model: Option<string>)

  function Given(v: Option<string>, current: string): string {
    if v.Some? && v.value != "" then v.value else current
  }

  function AdoptEdit(d: Device, a: AdoptInput, now: int): Device {
    d.(fingerprint := a.fingerprint, status := Online, lastSeen := Some(now),
       name := Given(a.name, d.name), mac := Given(a.mac, d.mac), model := Given(a.model, d.model))
  }

  /** A device that Adopt creates has no key. */
  function AdoptNew(a: AdoptInput, now: int): Device {
    NewDevice(a.uuid, "", Given(a.name, ""), Given(a.model, ""), Given(a.mac, "")).(
      fingerprint := a.fingerprint, status := Online, lastSeen := Some(now))
  }

  function AckEdit(d: Device, version: int, checksum: string, now: int): Device {
    d.(version := version, checksum := checksum, configUpdatedAt := Some(now), status := Online)
  }

  /** The columns Register updates on a row it found. */
  function RegisterEdit(d: Device, name: string, model: string, mac: string): Device {
    d.(name := if name != "" then name else d.name, model := if model != "" then model else d.model, mac := if mac != "" then mac else d.mac)
  }

  predicate Taken(rows: Rows, f: Device -> bool) { First(rows, f).Some? }

  function SweepRows(rows: Rows, cut: int): Rows {
    map i | i in rows :: if rows[i].lastSeen.Some? && rows[i].lastSeen.value < cut && rows[i].status != Offline
                         then rows[i].(status := Offline) else rows[i]
  }

  function SeenRows(rows: Rows, uuid: string, now: int): Rows {
    map i | i in rows :: if rows[i].uuid == uuid then SeenEdit(rows[i], now) else rows[i]
  }

  // ---- presence ----

  function SweepAll(rows: Rows, cuts: seq<int>): Rows
    decreases |cuts|
  {
    if cuts == [] then rows else SweepAll(SweepRows(rows, cuts[0]), cuts[1..])
  }

  /** Last seen before one of the cuts. */
  predicate Late(d: Device, cuts: seq<int>) {
    d.lastSeen.Some? && exists c | c in cuts :: d.lastSeen.value < c
  }

  lemma LateCons(d: Device, c: int, rest: seq<int>)
    ensures Late(d, [c] + rest) <==> (d.lastSeen.Some? && d.lastSeen.value < c) || Late(d, rest)
  {
    assert c in [c] + rest;
    assert forall x :: x in [c] + rest <==> x == c || x in rest;
  }

  /** Any number of sweeps, in any order: rows last seen before some cut are offline, and nothing else
      has changed. */
  lemma {:induction false} SweptExactly(rows: Rows, cuts: seq<int>)
    ensures SweepAll(rows, cuts) == map i | i in rows :: if Late(rows[i], cuts) then rows[i].(status := Offline) else rows[i]
    decreases |cuts|
  {
    if cuts != [] {
      SweptExactly(SweepRows(rows, cuts[0]), cuts[1..]);
      assert cuts == [cuts[0]] + cuts[1..];
      forall i | i in rows
        ensures Late(rows[i], cuts) <==> (rows[i].lastSeen.Some? && rows[i].lastSeen.value < cuts[0]) || Late(rows[i], cuts[1..])
      {
        LateCons(rows[i], cuts[0], cuts[1..]);
      }
    }
  }

  /** A device that was marked as seen stays online through every sweep exactly until one cuts later than that. */
  lemma SeenStaysOnline(rows: Rows, uuid: string, now: int, cuts: seq<int>, i: nat)
    requires i in rows && rows[i].uuid == uuid
    ensures i in SweepAll(SeenRows(rows, uuid, now), cuts)
    ensures SweepAll(SeenRows(rows, uuid, now), cuts)[i].status == Online <==> forall c | c in cuts :: c <= now
  {
    SweptExactly(SeenRows(rows, uuid, now), cuts);
  }

  // ---- registration ----

  type Md5 = s: string | |s| == 32 witness seq(32, _ => '0')

  datatype RegisterInput = RegisterInput(
    sharedSecret: string, expectedSecret: string, name: string, mac: string, model: string, keyOptional: string, consistentKey: bool)

  predicate SecretOk(r: RegisterInput) {
    TrimSpace(r.expectedSecret) == "" || r.sharedSecret == TrimSpace(r.expectedSecret)
  }

  function Mac(r: RegisterInput): string { Lower(TrimSpace(r.mac)) }

  /** The key a registration works with; random stands for the fresh UUID that is hashed when nothing else is given. */
  function EffectiveKey(r: RegisterInput, md5: string -> Md5, random: string): (key: string)
    ensures key != ""
  {
    if TrimSpace(r.keyOptional) != "" then TrimSpace(r.keyOptional)
    else if r.consistentKey && Mac(r) != "" && r.expectedSecret != "" then md5(Mac(r) + r.expectedSecret)
    else md5(random)
  }

  datatype Registered = Registered(uuid: string, key: string, isNew: bool)

  datatype Error = BadSecret | Unauthorized | NotFound | UniqueViolation

  datatype Result<+T> = Ok(value: T) | Err(error: Error)

  /** What an uninterrupted registration returns, and the rows after it. */
  function Registration(x: RegisterInput, md5: string -> Md5, random: string, uuid: string, rows: Rows, nextId: nat): (Result<Registered>, Rows) {
    var key := EffectiveKey(x, md5, random);
    var row := NewDevice(uuid, key, TrimSpace(x.name), TrimSpace(x.model), Mac(x));
    if !SecretOk(x) then (Err(BadSecret), rows)
    else match First(rows, WithKey(key))
      case Some(d) => (Ok(Registered(d.uuid, key, false)), rows[d.id := RegisterEdit(d, TrimSpace(x.name), TrimSpace(x.model), Mac(x))])
      case None =>
        if Taken(rows, WithUuid(uuid)) then (Err(UniqueViolation), rows)
        else (Ok(Registered(uuid, key, true)), rows[nextId := row.(id := nextId)])
  }

  /** The key of a registration: the agent's own one, or one made from MAC and secret, or a random one. */
  lemma RegisteredKey(x: RegisterInput, md5: string -> Md5, random: string, uuid: string, rows: Rows, nextId: nat)
    ensures var r := Registration(x, md5, random, uuid, rows, nextId).0;
      r.Ok? ==>
        r.value.key ==
          (if TrimSpace(x.keyOptional) != "" then TrimSpace(x.keyOptional)
           else if x.consistentKey && TrimSpace(x.mac) != "" && x.expectedSecret != "" then md5(Lower(TrimSpace(x.mac)) + x.expectedSecret)
           else md5(random))
  {
    assert TrimSpace(x.mac) == "" <==> Mac(x) == "";
  }

  /** After a successful registration some row has the uuid and key it returned. */
  lemma RegisteredRow(x: RegisterInput, md5: string -> Md5, random: string, uuid: string, rows: Rows, nextId: nat)
    requires TableOk(rows, nextId)
    ensures var (r, rows') := Registration(x, md5, random, uuid, rows, nextId);
      r.Ok? ==> exists i | i in rows' :: rows'[i].uuid == r.value.uuid && rows'[i].key == r.value.key
  {
    var (r, rows') := Registration(x, md5, random, uuid, rows, nextId);
    if r.Ok? && !r.value.isNew {
      FirstIsRow(rows, nextId, WithKey(r.value.key));
      assert First(rows, WithKey(r.value.key)).value.id in rows';
    } else if r.Ok? {
      assert nextId in rows';
    }
  }

  /** An agent that sends the key of a row gets that row's uuid back, and is not new. */
  lemma RegisterKnownKey(x: RegisterInput, md5: string -> Md5, random: string, uuid: string, rows: Rows, nextId: nat, i: nat)
    requires TableOk(rows, nextId) && i in rows && SecretOk(x)
    requires TrimSpace(x.keyOptional) != "" && rows[i].key == TrimSpace(x.keyOptional)
    ensures Registration(x, md5, random, uuid, rows, nextId).0 == Ok(Registered(rows[i].uuid, rows[i].key, false))
  {
    FirstUnique(rows, nextId, WithKey(rows[i].key), i);
  }

  /** With consistent keys a device that registers again without a key is recognised by its MAC, up to case and
      white space, for any fresh UUIDs, as long as its row is still there. */
  lemma RegisterAgain(x: RegisterInput, y: RegisterInput, md5: string -> Md5, random: string, random': string, uuid: string, uuid': string,
                      rows: Rows, nextId: nat, rows': Rows, nextId': nat)
    requires TableOk(rows', nextId') && SecretOk(y)
    requires TrimSpace(x.keyOptional) == "" && TrimSpace(y.keyOptional) == "" && x.consistentKey && y.consistentKey
    requires x.expectedSecret == y.expectedSecret != "" && TrimSpace(x.mac) != "" && SameFold(TrimSpace(x.mac), TrimSpace(y.mac))
    ensures var r := Registration(x, md5, random, uuid, rows, nextId).0;
      r.Ok? && (exists i :: i in rows' && rows'[i].uuid == r.value.uuid && rows'[i].key == r.value.key) ==>
        Registration(y, md5, random', uuid', rows', nextId').0 == Ok(Registered(r.value.uuid, r.value.key, false))
  {
    RegisteredKey(x, md5, random, uuid, rows, nextId);
    RegisteredKey(y, md5, random', uuid', rows', nextId');
    LowerMeans(TrimSpace(x.mac), TrimSpace(y.mac));
    assert EffectiveKey(y, md5, random') == md5(Lower(TrimSpace(x.mac)) + x.expectedSecret);
    var r := Registration(x, md5, random, uuid, rows, nextId).0;
    if r.Ok? {
      if i :| i in rows' && rows'[i].uuid == r.value.uuid && rows'[i].key == r.value.key {
        FirstUnique(rows', nextId', WithKey(r.value.key), i);
      }
    }
  }

  /** A WireGuard peer row. */
  datatype Peer = Peer(deviceID: nat, privateKey: string, publicKey: string, presharedKey: string, address: string,
                       serverPub: string, endpoint: string, allowedIPs: string, keepalive: int)

  /** Peer rows in the order of their primary keys: First by device is the earliest. */
  function PeerOf(peers: seq<Peer>, deviceID: nat): (r: Option<Peer>)
    ensures r.Some? ==> r.value in peers && r.value.deviceID == deviceID
    ensures r.None? ==> forall p | p in peers :: p.deviceID != deviceID
  {
    if peers == [] then None
    else if peers[0].deviceID == deviceID then Some(peers[0])
    else PeerOf(peers[1..], deviceID)
  }

  /** Appending a peer never changes what an existing device finds. */
  lemma {:induction false} PeerOfAppend(peers: seq<Peer>, p: Peer, deviceID: nat)
    ensures PeerOf(peers + [p], deviceID) ==
      if PeerOf(peers, deviceID).Some? then PeerOf(peers, deviceID) else if p.deviceID == deviceID then Some(p) else None
  {
    if peers == [] {
      assert [] + [p] == [p];
    } else {
      PeerOfAppend(peers[1..], p, deviceID);
      assert (peers + [p])[1..] == peers[1..] + [p];
    }
  }

  class Store {
    var rows: Rows
    var nextId: nat
    var peers: seq<Peer>
    const sha: Bytes -> Digest

    ghost predicate Valid()
      reads this
    {
      TableOk(rows, nextId)
    }

    constructor (sha: Bytes -> Digest)
      ensures Valid() && rows == map[] && peers == [] && this.sha == sha
    {
      rows, nextId, peers := map[], 0, [];
      this.sha := sha;
    }

    method GetByUUID(uuid: string) returns (r: Option<Device>)
      ensures r == First(rows, WithUuid(uuid))
    {
      return First(rows, WithUuid(uuid));
    }

    method ValidateKey(uuid: string, key: string) returns (r: Result<Device>)
      ensures r == match First(rows, Matching(uuid, key)) case None => Err(Unauthorized) case Some(d) => Ok(d)
    {
      var d := First(rows, Matching(uuid, key));
      return if d.None? then Err(Unauthorized) else Ok(d.value);
    }

    method GetChecksum(uuid: string, key: string) returns (r: Result<string>)
      ensures match First(rows, Matching(uuid, key))
        case None => r == Err(Unauthorized)
        case Some(d) => r == if d.archive == [] || d.checksum == "" then Err(NotFound) else Ok(d.checksum)
    {
      var v := ValidateKey(uuid, key);
      if v.Err? {
        return Err(v.error);
      }
      if |v.value.archive| == 0 || v.value.checksum == "" {
        return Err(NotFound);
      }
      return Ok(v.value.checksum);
    }

    method GetConfig(uuid: string, key: string) returns (r: Result<(Bytes, string)>)
      ensures match First(rows, Matching(uuid, key))
        case None => r == Err(Unauthorized)
        case Some(d) => r == if d.archive == [] then Err(NotFound) else Ok((d.archive, d.checksum))
    {
      var v := ValidateKey(uuid, key);
      if v.Err? {
        return Err(v.error);
      }
      if |v.value.archive| == 0 {
        return Err(NotFound);
      }
      return Ok((v.value.archive, v.value.checksum));
    }

    /** Save: the whole snapshot goes back under its primary key. */
    method Save(d: Device)
      requires Valid() && d.id in rows && d.uuid == rows[d.id].uuid && d.key == rows[d.id].key
      modifies this`rows
      ensures Valid() && rows == old(rows)[d.id := d]
    {
      rows := rows[d.id := d];
    }

    method PutConfigTar(uuid: string, tar: Bytes, version: int, now: int) returns (ok: bool)
      requires Valid()
      modifies this`rows
      ensures Valid()
      ensures match First(old(rows), WithUuid(uuid))
        case None => !ok && rows == old(rows)
        case Some(d) => ok && rows == old(rows)[d.id :=
          d.(archive := tar, checksum := sha(tar), version := version, configUpdatedAt := Some(now))]
    {
      var d := First(rows, WithUuid(uuid));
      if d.None? {
        return false;
      }
      Save(PutEdit(sha, d.value, tar, version, now));
      return true;
    }

    method ReportStatus(uuid: string, key: string, status: string, now: int) returns (r: Result<()>)
      requires Valid()
      modifies this`rows
      ensures Valid()
      ensures match First(old(rows), Matching(uuid, key))
        case None => r == Err(Unauthorized) && rows == old(rows)
        case Some(d) =>
          var s := Lower(TrimSpace(status));
          r == Ok(()) && rows == old(rows)[d.id :=
            d.(lastSeen := Some(now), lastReported := status,
               status := if s == "error" || s == "failed" || s == "offline" then Offline else Online)]
    {
      var v := ValidateKey(uuid, key);
      if v.Err? {
        return Err(v.error);
      }
      Save(StatusEdit(v.value, status, now));
      return Ok(());
    }

    method ReportApplied(uuid: string, key: string, localSum: string, now: int) returns (r: Result<()>)
      requires Valid()
      modifies this`rows
      ensures Valid()
      ensures match First(old(rows), Matching(uuid, key))
        case None => r == Err(Unauthorized) && rows == old(rows)
        case Some(d) => r == Ok(()) && rows == old(rows)[d.id :=
          d.(lastAppliedAt := Some(now), lastAppliedSum := if TrimSpace(localSum) == "" then d.checksum else localSum, status := Online)]
    {
      var v := ValidateKey(uuid, key);
      if v.Err? {
        return Err(v.error);
      }
      Save(AppliedEdit(v.value, localSum, now));
      return Ok(());
    }

    /** A column update: no snapshot is involved. */
    method MarkSeen(uuid: string, now: int)
      requires Valid()
      modifies this`rows
      ensures Valid() && rows == SeenRows(old(rows), uuid, now)
      ensures forall i | i in old(rows) ::
        i in rows && rows[i] == if old(rows)[i].uuid == uuid then old(rows)[i].(lastSeen := Some(now), status := Online) else old(rows)[i]
    {
      rows := SeenRows(rows, uuid, now);
    }

    /** One tick of the offline sweeper. */
    method Sweep(cut: int)
      requires Valid()
      modifies this`rows
      ensures Valid() && rows == SweepRows(old(rows), cut)
    {
      rows := SweepRows(rows, cut);
    }

    /** Create: fails when a unique index is violated. */
    method Create(d: Device) returns (r: Result<Device>)
      requires Valid()
      modifies this`rows, this`nextId
      ensures Valid()
      ensures r.Ok? <==> !Taken(old(rows), WithUuid(d.uuid)) && !Taken(old(rows), WithKey(d.key))
      ensures r.Ok? ==> r.value == d.(id := old(nextId)) && rows == old(rows)[old(nextId) := r.value] && nextId == old(nextId) + 1
      ensures r.Err? ==> r.error == UniqueViolation && rows == old(rows) && nextId == old(nextId)
    {
      if Taken(rows, WithUuid(d.uuid)) || Taken(rows, WithKey(d.key)) {
        return Err(UniqueViolation);
      }
      var created := d.(id := nextId);
      rows, nextId := rows[nextId := created], nextId + 1;
      return Ok(created);
    }

    /** An unknown device is created without a key, so this works only while no row has an empty key. */
    method Adopt(a: AdoptInput, now: int) returns (r: Result<Device>)
      requires Valid()
      modifies this`rows, this`nextId
      ensures Valid()
      ensures match First(old(rows), WithUuid(a.uuid))
        case Some(d) =>
          && r.Ok? && rows == old(rows)[d.id := r.value] && nextId == old(nextId)
          && r.value == d.(
               fingerprint := a.fingerprint, status := Online, lastSeen := Some(now),
               name := if a.name.Some? && a.name.value != "" then a.name.value else d.name,
               mac := if a.mac.Some? && a.mac.value != "" then a.mac.value else d.mac,
               model := if a.model.Some? && a.model.value != "" then a.model.value else d.model)
        case None =>
          && (r.Ok? <==> forall i | i in old(rows) :: old(rows)[i].key != "")
          && (r.Ok? ==> rows == old(rows)[old(nextId) := r.value] && r.value == Device(
                old(nextId), a.uuid, "",
                if a.name.Some? then a.name.value else "", if a.model.Some? then a.model.value else "",
                if a.mac.Some? then a.mac.value else "", a.fingerprint,
                Online, Some(now), [], "", 0, None, "", None, ""))
          && (r.Err? ==> r.error == UniqueViolation && rows == old(rows))
    {
      var d := First(rows, WithUuid(a.uuid));
      if d.None? {
        r := Create(AdoptNew(a, now));
        return;
      }
      var edited := AdoptEdit(d.value, a, now);
      Save(edited);
      return Ok(edited);
    }

    method AckConfigOW(uuid: string, version: int, checksum: string, now: int) returns (r: Result<()>)
      requires Valid()
      modifies this`rows
      ensures Valid()
      ensures match First(old(rows), WithUuid(uuid))
        case None => r == Err(NotFound) && rows == old(rows)
        case Some(d) => r == Ok(()) && rows == old(rows)[d.id :=
          d.(version := version, checksum := checksum, configUpdatedAt := Some(now), status := Online)]
    {
      var d := GetByUUID(uuid);
      if d.None? {
        return Err(NotFound);
      }
      Save(AckEdit(d.value, version, checksum, now));
      return Ok(());
    }

    /** Register when nothing comes in between; random and uuid are the two fresh UUIDs. */
    method Register(x: RegisterInput, md5: string -> Md5, random: string, uuid: string) returns (r: Result<Registered>)
      requires Valid()
      modifies this`rows, this`nextId
      ensures Valid()
      ensures (r, rows) == Registration(x, md5, random, uuid, old(rows), old(nextId))
      ensures r == Err(BadSecret) <==> TrimSpace(x.expectedSecret) != "" && x.sharedSecret != TrimSpace(x.expectedSecret)
      ensures r.Err? ==> rows == old(rows)
      ensures r.Ok? && !r.value.isNew ==> exists i | i in old(rows) ::
        && old(rows)[i].uuid == r.value.uuid && old(rows)[i].key == r.value.key
        && rows == old(rows)[i := old(rows)[i].(
             name := if TrimSpace(x.name) != "" then TrimSpace(x.name) else old(rows)[i].name,
             model := if TrimSpace(x.model) != "" then TrimSpace(x.model) else old(rows)[i].model,
             mac := if TrimSpace(x.mac) != "" then Lower(TrimSpace(x.mac)) else old(rows)[i].mac)]
      ensures r.Ok? && r.value.isNew ==>
        && r.value.uuid == uuid && (forall i | i in old(rows) :: old(rows)[i].key != r.value.key && old(rows)[i].uuid != uuid)
        && rows == old(rows)[old(nextId) := Device(
             old(nextId), uuid, r.value.key, TrimSpace(x.name), TrimSpace(x.model), Lower(TrimSpace(x.mac)), "",
             Unknown, None, [], "", 0, None, "", None, "")]
    {
      assert TrimSpace(x.mac) == "" <==> Mac(x) == "";
      if !SecretOk(x) {
        return Err(BadSecret);
      }
      var key := EffectiveKey(x, md5, random);
      var d := First(rows, WithKey(key));
      if d.Some? {
        rows := rows[d.value.id := RegisterEdit(rows[d.value.id], TrimSpace(x.name), TrimSpace(x.model), Mac(x))];
        return Ok(Registered(d.value.uuid, key, false));
      }
      var created := Create(NewDevice(uuid, key, TrimSpace(x.name), TrimSpace(x.model), Mac(x)));
      if created.Err? {
        return Err(created.error);
      }
      return Ok(Registered(uuid, key, true));
    }

    /** Find-or-create; newPeer is what the callback would return. */
    method EnsureWGPeer(deviceID: nat, newPeer: Peer) returns (p: Peer)
      modifies this`peers
      ensures Some(p) == PeerOf(peers, deviceID)
      ensures PeerOf(old(peers), deviceID).Some? ==> peers == old(peers)
      ensures PeerOf(old(peers), deviceID).None? ==> p == newPeer.(deviceID := deviceID) && peers == old(peers) + [p]
    {
      var found := PeerOf(peers, deviceID);
      if found.Some? {
        return found.value;
      }
      p := newPeer.(deviceID := deviceID);
      PeerOfAppend(peers, p, deviceID);
      peers := peers + [p];
    }
  }
}
