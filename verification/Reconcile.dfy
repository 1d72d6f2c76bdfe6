/** Reconcile: merge templates, apply variables, lay the VPN overlay on top, render, archive, compare, store. */
module Reconcile {
  import opened Base
  import opened NetJson
  import opened MergeLaws
  import opened Variables
  import opened DeviceStore
  import opened DeviceRuns
  import opened WireGuardPool
  import Sorting
  import Tarball

  datatype Mode = NoVpn | WireGuard | OpenVpn | ZeroTier

  /** The settings Reconcile reads; pool is what parsing AddressPoolCIDR gives. */
  datatype Config = Config(
    mode: Mode, pool: Option<Network>, serverPub: string, endpoint: string, allowedIPs: Option<seq<string>>, keepalive: int,
    networkID: string, remote: string, port: int, proto: string, cipher: string, auth: string)

  /** A template row after decoding its JSON column; JSON null decodes to a nil map. */
  datatype Template = Template(name: string, priority: int, body: Body)

  datatype Body = Unreadable | Readable(json: Option<Fields>)

  /** Uninterpreted stages: the template engine for given data, the UCI renderer, the wg0.conf writer, and the archive codec. */
  datatype Env = Env(engine: Fields -> (string -> string), renderAll: (Fields, string) -> seq<Tarball.File>, wgConf: Fields -> Bytes, codec: Tarball.Codec)

  /** What a run generates on demand: WireGuard keys, and OpenVPN certificates unless issuing them fails. */
  datatype Material = Material(privateKey: string, publicKey: string, presharedKey: string, certs: Option<Certs>)

  datatype Certs = Certs(ca: Bytes, crt: Bytes, key: Bytes)

  datatype Outcome = Failed | NoDevice | Done(sum: string, updated: bool)

  function VarsFor(d: Device): Fields {
    map["device_uuid" := Str(d.uuid), "device_name" := Str(d.name), "model" := Str(d.model), "mac" := Str(d.mac)]
  }

  function SourcesOf(templates: seq<Template>): seq<Source>
    requires forall t | t in templates :: t.body.Readable?
  {
    seq(|templates|, i requires 0 <= i < |templates| => Source(templates[i].name, templates[i].priority, templates[i].body.json))
  }

  function BaseTree(env: Env, templates: seq<Template>, d: Device): Fields
    requires forall t | t in templates :: t.body.Readable?
  {
    ApplyVars(Merged(SourcesOf(templates)), VarsFor(d), env.engine(VarsFor(d)))
  }

  function NewPeer(cfg: Config, address: string, m: Material): Peer {
    Peer(0, m.privateKey, m.publicKey, m.presharedKey, address, cfg.serverPub, cfg.endpoint,
         match cfg.allowedIPs case None => "" case Some(l) => Join(l, ','), cfg.keepalive)
  }

  function WireGuardOverlay(cfg: Config, p: Peer): Fields {
    map["wireguard" := Obj(map[
      "interface" := Str("wg0"), "address" := Str(p.address), "private_key" := Str(p.privateKey),
      "peers" := Arr([Obj(map[
        "public_key" := Str(p.serverPub), "preshared_key" := Str(p.presharedKey), "endpoint" := Str(cfg.endpoint),
        "allowed_ips" := GoStrings(cfg.allowedIPs), "keepalive" := GoInt(cfg.keepalive)])])])]
  }

  function OpenVpnOverlay(cfg: Config): Fields {
    map["openvpn" := Obj(map["clients" := Arr([Obj(map[
      "name" := Str("client"), "remote" := Str(cfg.remote), "port" := GoInt(cfg.port),
      "proto" := Str(cfg.proto), "cipher" := Str(cfg.cipher), "auth" := Str(cfg.auth)])])])]
  }

  function ZeroTierOverlay(cfg: Config): Fields {
    map["zerotier" := Obj(map["enabled" := Bool(true), "networks" := Arr([Str(cfg.networkID)])])]
  }

  /** What the VPN stage contributes: an overlay, if any, and extra files. */
  datatype Vpn = Vpn(overlay: Option<Fields>, extra: map<string, Bytes>)

  /** The VPN stage and the peer table after it; None when the stage fails. */
  function VpnStage(env: Env, cfg: Config, m: Material, d: Device, peers: seq<Peer>): (Option<Vpn>, seq<Peer>) {
    match cfg.mode
    case NoVpn => (Some(Vpn(None, map[])), peers)
    case ZeroTier => (Some(Vpn(Some(ZeroTierOverlay(cfg)), map[])), peers)
    case WireGuard =>
      (match PickWGAddress(cfg.pool, d.id)
       case None => (None, peers)
       case Some(address) =>
         var (p, after) := Ensured(peers, d.id, NewPeer(cfg, address, m));
         var overlay := WireGuardOverlay(cfg, p);
         (Some(Vpn(Some(overlay), map["etc/wireguard/wg0.conf" := env.wgConf(overlay)])), after))
    case OpenVpn =>
      (match m.certs
       case None => (None, peers)
       case Some(c) =>
         var dir := "etc/openvpn/" + d.uuid + "/";
         (Some(Vpn(Some(OpenVpnOverlay(cfg)), map[dir + "ca.crt" := c.ca, dir + "client.crt" := c.crt, dir + "client.key" := c.key])), peers))
  }

  /** The second merge: base at priority 10, overlay at 999. */
  function FinalTree(base: Fields, overlay: Option<Fields>): Fields {
    match overlay case None => base case Some(o) => Overlay(Obj(base), Obj(o)).fields
  }

  ghost function ArchiveOf(env: Env, templates: seq<Template>, d: Device, v: Vpn): Option<Tarball.Archive>
    requires forall t | t in templates :: t.body.Readable?
  {
    Tarball.Built(env.codec, env.renderAll(FinalTree(BaseTree(env, templates, d), v.overlay), d.name), v.extra)
  }

  /** Everything up to the archive, for device d: no archive when some stage fails, and the peer table. */
  ghost function Prepared(env: Env, cfg: Config, templates: seq<Template>, m: Material, d: Device, peers: seq<Peer>)
    : (Option<Tarball.Archive>, seq<Peer>)
  {
    if exists t | t in templates :: t.body.Unreadable? then (None, peers)
    else
      var (v, after) := VpnStage(env, cfg, m, d, peers);
      (if v.None? then None else ArchiveOf(env, templates, d, v.value), after)
  }

  /** A run for device d. */
  ghost function ReconciledDevice(env: Env, cfg: Config, templates: seq<Template>, m: Material, now: int, d: Device, rows: Rows, peers: seq<Peer>)
    : (Outcome, Rows, seq<Peer>)
  {
    match Prepared(env, cfg, templates, m, d, peers)
    case (None, after) => (Failed, rows, after)
    case (Some(a), after) =>
      if a.sum == d.checksum then (Done(a.sum, false), rows, after)
      else (Done(a.sum, true), rows[d.id := PutEdit(env.codec.sha, d, a.bytes, NextVersion(d.version), now)], after)
  }

  /** One run of Reconcile over the device rows and the peer table. */
  ghost function Reconciled(env: Env, cfg: Config, templates: seq<Template>, m: Material, now: int, uuid: string, rows: Rows, peers: seq<Peer>)
    : (Outcome, Rows, seq<Peer>)
  {
    match First(rows, WithUuid(uuid))
    case None => (NoDevice, rows, peers)
    case Some(d) => ReconciledDevice(env, cfg, templates, m, now, d, rows, peers)
  }

  /** Running the VPN stage again, over any peer table in which the device finds the same peer, gives the same
      overlay and files and leaves that table alone. */
  lemma VpnStageSettles(env: Env, cfg: Config, m: Material, m': Material, d: Device, d': Device, peers: seq<Peer>, later: seq<Peer>)
    requires cfg.mode != OpenVpn && d.id == d'.id
    requires VpnStage(env, cfg, m, d, peers).0.Some?
    requires PeerOf(later, d.id) == PeerOf(VpnStage(env, cfg, m, d, peers).1, d.id)
    ensures VpnStage(env, cfg, m', d', later) == (VpnStage(env, cfg, m, d, peers).0, later)
  {
    if cfg.mode == WireGuard {
      var created := NewPeer(cfg, PickWGAddress(cfg.pool, d.id).value, m).(deviceID := d.id);
      PeerOfAppend(peers, created, d.id);
    }
  }

  /** The archive depends on the device only through what Reconcile never writes. */
  lemma ArchiveIgnoresConfig(env: Env, templates: seq<Template>, d: Device, d': Device, v: Vpn)
    requires forall t | t in templates :: t.body.Readable?
    requires d'.uuid == d.uuid && d'.name == d.name && d'.model == d.model && d'.mac == d.mac
    ensures ArchiveOf(env, templates, d', v) == ArchiveOf(env, templates, d, v)
  {
    assert VarsFor(d') == VarsFor(d);
  }

  /** A run stores nothing, or one archive in the device's row. */
  lemma ReconciledPut(env: Env, cfg: Config, templates: seq<Template>, m: Material, now: int, uuid: string, rows: Rows, peers: seq<Peer>)
    ensures var rows', d := Reconciled(env, cfg, templates, m, now, uuid, rows, peers).1, First(rows, WithUuid(uuid));
      rows' == rows || (d.Some? && exists tar :: rows' == rows[d.value.id := PutEdit(env.codec.sha, d.value, tar, NextVersion(d.value.version), now)])
  {}

  /** Replacing the row that was found by a version of itself. */
  lemma PutRow(rows: Rows, nextId: nat, uuid: string, d': Device)
    requires TableOk(rows, nextId) && First(rows, WithUuid(uuid)).Some?
    requires var d := First(rows, WithUuid(uuid)).value; d'.id == d.id && d'.uuid == d.uuid && d'.key == d.key
    ensures var d := First(rows, WithUuid(uuid)).value;
      d.id in rows && rows[d.id] == d && TableOk(rows[d.id := d'], nextId) && First(rows[d.id := d'], WithUuid(uuid)) == Some(d')
  {
    FirstIsRow(rows, nextId, WithUuid(uuid));
    ReplaceOk(rows, nextId, d');
    FirstUnique(rows[d'.id := d'], nextId, WithUuid(uuid), d'.id);
  }

  /** What a successful run may change in the device it found. */
  predicate Configured(d: Device, d': Device, sum: string) {
    d' == d.(archive := d'.archive, checksum := sum, version := d'.version, configUpdatedAt := d'.configUpdatedAt)
  }

  /** The row of the device after a run. */
  ghost function RowAfter(env: Env, cfg: Config, templates: seq<Template>, m: Material, now: int, d: Device, peers: seq<Peer>): Device {
    match Prepared(env, cfg, templates, m, d, peers).0
    case None => d
    case Some(a) => if a.sum == d.checksum then d else PutEdit(env.codec.sha, d, a.bytes, NextVersion(d.version), now)
  }

  lemma DeviceRow(env: Env, cfg: Config, templates: seq<Template>, m: Material, now: int, d: Device, rows: Rows, peers: seq<Peer>)
    requires d.id in rows && rows[d.id] == d
    ensures var (o, rows', _) := ReconciledDevice(env, cfg, templates, m, now, d, rows, peers);
      var d' := RowAfter(env, cfg, templates, m, now, d, peers);
      && rows' == rows[d.id := d']
      && (o.Done? ==> Configured(d, d', o.sum) && (o.updated ==> o.sum == env.codec.sha(d'.archive)) && (!o.updated ==> d' == d))
  {
    assert rows == rows[d.id := d];
  }

  /** After a successful run the row carries the sum it returned, and is otherwise what it was. */
  lemma ReconciledRow(env: Env, cfg: Config, templates: seq<Template>, m: Material, now: int, uuid: string, rows: Rows, peers: seq<Peer>, nextId: nat)
    requires TableOk(rows, nextId)
    ensures var (o, rows', _) := Reconciled(env, cfg, templates, m, now, uuid, rows, peers);
      o.Done? ==>
      && First(rows, WithUuid(uuid)).Some?
      && var d := First(rows, WithUuid(uuid)).value;
      && First(rows', WithUuid(uuid)).Some?
      && var d' := First(rows', WithUuid(uuid)).value;
      && Configured(d, d', o.sum)
      && (o.updated ==> o.sum == env.codec.sha(d'.archive)) && (!o.updated ==> d' == d)
      && TableOk(rows', nextId)
      && d.id in rows && rows[d.id] == d && rows' == rows[d.id := d']
  {
    if First(rows, WithUuid(uuid)).Some? {
      var d := First(rows, WithUuid(uuid)).value;
      FirstIsRow(rows, nextId, WithUuid(uuid));
      DeviceRow(env, cfg, templates, m, now, d, rows, peers);
      PutRow(rows, nextId, uuid, RowAfter(env, cfg, templates, m, now, d, peers));
    }
  }

  /** The next successful run, whatever it generates: it returns its own sum and reports an update exactly
      when that differs from the sum of the run before. */
  lemma NextRun(env: Env, cfg: Config, templates: seq<Template>, m: Material, m': Material, now: int, now': int,
                uuid: string, rows: Rows, peers: seq<Peer>, nextId: nat)
    requires TableOk(rows, nextId)
    ensures var (o, rows', peers') := Reconciled(env, cfg, templates, m, now, uuid, rows, peers);
      var (o', rows'', _) := Reconciled(env, cfg, templates, m', now', uuid, rows', peers');
      o.Done? && o'.Done? ==> (o'.updated <==> o'.sum != o.sum) && (!o'.updated ==> rows'' == rows')
  {
    ReconciledRow(env, cfg, templates, m, now, uuid, rows, peers, nextId);
  }

  /** Everything about the device that goes into its archive. */
  predicate SameInputs(d: Device, d': Device) {
    d'.id == d.id && d'.uuid == d.uuid && d'.name == d.name && d'.model == d.model && d'.mac == d.mac
  }

  lemma DeviceFixpoint(env: Env, cfg: Config, templates: seq<Template>, m: Material, m': Material, now: int, now': int,
                       d: Device, d': Device, rows: Rows, rows': Rows, peers: seq<Peer>, peers': seq<Peer>)
    requires cfg.mode != OpenVpn && SameInputs(d, d')
    requires ReconciledDevice(env, cfg, templates, m, now, d, rows, peers).0.Done?
    requires d'.checksum == ReconciledDevice(env, cfg, templates, m, now, d, rows, peers).0.sum
    requires PeerOf(peers', d.id) == PeerOf(ReconciledDevice(env, cfg, templates, m, now, d, rows, peers).2, d.id)
    ensures ReconciledDevice(env, cfg, templates, m', now', d', rows', peers') ==
      (Done(ReconciledDevice(env, cfg, templates, m, now, d, rows, peers).0.sum, false), rows', peers')
  {
    VpnStageSettles(env, cfg, m, m', d, d', peers, peers');
    ArchiveIgnoresConfig(env, templates, d, d', VpnStage(env, cfg, m, d, peers).0.value);
  }

  /** A later table in which the device is as the run left it, as far as Reconcile is concerned. */
  ghost predicate Undisturbed(uuid: string, d: Device, sum: string, peers: seq<Peer>, rows': Rows, peers': seq<Peer>) {
    && First(rows', WithUuid(uuid)).Some?
    && SameInputs(d, First(rows', WithUuid(uuid)).value)
    && First(rows', WithUuid(uuid)).value.checksum == sum
    && PeerOf(peers', d.id) == PeerOf(peers, d.id)
  }

  /** Reconcile reaches its fixpoint in one run: without OpenVPN any later run returns the same sum, reports no
      update and leaves rows and peers as they are, whatever happened in between to other devices and to the
      status, times and reports of this one. The first run may have created the peer. */
  lemma Fixpoint(env: Env, cfg: Config, templates: seq<Template>, m: Material, m': Material, now: int, now': int,
                 uuid: string, rows: Rows, peers: seq<Peer>, rows': Rows, peers': seq<Peer>)
    requires cfg.mode != OpenVpn && First(rows, WithUuid(uuid)).Some?
    ensures var (o, _, after) := Reconciled(env, cfg, templates, m, now, uuid, rows, peers);
      o.Done? && Undisturbed(uuid, First(rows, WithUuid(uuid)).value, o.sum, after, rows', peers') ==>
        Reconciled(env, cfg, templates, m', now', uuid, rows', peers') == (Done(o.sum, false), rows', peers')
  {
    var (o, _, after) := Reconciled(env, cfg, templates, m, now, uuid, rows, peers);
    var d := First(rows, WithUuid(uuid)).value;
    if o.Done? && Undisturbed(uuid, d, o.sum, after, rows', peers') {
      DeviceFixpoint(env, cfg, templates, m, m', now, now', d, First(rows', WithUuid(uuid)).value, rows, rows', peers, peers');
    }
  }

  /** In particular the run that follows with nothing in between. */
  lemma FixpointAtOnce(env: Env, cfg: Config, templates: seq<Template>, m: Material, m': Material, now: int, now': int,
                       uuid: string, rows: Rows, peers: seq<Peer>, nextId: nat)
    requires TableOk(rows, nextId) && cfg.mode != OpenVpn
    ensures var (o, rows', peers') := Reconciled(env, cfg, templates, m, now, uuid, rows, peers);
      o.Done? ==> Reconciled(env, cfg, templates, m', now', uuid, rows', peers') == (Done(o.sum, false), rows', peers')
  {
    var (o, rows', peers') := Reconciled(env, cfg, templates, m, now, uuid, rows, peers);
    ReconciledRow(env, cfg, templates, m, now, uuid, rows, peers, nextId);
    if o.Done? {
      Fixpoint(env, cfg, templates, m, m', now, now', uuid, rows, peers, rows', peers');
    }
  }

  // ---- the overlay wins ----

  /** The two-source Merge call is one overlay. */
  lemma SecondMerge(base: Fields, overlay: Fields, name: string)
    ensures Merged([Source("base", 10, Some(base)), Source(name, 999, Some(overlay))]) == Some(FinalTree(base, Some(overlay)))
  {
    var a, b := Source("base", 10, Some(base)), Source(name, 999, Some(overlay));
    assert [a, b][..1] == [a] && [a][..0] == [];
    assert Sorting.Sort(NotAbove, [a]) == [a];
    assert InOrder([a, b]) == [a, b];
    assert Obj(CloneMap(base)) == Normal(Obj(base));
    assert Stack([a]) == Some(CloneMap(base));
    OverlayNormalBelow(Obj(base), Obj(overlay));
  }

  /** Every path the overlay touches reads as the overlay, up to JSON normalisation; every other path reads
      as the tree below, whatever the template priorities were. */
  lemma OverlayDominates(base: Fields, overlay: Fields, p: Path)
    ensures Slot(Obj(FinalTree(base, Some(overlay))), p) ==
      Slot(Normal(if Touches(Obj(overlay), p) then Obj(overlay) else Obj(base)), p)
  {
    OverlaySlot(Obj(base), Obj(overlay), p);
  }

  /** What a template value becomes: variables substituted inside it, strings rendered. */
  function Arrived(env: Env, d: Device, v: Json): Json {
    Render(Walk(v, VarsFor(d)), env.engine(VarsFor(d)))
  }

  lemma TemplateValueInBase(env: Env, templates: seq<Template>, d: Device, p: Path, i: nat, v: Json)
    requires forall t | t in templates :: t.body.Readable?
    requires Decides(SourcesOf(templates), p, i) && Says(SourcesOf(templates)[i], p) == Some(Leaf(v))
    requires Merged(SourcesOf(templates)).Some? && PlainPath(Obj(Merged(SourcesOf(templates)).value), p)
    ensures At(Obj(BaseTree(env, templates, d)), p) == Some(Arrived(env, d, v))
  {
    var sources := SourcesOf(templates);
    MergeSlot(sources, p);
    MergedIsNormal(sources);
    ApplyVarsKeeps(Merged(sources).value, VarsFor(d), env.engine(VarsFor(d)), p);
  }

  /** A value that is not an object, nor replaced by one, is still none after substitution and rendering. */
  lemma ArrivedIsLeaf(env: Env, d: Device, v: Json)
    requires !v.Obj?
    ensures !Normal(Arrived(env, d, v)).Obj?
  {}

  /** From a template to the final tree: a value at p of the template that decides p, away from $var objects
      and untouched by the overlay, comes out rendered at p. */
  lemma TemplateValueArrives(env: Env, templates: seq<Template>, d: Device, overlay: Fields, p: Path, i: nat, v: Json)
    requires forall t | t in templates :: t.body.Readable?
    requires Decides(SourcesOf(templates), p, i) && Says(SourcesOf(templates)[i], p) == Some(Leaf(v)) && !v.Obj?
    requires Merged(SourcesOf(templates)).Some? && PlainPath(Obj(Merged(SourcesOf(templates)).value), p)
    requires !Touches(Obj(overlay), p)
    ensures Slot(Obj(FinalTree(BaseTree(env, templates, d), Some(overlay))), p) == Some(Leaf(Normal(Arrived(env, d, v))))
  {
    TemplateValueInBase(env, templates, d, p, i, v);
    ArrivedIsLeaf(env, d, v);
    var base := BaseTree(env, templates, d);
    OverlayDominates(base, overlay, p);
    AtNormal(Obj(base), p);
  }

  /** The variables of a device are clean, so a second substitution pass over a merged tree is the
      identity exactly when one pass sufficed. */
  lemma WiredSubstitution(d: Device, x: Json)
    ensures VarsClean(VarsFor(d))
    ensures Walk(Walk(x, VarsFor(d)), VarsFor(d)) == Walk(x, VarsFor(d)) <==> OnePassSuffices(x, VarsFor(d))
  {
    WalkTwice(x, VarsFor(d));
  }

  lemma MergedIsNormal(sources: seq<Source>)
    ensures Merged(sources).Some? ==> IsNormal(Obj(Merged(sources).value))
  {
    StackIsNormal(InOrder(sources));
  }

  lemma WireGuardLeaf(cfg: Config, p: Peer, base: Fields, k: string, text: string)
    requires k in WireGuardOverlay(cfg, p)["wireguard"].fields && WireGuardOverlay(cfg, p)["wireguard"].fields[k] == Str(text)
    ensures Slot(Obj(FinalTree(base, Some(WireGuardOverlay(cfg, p)))), ["wireguard", k]) == Some(Leaf(Str(text)))
  {
    var o := WireGuardOverlay(cfg, p);
    TwoSteps(Obj(o), "wireguard", k);
    OverlayDominates(base, o, ["wireguard", k]);
    AtNormal(Obj(o), ["wireguard", k]);
  }

  /** In wireguard mode the final tree holds the peer's address and key whatever the templates say. */
  lemma WireGuardArrives(cfg: Config, p: Peer, base: Fields)
    ensures var tree := Obj(FinalTree(base, Some(WireGuardOverlay(cfg, p))));
      && Slot(tree, ["wireguard", "address"]) == Some(Leaf(Str(p.address)))
      && Slot(tree, ["wireguard", "private_key"]) == Some(Leaf(Str(p.privateKey)))
      && Slot(tree, ["wireguard", "interface"]) == Some(Leaf(Str("wg0")))
  {
    WireGuardLeaf(cfg, p, base, "address", p.address);
    WireGuardLeaf(cfg, p, base, "private_key", p.privateKey);
    WireGuardLeaf(cfg, p, base, "interface", "wg0");
  }

  lemma TwoSteps(x: Json, a: string, b: string)
    requires x.Obj? && a in x.fields && x.fields[a].Obj? && b in x.fields[a].fields
    ensures Touches(x, [a, b]) && At(x, [a, b]) == Some(x.fields[a].fields[b])
  {
    assert [a, b][1..] == [b] && [b][1..] == [];
    AtKey(x.fields[a], b);
  }

  // ---- the imperative form ----

  /** The stages of one run, in the order the code takes them. */
  class Reconciler {
    const devices: Store
    const env: Env
    const cfg: Config

    constructor (devices: Store, env: Env, cfg: Config)
      ensures this.devices == devices && this.env == env && this.cfg == cfg
    {
      this.devices, this.env, this.cfg := devices, env, cfg;
    }

    /** Decodes the templates one by one; the first unreadable one ends the run. */
    method CollectSources(templates: seq<Template>) returns (sources: Option<array<Source>>)
      ensures sources.None? <==> exists t | t in templates :: t.body.Unreadable?
      ensures sources.Some? ==> fresh(sources.value) && sources.value[..] == SourcesOf(templates)
    {
      var list := [];
      for i := 0 to |templates|
        invariant |list| == i && forall j | 0 <= j < i :: templates[j].body.Readable? && list[j] == Source(templates[j].name, templates[j].priority, templates[j].body.json)
      {
        var t := templates[i];
        if t.body.Unreadable? {
          return None;
        }
        list := list + [Source(t.name, t.priority, t.body.json)];
      }
      var a := new Source[|list|](i requires 0 <= i < |list| => list[i]);
      assert a[..] == list == SourcesOf(templates);
      return Some(a);
    }

    /** Lays one overlay over the tree through the two-source Merge call. */
    method MergeOverlay(base: Fields, overlay: Fields, name: string) returns (tree: Fields)
      ensures tree == FinalTree(base, Some(overlay))
    {
      var pair := new Source[2];
      pair[0], pair[1] := Source("base", 10, Some(base)), Source(name, 999, Some(overlay));
      assert pair[..] == [Source("base", 10, Some(base)), Source(name, 999, Some(overlay))];
      SecondMerge(base, overlay, name);
      var merged := Merge(pair);
      return merged.value;
    }

    /** overlayWireGuard: picks the address, finds or creates the peer. */
    method OverlayWireGuard(d: Device, m: Material) returns (overlay: Option<Fields>)
      modifies devices`peers
      ensures match PickWGAddress(cfg.pool, d.id)
        case None => overlay == None && devices.peers == old(devices.peers)
        case Some(address) =>
          var (p, after) := Ensured(old(devices.peers), d.id, NewPeer(cfg, address, m));
          overlay == Some(WireGuardOverlay(cfg, p)) && devices.peers == after
    {
      var address := PickWGAddress(cfg.pool, d.id);
      if address.None? {
        return None;
      }
      var p := devices.EnsureWGPeer(d.id, NewPeer(cfg, address.value, m));
      return Some(WireGuardOverlay(cfg, p));
    }

    /** The switch on the VPN mode: the overlaid tree and the extra files. */
    method ApplyVpn(base: Fields, d: Device, m: Material) returns (r: Option<(Fields, map<string, Bytes>)>)
      modifies devices`peers
      ensures devices.peers == VpnStage(env, cfg, m, d, old(devices.peers)).1
      ensures match VpnStage(env, cfg, m, d, old(devices.peers)).0
        case None => r == None
        case Some(v) => r == Some((FinalTree(base, v.overlay), v.extra))
    {
      match cfg.mode
      case NoVpn =>
        return Some((base, map[]));
      case ZeroTier =>
        var tree := MergeOverlay(base, ZeroTierOverlay(cfg), "zt");
        return Some((tree, map[]));
      case WireGuard =>
        var overlay := OverlayWireGuard(d, m);
        if overlay.None? {
          return None;
        }
        var tree := MergeOverlay(base, overlay.value, "wg");
        return Some((tree, map["etc/wireguard/wg0.conf" := env.wgConf(overlay.value)]));
      case OpenVpn =>
        var tree := MergeOverlay(base, OpenVpnOverlay(cfg), "ovpn");
        if m.certs.None? {
          return None;
        }
        var dir := "etc/openvpn/" + d.uuid + "/";
        return Some((tree, map[dir + "ca.crt" := m.certs.value.ca, dir + "client.crt" := m.certs.value.crt, dir + "client.key" := m.certs.value.key]));
    }

    method BuildArchive(tree: Fields, hostname: string, extra: map<string, Bytes>) returns (r: Option<Tarball.Archive>)
      ensures r == Tarball.Built(env.codec, env.renderAll(tree, hostname), extra)
    {
      var rendered := env.renderAll(tree, hostname);
      var files := new Tarball.File[|rendered|](i requires 0 <= i < |rendered| => rendered[i]);
      assert files[..] == rendered;
      r := Tarball.Build(env.codec, files, extra);
    }

    /** Steps 1 and 2: merged templates with variables applied. */
    method BuildBase(templates: seq<Template>, d: Device) returns (base: Option<Fields>)
      ensures base.None? <==> exists t | t in templates :: t.body.Unreadable?
      ensures base.Some? ==> base.value == BaseTree(env, templates, d)
    {
      var sources := CollectSources(templates);
      if sources.None? {
        return None;
      }
      var merged := Merge(sources.value);
      var tree := ApplyVarsInSteps(merged, VarsFor(d), env.engine(VarsFor(d)));
      return Some(tree);
    }

    /** The last step: nothing to do when the sum is the stored one, otherwise a put with the next version. */
    method StoreIfChanged(uuid: string, d: Device, a: Tarball.Archive, now: int) returns (o: Outcome)
      requires devices.Valid() && devices.sha == env.codec.sha && First(devices.rows, WithUuid(uuid)) == Some(d)
      modifies devices`rows
      ensures devices.Valid()
      ensures o == Done(a.sum, a.sum != d.checksum)
      ensures devices.rows == if a.sum == d.checksum then old(devices.rows)
        else old(devices.rows)[d.id := PutEdit(env.codec.sha, d, a.bytes, NextVersion(d.version), now)]
    {
      if a.sum == d.checksum {
        return Done(a.sum, false);
      }
      var stored := devices.PutConfigTar(uuid, a.bytes, NextVersion(d.version), now);
      return Done(a.sum, true);
    }

    /** Steps 1 to 4: the archive for a device, or none when a step fails. */
    method Prepare(templates: seq<Template>, d: Device, m: Material) returns (a: Option<Tarball.Archive>)
      modifies devices`peers
      ensures (a, devices.peers) == Prepared(env, cfg, templates, m, d, old(devices.peers))
    {
      var base := BuildBase(templates, d);
      if base.None? {
        return None;
      }
      var staged := ApplyVpn(base.value, d, m);
      if staged.None? {
        return None;
      }
      a := BuildArchive(staged.value.0, d.name, staged.value.1);
    }

    method Reconcile(uuid: string, templates: seq<Template>, m: Material, now: int) returns (o: Outcome)
      requires devices.Valid() && devices.sha == env.codec.sha
      modifies devices`rows, devices`peers
      ensures devices.Valid()
      ensures (o, devices.rows, devices.peers) == Reconciled(env, cfg, templates, m, now, uuid, old(devices.rows), old(devices.peers))
    {
      var dev := devices.GetByUUID(uuid);
      if dev.None? {
        return NoDevice;
      }
      var built := Prepare(templates, dev.value, m);
      if built.None? {
        return Failed;
      }
      o := StoreIfChanged(uuid, dev.value, built.value, now);
    }
  }
}
