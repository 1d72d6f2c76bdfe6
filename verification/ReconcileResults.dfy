/** What a run of Reconcile hands to the renderer and the archive, setting by setting. */
module ReconcileResults {
  import opened Base
  import opened NetJson
  import opened MergeLaws
  import opened Variables
  import opened DeviceStore
  import opened WireGuardPool
  import opened Reconcile
  import PeerRuns
  import Tarball

  // ---- templates and variables ----

  predicate TemplateSpeaks(t: Template, p: Path) {
    t.body.Readable? && t.body.json.Some? && Touches(Obj(t.body.json.value), p)
  }

  /** Template i has a say at p, none with one has a higher priority, and among equal ones it comes last. */
  ghost predicate TemplateDecides(templates: seq<Template>, p: Path, i: nat) {
    && i < |templates| && TemplateSpeaks(templates[i], p)
    && (forall j | 0 <= j < |templates| && TemplateSpeaks(templates[j], p) :: templates[j].priority <= templates[i].priority)
    && (forall j | i < j < |templates| && TemplateSpeaks(templates[j], p) :: templates[j].priority < templates[i].priority)
  }

  lemma TemplateIsSource(templates: seq<Template>, p: Path, i: nat)
    requires forall t | t in templates :: t.body.Readable?
    ensures TemplateDecides(templates, p, i) <==> Decides(SourcesOf(templates), p, i)
  {
    var sources := SourcesOf(templates);
    forall j | 0 <= j < |templates|
      ensures TemplateSpeaks(templates[j], p) <==> Speaks(p)(sources[j])
      ensures templates[j].priority == sources[j].priority
    {}
  }

  /** From the template table to the tree for the renderer: the value of the deciding template, away from $var
      objects and untouched by the overlay, stands at its path with its own variables and strings worked out. */
  lemma TemplateArrives(env: Env, templates: seq<Template>, d: Device, overlay: Fields, p: Path, i: nat, v: Json)
    requires forall t | t in templates :: t.body.Readable?
    requires TemplateDecides(templates, p, i) && At(Obj(templates[i].body.json.value), p) == Some(v) && !v.Obj? && IsNormal(v)
    requires Merged(SourcesOf(templates)).Some? && PlainPath(Obj(Merged(SourcesOf(templates)).value), p)
    requires !Touches(Obj(overlay), p)
    ensures Slot(Obj(FinalTree(BaseTree(env, templates, d), Some(overlay))), p) == Some(Leaf(Normal(Arrived(env, d, v))))
  {
    TemplateIsSource(templates, p, i);
    AtNormal(Obj(templates[i].body.json.value), p);
    NormalFixes(v);
    TemplateValueArrives(env, templates, d, overlay, p, i, v);
  }

  /** The variables templates may ask for. */
  predicate Variable(d: Device, name: string, text: string) {
    || (name == "device_uuid" && text == d.uuid) || (name == "device_name" && text == d.name)
    || (name == "model" && text == d.model) || (name == "mac" && text == d.mac)
  }

  /** Each is found under its name, and there is no other. */
  lemma DeviceVariables(d: Device, name: string)
    ensures forall text | Variable(d, name, text) :: At(Obj(VarsFor(d)), Split(name, '.')) == Some(Str(text))
    ensures name in VarsFor(d) <==> exists text :: Variable(d, name, text)
  {
    if name in VarsFor(d) {
      assert '.' !in name;
      LookupTop(VarsFor(d), name);
      assert Variable(d, name, VarsFor(d)[name].text);
    }
  }

  /** A template that asks for {"$var": "mac"} gets the MAC of the device, and likewise for the other variables. */
  lemma VariableArrives(env: Env, templates: seq<Template>, d: Device, p: Path, fields: Fields, name: string, text: string)
    requires forall t | t in templates :: t.body.Readable?
    requires Merged(SourcesOf(templates)).Some? && p != [] && Variable(d, name, text)
    requires var tree := Obj(Merged(SourcesOf(templates)).value);
      PlainAbove(tree, p) && At(tree, p) == Some(Obj(fields)) && "$var" in fields && fields["$var"] == Str(name)
    requires !exists a, b :: text == a + "{{" + b
    ensures At(Obj(BaseTree(env, templates, d)), p) == Some(Str(text))
  {
    DeviceVariables(d, name);
    MergedIsNormal(SourcesOf(templates));
    ApplyVarsResolves(Merged(SourcesOf(templates)).value, VarsFor(d), env.engine(VarsFor(d)), p, fields, name, Str(text));
    HasActionMeans(text);
  }

  // ---- overlays ----

  predicate LeafAt(tree: Fields, p: Path, v: Json) {
    Slot(Obj(tree), p) == Some(Leaf(v))
  }

  /** tree[section][key] */
  lemma OverlayLeaf(base: Fields, overlay: Fields, section: string, key: string, v: Json)
    requires section in overlay && overlay[section].Obj? && key in overlay[section].fields && overlay[section].fields[key] == v && !v.Obj?
    ensures var at := At(Obj(FinalTree(base, Some(overlay))), [section, key]); at.Some? && Encodes(v, at.value) && !at.value.Obj?
    ensures IsNormal(v) ==> LeafAt(FinalTree(base, Some(overlay)), [section, key], v)
  {
    TwoSteps(Obj(overlay), section, key);
    OverlayValue(Obj(base), Obj(overlay), [section, key], v);
    NormalEncodes(v, At(Obj(FinalTree(base, Some(overlay))), [section, key]).value);
    NormalFixes(v);
  }

  /** One peer as the tree for the renderer shows it. */
  ghost predicate ShowsPeer(cfg: Config, peer: Json, serverPub: string, presharedKey: string) {
    && peer.Obj? && peer.fields.Keys == {"public_key", "preshared_key", "endpoint", "allowed_ips", "keepalive"}
    && peer.fields["public_key"] == Str(serverPub) && peer.fields["preshared_key"] == Str(presharedKey)
    && peer.fields["endpoint"] == Str(cfg.endpoint) && peer.fields["keepalive"] == Num(cfg.keepalive as real)
    && (match cfg.allowedIPs
        case None => peer.fields["allowed_ips"] == Null
        case Some(list) =>
          && peer.fields["allowed_ips"].Arr? && |peer.fields["allowed_ips"].items| == |list|
          && forall i | 0 <= i < |list| :: peer.fields["allowed_ips"].items[i] == Str(list[i]))
  }

  /** The wireguard section of a tree. */
  ghost predicate ShowsWireGuard(cfg: Config, tree: Fields, address: string, privateKey: string, serverPub: string, presharedKey: string) {
    && LeafAt(tree, ["wireguard", "interface"], Str("wg0"))
    && LeafAt(tree, ["wireguard", "address"], Str(address))
    && LeafAt(tree, ["wireguard", "private_key"], Str(privateKey))
    && exists peer :: LeafAt(tree, ["wireguard", "peers"], Arr([peer])) && ShowsPeer(cfg, peer, serverPub, presharedKey)
  }

  lemma EncodedField(fields: Fields, y: Json, k: string)
    requires Encodes(Obj(fields), y) && k in fields
    ensures y.Obj? && y.fields.Keys == fields.Keys && Encodes(fields[k], y.fields[k])
    ensures fields[k].Str? ==> y.fields[k] == fields[k]
    ensures fields[k].GoInt? ==> y.fields[k] == Num(fields[k].n as real)
  {}

  lemma EncodedOne(x: Json, y: Json)
    requires Encodes(Arr([x]), y)
    ensures y.Arr? && |y.items| == 1 && Encodes(x, y.items[0]) && y == Arr([y.items[0]])
  {
    assert [x][0] == x;
  }

  lemma PeerShown(cfg: Config, p: Peer, fields: Fields, peer: Json)
    requires fields == map[
      "public_key" := Str(p.serverPub), "preshared_key" := Str(p.presharedKey), "endpoint" := Str(cfg.endpoint),
      "allowed_ips" := GoStrings(cfg.allowedIPs), "keepalive" := GoInt(cfg.keepalive)]
    requires Encodes(Obj(fields), peer)
    ensures ShowsPeer(cfg, peer, p.serverPub, p.presharedKey)
  {
    EncodedField(fields, peer, "public_key");
    EncodedField(fields, peer, "preshared_key");
    EncodedField(fields, peer, "endpoint");
    EncodedField(fields, peer, "allowed_ips");
    EncodedField(fields, peer, "keepalive");
    assert fields.Keys == {"public_key", "preshared_key", "endpoint", "allowed_ips", "keepalive"};
  }

  lemma WireGuardShown(cfg: Config, p: Peer, base: Fields)
    ensures ShowsWireGuard(cfg, FinalTree(base, Some(WireGuardOverlay(cfg, p))), p.address, p.privateKey, p.serverPub, p.presharedKey)
  {
    var o := WireGuardOverlay(cfg, p);
    var tree := FinalTree(base, Some(o));
    OverlayLeaf(base, o, "wireguard", "interface", Str("wg0"));
    OverlayLeaf(base, o, "wireguard", "address", Str(p.address));
    OverlayLeaf(base, o, "wireguard", "private_key", Str(p.privateKey));
    var x := o["wireguard"].fields["peers"].items[0];
    assert o["wireguard"].fields["peers"] == Arr([x]);
    OverlayLeaf(base, o, "wireguard", "peers", Arr([x]));
    var y := At(Obj(tree), ["wireguard", "peers"]).value;
    EncodedOne(x, y);
    PeerShown(cfg, p, x.fields, y.items[0]);
    assert LeafAt(tree, ["wireguard", "peers"], Arr([y.items[0]]));
  }

  /** The peer of a run in wireguard mode: the one on file, or a new one with the address of the device in the pool,
      the generated keys and the settings. */
  predicate PeerFor(cfg: Config, m: Material, d: Device, peers: seq<Peer>, p: Peer) {
    match PeerOf(peers, d.id)
    case Some(known) => p == known
    case None =>
      && Some(p.address) == PickWGAddress(cfg.pool, d.id) && p.deviceID == d.id
      && p.privateKey == m.privateKey && p.publicKey == m.publicKey && p.presharedKey == m.presharedKey
      && p.serverPub == cfg.serverPub && p.endpoint == cfg.endpoint && p.keepalive == cfg.keepalive
      && p.allowedIPs == match cfg.allowedIPs case None => "" case Some(list) => Join(list, ',')
  }

  /** In wireguard mode the stage fails exactly without a usable pool. Otherwise the tree shows the peer's address
      and keys and the settings, the writer of wg0.conf gets the same overlay, and the table has the peer. */
  lemma WireGuardRun(env: Env, cfg: Config, m: Material, d: Device, peers: seq<Peer>, base: Fields)
    requires cfg.mode == WireGuard
    ensures var (v, after) := VpnStage(env, cfg, m, d, peers);
      && (v.None? <==> cfg.pool.None?)
      && (v.None? ==> after == peers)
      && (v.Some? ==> exists p ::
            && PeerFor(cfg, m, d, peers, p)
            && after == (if PeerOf(peers, d.id).Some? then peers else peers + [p])
            && v.value.overlay.Some?
            && ShowsWireGuard(cfg, FinalTree(base, v.value.overlay), p.address, p.privateKey, p.serverPub, p.presharedKey)
            && v.value.extra == map["etc/wireguard/wg0.conf" := env.wgConf(v.value.overlay.value)])
  {
    if cfg.pool.Some? {
      var address := PickWGAddress(cfg.pool, d.id).value;
      var (p, after) := Ensured(peers, d.id, NewPeer(cfg, address, m));
      assert PeerFor(cfg, m, d, peers, p);
      WireGuardShown(cfg, p, base);
    }
  }

  /** The row a run creates is the row whose addresses the concurrent runs are about. */
  lemma NewPeerIsNewRow(cfg: Config, n: Network, m: Material, deviceID: nat, keys: Peer)
    requires cfg.pool == Some(n)
    requires keys.privateKey == m.privateKey && keys.publicKey == m.publicKey && keys.presharedKey == m.presharedKey
    requires keys.serverPub == cfg.serverPub && keys.endpoint == cfg.endpoint && keys.keepalive == cfg.keepalive
    requires keys.allowedIPs == match cfg.allowedIPs case None => "" case Some(list) => Join(list, ',')
    ensures NewPeer(cfg, PickWGAddress(cfg.pool, deviceID).value, m).(deviceID := deviceID) == PeerRuns.NewRow(n, deviceID, keys)
  {}

  ghost predicate ShowsClient(cfg: Config, client: Json) {
    && client.Obj? && client.fields.Keys == {"name", "remote", "port", "proto", "cipher", "auth"}
    && client.fields["name"] == Str("client") && client.fields["remote"] == Str(cfg.remote)
    && client.fields["port"] == Num(cfg.port as real) && client.fields["proto"] == Str(cfg.proto)
    && client.fields["cipher"] == Str(cfg.cipher) && client.fields["auth"] == Str(cfg.auth)
  }

  lemma ClientShown(cfg: Config, fields: Fields, client: Json)
    requires fields == map[
      "name" := Str("client"), "remote" := Str(cfg.remote), "port" := GoInt(cfg.port),
      "proto" := Str(cfg.proto), "cipher" := Str(cfg.cipher), "auth" := Str(cfg.auth)]
    requires Encodes(Obj(fields), client)
    ensures ShowsClient(cfg, client)
  {
    EncodedField(fields, client, "name");
    EncodedField(fields, client, "remote");
    EncodedField(fields, client, "port");
    EncodedField(fields, client, "proto");
    EncodedField(fields, client, "cipher");
    EncodedField(fields, client, "auth");
    assert fields.Keys == {"name", "remote", "port", "proto", "cipher", "auth"};
  }

  /** In openvpn mode the tree shows one client with the settings, the certificates go into the device's directory,
      and no peer is touched. */
  lemma OpenVpnRun(env: Env, cfg: Config, m: Material, d: Device, peers: seq<Peer>, base: Fields)
    requires cfg.mode == OpenVpn
    ensures var (v, after) := VpnStage(env, cfg, m, d, peers);
      && after == peers && (v.None? <==> m.certs.None?)
      && (v.Some? ==>
            && v.value.extra == map[
                 "etc/openvpn/" + d.uuid + "/" + "ca.crt" := m.certs.value.ca,
                 "etc/openvpn/" + d.uuid + "/" + "client.crt" := m.certs.value.crt,
                 "etc/openvpn/" + d.uuid + "/" + "client.key" := m.certs.value.key]
            && exists client :: LeafAt(FinalTree(base, v.value.overlay), ["openvpn", "clients"], Arr([client])) && ShowsClient(cfg, client))
  {
    if m.certs.Some? {
      var o := OpenVpnOverlay(cfg);
      var x := o["openvpn"].fields["clients"].items[0];
      assert o["openvpn"].fields["clients"] == Arr([x]);
      OverlayLeaf(base, o, "openvpn", "clients", Arr([x]));
      var y := At(Obj(FinalTree(base, Some(o))), ["openvpn", "clients"]).value;
      EncodedOne(x, y);
      ClientShown(cfg, x.fields, y.items[0]);
      assert LeafAt(FinalTree(base, Some(o)), ["openvpn", "clients"], Arr([y.items[0]]));
    }
  }

  /** In zerotier mode the tree is enabled for the one network; without a mode it is the base tree. */
  lemma PlainRun(env: Env, cfg: Config, m: Material, d: Device, peers: seq<Peer>, base: Fields)
    requires cfg.mode == ZeroTier || cfg.mode == NoVpn
    ensures var (v, after) := VpnStage(env, cfg, m, d, peers);
      && after == peers && v.Some? && v.value.extra == map[]
      && (cfg.mode == NoVpn ==> FinalTree(base, v.value.overlay) == base)
      && (cfg.mode == ZeroTier ==>
            && LeafAt(FinalTree(base, v.value.overlay), ["zerotier", "enabled"], Bool(true))
            && LeafAt(FinalTree(base, v.value.overlay), ["zerotier", "networks"], Arr([Str(cfg.networkID)])))
  {
    if cfg.mode == ZeroTier {
      var o := ZeroTierOverlay(cfg);
      OverlayLeaf(base, o, "zerotier", "enabled", Bool(true));
      assert IsNormal(Str(cfg.networkID));
      OverlayLeaf(base, o, "zerotier", "networks", Arr([Str(cfg.networkID)]));
    }
  }

  /** The entries a run archives: the rendering of the overlaid tree under the device's name, and the extra files. */
  ghost function EntriesFor(env: Env, templates: seq<Template>, d: Device, v: Vpn): seq<Tarball.Entry>
    requires forall t | t in templates :: t.body.Readable?
  {
    Tarball.Entries(env.renderAll(FinalTree(BaseTree(env, templates, d), v.overlay), d.name), v.extra)
  }

  lemma PreparedArchives(env: Env, cfg: Config, templates: seq<Template>, m: Material, d: Device, peers: seq<Peer>)
    requires Prepared(env, cfg, templates, m, d, peers).0.Some?
    ensures forall t | t in templates :: t.body.Readable?
    ensures var (v, after) := VpnStage(env, cfg, m, d, peers);
      v.Some? && after == Prepared(env, cfg, templates, m, d, peers).1 &&
      var packed := env.codec.pack(EntriesFor(env, templates, d, v.value));
      Prepared(env, cfg, templates, m, d, peers).0 == Some(Tarball.Archive(packed, env.codec.sha(packed)))
  {}

  /** What a successful run returns and stores: the sum of that archive, and on a change of the sum the archive. */
  lemma RunArchives(env: Env, cfg: Config, templates: seq<Template>, m: Material, now: int, d: Device, rows: Rows, peers: seq<Peer>)
    requires Prepared(env, cfg, templates, m, d, peers).0.Some?
    ensures forall t | t in templates :: t.body.Readable?
    ensures VpnStage(env, cfg, m, d, peers).0.Some?
    ensures var (v, after) := VpnStage(env, cfg, m, d, peers);
      var packed := env.codec.pack(EntriesFor(env, templates, d, v.value));
      var sum := env.codec.sha(packed);
      ReconciledDevice(env, cfg, templates, m, now, d, rows, peers) ==
        (Done(sum, sum != d.checksum),
         if sum == d.checksum then rows else rows[d.id := d.(
           archive := packed, checksum := sum, version := if d.version + 1 <= 0 then 1 else d.version + 1, configUpdatedAt := Some(now))],
         after)
  {
    PreparedArchives(env, cfg, templates, m, d, peers);
  }

  /** When a run fails, and that it leaves the rows alone then: a template that cannot be read, a VPN stage that
      fails, or a file whose header is refused. */
  lemma RunFails(env: Env, cfg: Config, templates: seq<Template>, m: Material, now: int, d: Device, rows: Rows, peers: seq<Peer>)
    ensures var (o, rows', _) := ReconciledDevice(env, cfg, templates, m, now, d, rows, peers);
      && o != NoDevice && (o == Failed ==> rows' == rows)
      && (o == Failed <==>
            || (exists t | t in templates :: t.body.Unreadable?)
            || VpnStage(env, cfg, m, d, peers).0.None?
            || exists e | e in EntriesFor(env, templates, d, VpnStage(env, cfg, m, d, peers).0.value) :: !env.codec.accepts(e))
  {}
}
