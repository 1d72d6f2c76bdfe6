/** The address a device gets from the WireGuard pool. */
module WireGuardPool {
  import opened Base
  import opened DeviceStore

  /** An IPv4 network as net.ParseCIDR returns it: 32-bit base address, host bits cleared. */
  datatype Network = Network(base: nat, prefix: nat)

  function Size(bits: nat): (n: nat)
    ensures n > 0
  {
    if bits == 0 then 1 else 2 * Size(bits - 1)
  }

  predicate NetworkOk(n: Network) {
    n.prefix <= 32 && n.base < 0x1_0000_0000 && n.base % Size(32 - n.prefix) == 0
  }

  /** base[0], base[1], base[2] and the host octet, as one number. */
  function Address(n: Network, deviceID: nat): nat {
    n.base / 256 * 256 + 2 + deviceID % 250
  }

  predicate InPool(n: Network, address: nat)
    requires n.prefix <= 32
  {
    n.base <= address < n.base + Size(32 - n.prefix)
  }

  lemma {:induction false} SizeOfWide(bits: nat)
    requires bits >= 8
    ensures Size(bits) >= 256 && exists k: nat :: Size(bits) == 256 * k
  {
    if bits == 8 {
      assert Size(2) == 4 && Size(4) == 16 && Size(6) == 64 && Size(8) == 256;
      assert Size(8) == 256 * 1;
    } else {
      SizeOfWide(bits - 1);
      var k: nat :| Size(bits - 1) == 256 * k;
      assert Size(bits) == 256 * (2 * k);
    }
  }

  lemma MultipleOfMultiple(base: nat, size: nat, k: nat)
    requires size == 256 * k && size > 0 && base % size == 0
    ensures base % 256 == 0
  {
    var q := base / size;
    assert base == size * q == 256 * (k * q);
  }

  /** For prefixes up to 24 the address is always in the pool with host octet 2 to 251; for longer ones
      exactly when that octet happens to fall inside. */
  lemma AddressInPool(n: Network, deviceID: nat)
    requires NetworkOk(n)
    ensures Address(n, deviceID) < 0x1_0000_0000
    ensures 2 <= Address(n, deviceID) % 256 <= 251
    ensures InPool(n, Address(n, deviceID)) <==>
      n.prefix <= 24 || n.base % 256 <= 2 + deviceID % 250 < n.base % 256 + Size(32 - n.prefix)
  {
    assert n.base == n.base / 256 * 256 + n.base % 256;
    if n.prefix <= 24 {
      SizeOfWide(32 - n.prefix);
      var k: nat :| Size(32 - n.prefix) == 256 * k;
      MultipleOfMultiple(n.base, Size(32 - n.prefix), k);
    }
  }

  /** Decimal digits, as strconv.Itoa prints a byte. */
  function Itoa(n: nat): (s: string)
    ensures s != "" && '.' !in s && '/' !in s
  {
    var digit := (n % 10 + '0' as int) as char;
    if n < 10 then [digit] else Itoa(n / 10) + [digit]
  }

  /** The number a string of digits stands for. */
  function Decimal(s: string): int {
    if s == "" then 0 else 10 * Decimal(s[..|s| - 1]) + (s[|s| - 1] as int - '0' as int)
  }

  /** The digits stand for the number, and there is no leading zero. */
  lemma {:induction false} ItoaMeans(n: nat)
    ensures Decimal(Itoa(n)) == n
    ensures forall c | c in Itoa(n) :: '0' <= c <= '9'
    ensures n > 0 ==> Itoa(n)[0] != '0'
  {
    var s, digit := Itoa(n), (n % 10 + '0' as int) as char;
    if n < 10 {
      assert s == [digit] && s[..0] == "";
      assert Decimal(s[..0]) == 0;
    } else {
      ItoaMeans(n / 10);
      assert s[..|s| - 1] == Itoa(n / 10);
    }
  }

  lemma ItoaInjective(n: nat, m: nat)
    requires Itoa(n) == Itoa(m)
    ensures n == m
  {
    ItoaMeans(n);
    ItoaMeans(m);
  }

  function Octets(address: nat): (nat, nat, nat, nat) {
    (address / 256 / 256 / 256, address / 256 / 256 % 256, address / 256 % 256, address % 256)
  }

  lemma DivMod(x: nat, y: nat)
    requires x / 256 == y / 256 && x % 256 == y % 256
    ensures x == y
  {}

  lemma OctetsInjective(x: nat, y: nat)
    requires Octets(x) == Octets(y)
    ensures x == y
  {
    DivMod(x / 256 / 256, y / 256 / 256);
    DivMod(x / 256, y / 256);
    DivMod(x, y);
  }

  function Quad(o: (nat, nat, nat, nat)): seq<string> {
    [Itoa(o.0), Itoa(o.1), Itoa(o.2), Itoa(o.3)]
  }

  lemma QuadInjective(o: (nat, nat, nat, nat), u: (nat, nat, nat, nat))
    requires Join(Quad(o), '.') == Join(Quad(u), '.')
    ensures o == u
  {
    SplitJoin(Quad(o), '.');
    SplitJoin(Quad(u), '.');
    assert Quad(o)[0] == Quad(u)[0] && Quad(o)[1] == Quad(u)[1] && Quad(o)[2] == Quad(u)[2] && Quad(o)[3] == Quad(u)[3];
    ItoaInjective(o.0, u.0);
    ItoaInjective(o.1, u.1);
    ItoaInjective(o.2, u.2);
    ItoaInjective(o.3, u.3);
  }

  /** net.IP.String on four octets. */
  function Dotted(address: nat): string {
    Join(Quad(Octets(address)), '.')
  }

  lemma DottedInjective(x: nat, y: nat)
    requires Dotted(x) == Dotted(y)
    ensures x == y
  {
    QuadInjective(Octets(x), Octets(y));
    OctetsInjective(x, y);
  }

  /** pickWGAddress, after the CIDR is parsed; None when it is malformed or not IPv4. */
  function PickWGAddress(pool: Option<Network>, deviceID: nat): Option<string> {
    match pool case None => None case Some(n) => Some(Dotted(Address(n, deviceID)) + "/32")
  }

  /** Four numbers below 256, the most significant first. */
  predicate IsQuad(parts: seq<string>, address: nat) {
    && |parts| == 4 && (forall i | 0 <= i < 4 :: 0 <= Decimal(parts[i]) < 256)
    && address == ((Decimal(parts[0]) * 256 + Decimal(parts[1])) * 256 + Decimal(parts[2])) * 256 + Decimal(parts[3])
  }

  /** The dotted text reads as the address, octet by octet. */
  lemma DottedMeans(address: nat)
    requires address < 0x1_0000_0000
    ensures IsQuad(Split(Dotted(address), '.'), address)
  {
    var o := Octets(address);
    SplitJoin(Quad(o), '.');
    ItoaMeans(o.0);
    ItoaMeans(o.1);
    ItoaMeans(o.2);
    ItoaMeans(o.3);
  }

  /** The text has the first three octets of the pool, then 2 plus the device ID modulo 250, and "/32". */
  lemma PickedAddress(n: Network, deviceID: nat)
    requires NetworkOk(n)
    ensures var a := PickWGAddress(Some(n), deviceID).value;
      && |a| >= 3 && a[|a| - 3..] == "/32"
      && var parts := Split(a[..|a| - 3], '.');
      && |parts| == 4
      && (Decimal(parts[0]) * 256 + Decimal(parts[1])) * 256 + Decimal(parts[2]) == n.base / 256
      && (forall i | 0 <= i < 4 :: 0 <= Decimal(parts[i]) < 256)
      && Decimal(parts[3]) == 2 + deviceID % 250
  {
    AddressInPool(n, deviceID);
    DottedMeans(Address(n, deviceID));
    var dotted := Dotted(Address(n, deviceID));
    assert (dotted + "/32")[..|dotted|] == dotted;
  }

  /** Device 1 of the pool 10.10.0.0/24. */
  lemma FirstOfPool()
    ensures PickWGAddress(Some(Network(0x0A0A_0000, 24)), 1) == Some("10.10.0.3/32")
  {
    assert Address(Network(0x0A0A_0000, 24), 1) == 0x0A0A_0003;
    assert Octets(0x0A0A_0003) == (10, 10, 0, 3);
    assert Itoa(1) == "1" && Itoa(10) == "10" && Itoa(0) == "0" && Itoa(3) == "3";
    var q := ["10", "10", "0", "3"];
    assert Quad((10, 10, 0, 3)) == q;
    assert q[1..] == ["10", "0", "3"] && q[1..][1..] == ["0", "3"] && q[1..][1..][1..] == ["3"];
    assert Join(q, '.') == "10.10.0.3" == Dotted(0x0A0A_0003);
    assert "10.10.0.3" + "/32" == "10.10.0.3/32";
  }

  /** Two devices share an address exactly when their IDs agree modulo 250. */
  lemma SharedAddress(n: Network, i: nat, j: nat)
    ensures PickWGAddress(Some(n), i) == PickWGAddress(Some(n), j) <==> i % 250 == j % 250
  {
    var x, y := Dotted(Address(n, i)), Dotted(Address(n, j));
    if x + "/32" == y + "/32" {
      assert x == (x + "/32")[..|x|] && y == (y + "/32")[..|y|] && |x| == |y|;
      DottedInjective(Address(n, i), Address(n, j));
    }
  }

  /** What an uninterrupted EnsureWGPeer returns, and the table after it. */
  function Ensured(peers: seq<Peer>, deviceID: nat, newPeer: Peer): (Peer, seq<Peer>) {
    match PeerOf(peers, deviceID)
    case Some(p) => (p, peers)
    case None => (newPeer.(deviceID := deviceID), peers + [newPeer.(deviceID := deviceID)])
  }
}
