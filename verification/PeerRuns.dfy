/** EnsureWGPeer under concurrent calls. It finds first and creates afterwards, in two statements, and no
    unique index stands behind it. */
module PeerRuns {
  import opened Base
  import opened DeviceStore
  import opened WireGuardPool
  import opened Runs

  /** What a call returned, and whether it created the row. */
  datatype Answer = Answer(deviceID: nat, peer: Peer, created: bool)

  /** pending holds, for each call that found nothing, the row it is about to create. */
  datatype State = State(peers: seq<Peer>, pending: map<int, Peer>, answers: seq<Answer>)

  datatype Event = Find(t: int, deviceID: nat, keys: Peer) | Insert(t: int)

  /** The row for a device of pool n, with freshly generated keys. */
  function NewRow(n: Network, deviceID: nat, keys: Peer): Peer {
    keys.(deviceID := deviceID, address := PickWGAddress(Some(n), deviceID).value)
  }

  /** Events that do not fit the state leave it alone. */
  function Next(n: Network, s: State, e: Event): State {
    match e
    case Find(t, deviceID, keys) =>
      if t in s.pending then s
      else (match PeerOf(s.peers, deviceID)
        case Some(p) => s.(answers := s.answers + [Answer(deviceID, p, false)])
        case None => s.(pending := s.pending[t := NewRow(n, deviceID, keys)]))
    case Insert(t) =>
      if t in s.pending then
        var row := s.pending[t];
        State(s.peers + [row], s.pending - {t}, s.answers + [Answer(row.deviceID, row, true)])
      else s
  }

  function Step(n: Network): (State, Event) -> State {
    (s: State, e: Event) => Next(n, s, e)
  }

  function Run(n: Network, s: State, events: seq<Event>): State {
    Reached(Step(n), s, events)
  }

  function Start(peers: seq<Peer>): State { State(peers, map[], []) }

  /** The two statements of a call that nothing interrupts are the store method. */
  lemma EnsureAlone(n: Network, s: State, t: int, deviceID: nat, keys: Peer)
    requires t !in s.pending
    ensures var s', (p, after) := Run(n, s, [Find(t, deviceID, keys), Insert(t)]), Ensured(s.peers, deviceID, NewRow(n, deviceID, keys));
      s' == State(after, s.pending, s.answers + [Answer(deviceID, p, PeerOf(s.peers, deviceID).None?)])
  {
    var find, insert := Find(t, deviceID, keys), Insert(t);
    ReachedTwo(Step(n), s, find, insert);
    var row := NewRow(n, deviceID, keys);
    assert PeerOf(s.peers, deviceID).None? ==> s.pending[t := row] - {t} == s.pending;
  }

  // ---- one row a device ----

  predicate OneEach(peers: seq<Peer>) {
    forall i, j | 0 <= i < j < |peers| :: peers[i].deviceID != peers[j].deviceID
  }

  function OnePeer(): State -> bool {
    (s: State) => OneEach(s.peers)
  }

  /** What a unique index on device_id would enforce. */
  function InsertFree(): (State, Event) -> bool {
    (s: State, e: Event) => e.Insert? && e.t in s.pending ==> PeerOf(s.peers, s.pending[e.t].deviceID).None?
  }

  lemma AppendOneEach(peers: seq<Peer>, row: Peer)
    requires OneEach(peers)
    ensures OneEach(peers + [row]) <==> PeerOf(peers, row.deviceID).None?
  {
    var more := peers + [row];
    if PeerOf(peers, row.deviceID).Some? {
      var i :| 0 <= i < |peers| && peers[i] == PeerOf(peers, row.deviceID).value;
      assert more[i].deviceID == more[|peers|].deviceID;
    } else {
      forall i, j | 0 <= i < j < |more| ensures more[i].deviceID != more[j].deviceID {
        assert more[i] == peers[i] && peers[i] in peers;
      }
    }
  }

  /** Over any interleaving of calls every device has at most one row after every event, if and only if no
      call inserts for a device that has got a row in the meantime. */
  lemma OnePeerIff(n: Network, s: State, events: seq<Event>)
    requires OneEach(s.peers)
    ensures Throughout(Step(n), s, events, OnePeer()) <==> Guarded(Step(n), s, events, InsertFree())
  {
    var any := (s: State) => true;
    forall x, e | any(x) && OnePeer()(x) ensures OnePeer()(Step(n)(x, e)) <==> InsertFree()(x, e) {
      if e.Insert? && e.t in x.pending {
        AppendOneEach(x.peers, x.pending[e.t]);
      }
    }
    ThroughoutIff(Step(n), s, events, any, OnePeer(), InsertFree());
  }

  lemma TwoRows(p: Peer, q: Peer)
    requires p.deviceID == q.deviceID
    ensures !OneEach([p, q])
  {
    assert [p, q][0].deviceID == [p, q][1].deviceID;
  }

  /** A run in which it fails: two calls both look before either inserts. Each is told it created the peer
      of the device, and each goes on with its own keys. */
  lemma RacingCreators(n: Network, deviceID: nat, keys: Peer, others: Peer)
    ensures var s, p, q := Run(n, Start([]), [Find(0, deviceID, keys), Find(1, deviceID, others), Insert(0), Insert(1)]),
                           NewRow(n, deviceID, keys), NewRow(n, deviceID, others);
      && s.peers == [p, q] && !OneEach(s.peers)
      && s.answers == [Answer(deviceID, p, true), Answer(deviceID, q, true)]
  {
    var p, q := NewRow(n, deviceID, keys), NewRow(n, deviceID, others);
    ReachedFour(Step(n), Start([]), Find(0, deviceID, keys), Find(1, deviceID, others), Insert(0), Insert(1));
    assert map[0 := p, 1 := q] - {0} == map[1 := q];
    TwoRows(p, q);
  }

  /** Calls one after the other, each with its own keys. */
  function Calls(calls: seq<(nat, Peer)>): seq<Event> {
    if calls == [] then [] else [Find(0, calls[0].0, calls[0].1), Insert(0)] + Calls(calls[1..])
  }

  lemma CallPasses(n: Network, s: State, deviceID: nat, keys: Peer)
    requires s.pending == map[]
    ensures Guarded(Step(n), s, [Find(0, deviceID, keys), Insert(0)], InsertFree())
  {
    var find, insert := Find(0, deviceID, keys), Insert(0);
    GuardedTwo(Step(n), s, find, insert, InsertFree());
  }

  /** Calls that nothing interrupts meet the condition. */
  lemma {:induction false} CallsAreFree(n: Network, s: State, calls: seq<(nat, Peer)>)
    requires s.pending == map[]
    ensures Guarded(Step(n), s, Calls(calls), InsertFree())
    decreases |calls|
  {
    if calls != [] {
      var (id, keys) := calls[0];
      var first := [Find(0, id, keys), Insert(0)];
      CallPasses(n, s, id, keys);
      EnsureAlone(n, s, 0, id, keys);
      CallsAreFree(n, Run(n, s, first), calls[1..]);
      GuardedConcat(Step(n), s, first, Calls(calls[1..]), InsertFree());
    }
  }

  /** So a run of uninterrupted calls leaves at most one row a device. */
  lemma UninterruptedOnePeer(n: Network, peers: seq<Peer>, calls: seq<(nat, Peer)>)
    requires OneEach(peers)
    ensures OneEach(Run(n, Start(peers), Calls(calls)).peers)
  {
    CallsAreFree(n, Start(peers), calls);
    OnePeerIff(n, Start(peers), Calls(calls));
    ThroughoutEnd(Step(n), Start(peers), Calls(calls), OnePeer());
  }

  // ---- what later calls return ----

  /** Every call that found a row found the earliest one of its device. */
  ghost predicate FindsAgree(s: State) {
    forall a | a in s.answers && !a.created :: PeerOf(s.peers, a.deviceID) == Some(a.peer)
  }

  lemma NextFinds(n: Network, s: State, e: Event)
    requires FindsAgree(s)
    ensures FindsAgree(Next(n, s, e))
    ensures forall id: nat | PeerOf(s.peers, id).Some? :: PeerOf(Next(n, s, e).peers, id) == PeerOf(s.peers, id)
  {
    if e.Insert? && e.t in s.pending {
      forall id: nat ensures PeerOf(s.peers, id).Some? ==> PeerOf(s.peers + [s.pending[e.t]], id) == PeerOf(s.peers, id) {
        PeerOfAppend(s.peers, s.pending[e.t], id);
      }
    }
  }

  /** Once a device has a row, the earliest one stays what is found, whatever the racing calls still insert. */
  lemma {:induction false} FirstPeerStays(n: Network, s: State, events: seq<Event>, deviceID: nat)
    requires FindsAgree(s) && PeerOf(s.peers, deviceID).Some?
    ensures FindsAgree(Run(n, s, events))
    ensures PeerOf(Run(n, s, events).peers, deviceID) == PeerOf(s.peers, deviceID)
    decreases |events|
  {
    if events != [] {
      NextFinds(n, s, events[0]);
      FirstPeerStays(n, Next(n, s, events[0]), events[1..], deviceID);
    }
  }

  /** Every call that starts after a device's first insertion returns that peer and inserts nothing. */
  lemma LaterCallsAgree(n: Network, s: State, events: seq<Event>, t: int, deviceID: nat, keys: Peer)
    requires FindsAgree(s) && PeerOf(s.peers, deviceID).Some? && t !in Run(n, s, events).pending
    ensures var s' := Run(n, s, events);
      Run(n, s', [Find(t, deviceID, keys), Insert(t)]) ==
        s'.(answers := s'.answers + [Answer(deviceID, PeerOf(s.peers, deviceID).value, false)])
  {
    FirstPeerStays(n, s, events, deviceID);
    EnsureAlone(n, Run(n, s, events), t, deviceID, keys);
  }

  /** Over any interleaving all calls for one device that did not create a row returned one and the same peer. */
  lemma FoundPeersEqual(n: Network, peers: seq<Peer>, events: seq<Event>)
    ensures forall a, b | a in Run(n, Start(peers), events).answers && b in Run(n, Start(peers), events).answers ::
      a.deviceID == b.deviceID && !a.created && !b.created ==> a.peer == b.peer
  {
    var agree := (s: State) => FindsAgree(s);
    forall x, e | agree(x) ensures agree(Step(n)(x, e)) {
      NextFinds(n, x, e);
    }
    Kept(Step(n), Start(peers), events, agree);
    assert FindsAgree(Run(n, Start(peers), events));
  }

  // ---- addresses ----

  predicate Addressed(n: Network, p: Peer) {
    p.address == PickWGAddress(Some(n), p.deviceID).value
  }

  /** Rows, present and to come, carry the address of their device, and their devices satisfy of. */
  function AllAddressed(n: Network, of: nat -> bool): State -> bool {
    (s: State) =>
      && (forall p | p in s.peers :: Addressed(n, p) && of(p.deviceID))
      && (forall t | t in s.pending :: Addressed(n, s.pending[t]) && of(s.pending[t].deviceID))
  }

  lemma {:induction false} RunAddressed(n: Network, of: nat -> bool, s: State, events: seq<Event>)
    requires AllAddressed(n, of)(s) && forall e | e in events && e.Find? :: of(e.deviceID)
    ensures AllAddressed(n, of)(Run(n, s, events))
    decreases |events|
  {
    if events != [] {
      var s' := Next(n, s, events[0]);
      assert events[0] in events;
      forall p | p in s'.peers ensures Addressed(n, p) && of(p.deviceID) {
        assert p in s.peers || exists t :: t in s.pending && s.pending[t] == p;
      }
      RunAddressed(n, of, s', events[1..]);
    }
  }

  /** Over any interleaving two rows share an address exactly when their device IDs agree modulo 250. */
  lemma AddressesOverRuns(n: Network, events: seq<Event>)
    ensures var peers := Run(n, Start([]), events).peers;
      forall p, q | p in peers && q in peers :: p.address == q.address <==> p.deviceID % 250 == q.deviceID % 250
  {
    RunAddressed(n, (id: nat) => true, Start([]), events);
    var peers := Run(n, Start([]), events).peers;
    forall p, q | p in peers && q in peers ensures p.address == q.address <==> p.deviceID % 250 == q.deviceID % 250 {
      assert Addressed(n, p) && Addressed(n, q);
      SharedAddress(n, p.deviceID, q.deviceID);
    }
  }

  /** So any interleaving over devices whose IDs lie in a window of 250 gives different devices different
      addresses, and the same device, raced or not, the same one. */
  lemma WindowDistinct(n: Network, events: seq<Event>, low: nat)
    requires forall e | e in events && e.Find? :: low <= e.deviceID < low + 250
    ensures var peers := Run(n, Start([]), events).peers;
      forall p, q | p in peers && q in peers :: p.address == q.address <==> p.deviceID == q.deviceID
  {
    var inWindow := (id: nat) => low <= id < low + 250;
    RunAddressed(n, inWindow, Start([]), events);
    AddressesOverRuns(n, events);
    var peers := Run(n, Start([]), events).peers;
    forall p, q | p in peers && q in peers && p.address == q.address ensures p.deviceID == q.deviceID {
      assert inWindow(p.deviceID) && inWindow(q.deviceID);
      SameInWindow(p.deviceID, q.deviceID, low);
    }
  }

  lemma SameInWindow(i: nat, j: nat, low: nat)
    requires low <= i < low + 250 && low <= j < low + 250 && i % 250 == j % 250
    ensures i == j
  {
    assert i - j == 250 * (i / 250 - j / 250);
  }
}
