/** The in-memory key provider: device keys, and the nonce table with its garbage collection.
    Times are in nanoseconds. */
module Nonces {
  import opened Base

  const MINUTE := 60_000_000_000

  datatype KeyInfo = KeyInfo(keyID: string, secret: Bytes)

  /** For each key the nonces on record, with the date of the request that brought them. */
  type Table = map<string, map<string, int>>

  function Row(table: Table, keyID: string): map<string, int> {
    if keyID in table then table[keyID] else map[]
  }

  function Live(row: map<string, int>, cut: int): map<string, int> {
    map n | n in row && row[n] >= cut :: row[n]
  }

  predicate Seen(table: Table, ttl: int, now: int, keyID: string, nonce: string) {
    nonce in Live(Row(table, keyID), now - ttl)
  }

  /** The table after SeenNonce. */
  function Recorded(table: Table, ttl: int, now: int, keyID: string, nonce: string, at: int): Table {
    var live := Live(Row(table, keyID), now - ttl);
    table[keyID := if nonce in live then live else live[nonce := at]]
  }

  class MemKeyProvider {
    var keys: map<string, KeyInfo>
    var nonces: Table
    const ttl: int

    constructor (ttl: int)
      ensures this.ttl == if ttl <= 0 then 600_000_000_000 else ttl
      ensures keys == map[] && nonces == map[]
    {
      this.ttl := if ttl <= 0 then 10 * MINUTE else ttl;
      keys := map[];
      nonces := map[];
    }

    method Put(deviceUUID: string, keyID: string, secret: Bytes)
      modifies this`keys
      ensures keys == old(keys)[deviceUUID := KeyInfo(keyID, secret)]
    {
      keys := keys[deviceUUID := KeyInfo(keyID, secret)];
    }

    method Lookup(deviceUUID: string, keyID: string) returns (r: Option<KeyInfo>)
      ensures r.Some? <==> deviceUUID in keys && keys[deviceUUID].keyID == keyID
      ensures r.Some? ==> r.value == keys[deviceUUID]
    {
      if deviceUUID !in keys || keys[deviceUUID].keyID != keyID {
        return None;
      }
      return Some(keys[deviceUUID]);
    }

    /** Collects the old nonces of the key, then tests and records, all under the lock. */
    method SeenNonce(keyID: string, nonce: string, at: int, now: int) returns (already: bool)
      modifies this`nonces
      ensures already == Seen(old(nonces), ttl, now, keyID, nonce)
      ensures nonces == Recorded(old(nonces), ttl, now, keyID, nonce, at)
    {
      if keyID !in nonces {
        nonces := nonces[keyID := map[]];
      }
      var cut := now - ttl;
      Collect(keyID, cut);
      if nonce in nonces[keyID] {
        return true;
      }
      nonces := nonces[keyID := nonces[keyID][nonce := at]];
      return false;
    }

    /** Deleting from the map while ranging over it, in any order. */
    method Collect(keyID: string, cut: int)
      requires keyID in nonces
      modifies this`nonces
      ensures nonces == old(nonces)[keyID := Live(old(nonces)[keyID], cut)]
    {
      ghost var row := nonces[keyID];
      var todo := nonces[keyID].Keys;
      while todo != {}
        invariant keyID in nonces && nonces == old(nonces)[keyID := nonces[keyID]]
        invariant todo <= nonces[keyID].Keys
        invariant forall n | n in nonces[keyID] :: n in row && nonces[keyID][n] == row[n]
        invariant forall n | n in row && row[n] >= cut :: n in nonces[keyID]
        invariant forall n | n in nonces[keyID] && n !in todo :: row[n] >= cut
        decreases todo
      {
        var n :| n in todo;
        if nonces[keyID][n] < cut {
          nonces := nonces[keyID := nonces[keyID] - {n}];
        }
        todo := todo - {n};
      }
      assert nonces[keyID] == Live(row, cut);
    }
  }

  /** One SeenNonce call. */
  datatype Call = Call(keyID: string, nonce: string, at: int, now: int)

  function After(ttl: int, calls: seq<Call>): Table {
    if calls == [] then map[]
    else
      var c := calls[|calls| - 1];
      Recorded(After(ttl, calls[..|calls| - 1]), ttl, c.now, c.keyID, c.nonce, c.at)
  }

  /** The log nothing is ever collected from: the calls that were answered false. */
  function Accepted(ttl: int, calls: seq<Call>): seq<Call> {
    if calls == [] then []
    else
      var front, c := calls[..|calls| - 1], calls[|calls| - 1];
      Accepted(ttl, front) + if Seen(After(ttl, front), ttl, c.now, c.keyID, c.nonce) then [] else [c]
  }

  predicate ClockMonotone(calls: seq<Call>) {
    forall i, j | 0 <= i < j < |calls| :: calls[i].now <= calls[j].now
  }

  /** The table holds a record of every accepted call that is not yet older than ttl, and nothing else. */
  ghost predicate Faithful(table: Table, log: seq<Call>, cut: int) {
    && (forall r | r in log && r.at >= cut :: r.nonce in Row(table, r.keyID) && Row(table, r.keyID)[r.nonce] == r.at)
    && (forall k, n | n in Row(table, k) :: exists r | r in log :: r.keyID == k && r.nonce == n && r.at == Row(table, k)[n])
  }

  lemma FaithfulLater(table: Table, log: seq<Call>, cut: int, later: int)
    requires Faithful(table, log, cut) && cut <= later
    ensures Faithful(table, log, later)
  {}

  lemma RecordedFaithful(table: Table, log: seq<Call>, ttl: int, c: Call)
    requires Faithful(table, log, c.now - ttl)
    ensures var log' := log + if Seen(table, ttl, c.now, c.keyID, c.nonce) then [] else [c];
      Faithful(Recorded(table, ttl, c.now, c.keyID, c.nonce, c.at), log', c.now - ttl)
  {
    var seen := Seen(table, ttl, c.now, c.keyID, c.nonce);
    var log' := log + if seen then [] else [c];
    var table' := Recorded(table, ttl, c.now, c.keyID, c.nonce, c.at);
    forall k, n | n in Row(table', k) ensures exists r | r in log' :: r.keyID == k && r.nonce == n && r.at == Row(table', k)[n] {
      if k == c.keyID && n == c.nonce && !seen {
        assert c in log';
      } else {
        assert n in Row(table, k) && Row(table', k)[n] == Row(table, k)[n];
        var r :| r in log && r.keyID == k && r.nonce == n && r.at == Row(table, k)[n];
        assert r in log';
      }
    }
    forall r | r in log' && r.at >= c.now - ttl
      ensures r.nonce in Row(table', r.keyID) && Row(table', r.keyID)[r.nonce] == r.at
    {
      if r in log {
        assert r.nonce in Row(table, r.keyID);
      }
    }
  }

  lemma {:induction false} AfterFaithful(ttl: int, calls: seq<Call>, now: int)
    requires ClockMonotone(calls) && forall c | c in calls :: c.now <= now
    ensures Faithful(After(ttl, calls), Accepted(ttl, calls), now - ttl)
  {
    if calls != [] {
      var front, c := calls[..|calls| - 1], calls[|calls| - 1];
      forall d | d in front ensures d.now <= c.now {
        var i :| 0 <= i < |front| && front[i] == d;
        assert calls[i].now <= calls[|calls| - 1].now;
      }
      AfterFaithful(ttl, front, c.now);
      RecordedFaithful(After(ttl, front), Accepted(ttl, front), ttl, c);
      FaithfulLater(After(ttl, calls), Accepted(ttl, calls), c.now - ttl, now - ttl);
    }
  }

  /** Collection is invisible: over any run of calls with a monotone clock the answer is the one
      a table that never forgets would give, looking at records dated now - ttl or later. */
  lemma {:induction false} CollectionInvisible(ttl: int, calls: seq<Call>, c: Call)
    requires ClockMonotone(calls) && forall d | d in calls :: d.now <= c.now
    ensures Seen(After(ttl, calls), ttl, c.now, c.keyID, c.nonce) <==>
      exists r | r in Accepted(ttl, calls) :: r.keyID == c.keyID && r.nonce == c.nonce && r.at >= c.now - ttl
  {
    AfterFaithful(ttl, calls, c.now);
    var row := Row(After(ttl, calls), c.keyID);
    if c.nonce in row {
      var r :| r in Accepted(ttl, calls) && r.keyID == c.keyID && r.nonce == c.nonce && r.at == row[c.nonce];
    }
  }
}
