/**
 The parts of the authentication cache that live under one lock each: the token index, the
 organization index and the two-generation filter of packages/authcache.
 */
module AuthIndexes {
  import opened Prelude

  type Digest = string

  // ---------------------------------------------------------------- token index

  datatype TokenIx = TokenIx(byId: map<string, Digest>, tomb: map<string, int>)

  /** A tombstone blocks until its end. */
  predicate LiveTomb<K(==)>(tomb: map<K, int>, k: K, now: int) {
    k in tomb && now < tomb[k]
  }

  function TokenPut(x: TokenIx, id: string, h: Digest, now: int): (TokenIx, bool) {
    if id == "" then (x, true)
    else if LiveTomb(x.tomb, id, now) then (x, false)
    else (TokenIx(x.byId[id := h], x.tomb - {id}), true)
  }

  function TokenRemove(x: TokenIx, h: Digest, id: string): TokenIx {
    if id != "" && id in x.byId && x.byId[id] == h then x.(byId := x.byId - {id}) else x
  }

  function TokenRevoke(x: TokenIx, id: string, until: int): TokenIx {
    if id == "" then x else TokenIx(x.byId - {id}, x.tomb[id := until])
  }

  class TokenIndex {
    var byId: map<string, Digest>
    var tomb: map<string, int>
    const tombTtl: int

    function View(): TokenIx
      reads this
    {
      TokenIx(byId, tomb)
    }

    constructor (tombTtl: int)
      ensures View() == TokenIx(map[], map[]) && this.tombTtl == tombTtl
    {
      byId, tomb, this.tombTtl := map[], map[], tombTtl;
    }

    method Put(id: string, h: Digest, now: int) returns (ok: bool)
      modifies this
      ensures (View(), ok) == TokenPut(old(View()), id, h, now)
    {
      if id == "" { return true; }
      var live := TombLive(id, now);
      if live { return false; }
      byId := byId[id := h];
      ok := true;
    }

    method IsRevoked(id: string, now: int) returns (revoked: bool)
      ensures revoked <==> id != "" && LiveTomb(tomb, id, now)
    {
      if id == "" { return false; }
      revoked := id in tomb && now < tomb[id];
    }

    method RemoveDigest(h: Digest, id: string)
      modifies this
      ensures View() == TokenRemove(old(View()), h, id)
    {
      if id == "" { return; }
      if id in byId && byId[id] == h { byId := byId - {id}; }
    }

    /** The tombstone is installed before the entry goes; the entry's digest is reported for eviction. */
    method Revoke(id: string, now: int) returns (h: Option<Digest>)
      modifies this
      ensures View() == TokenRevoke(old(View()), id, now + tombTtl)
      ensures h == if id != "" && id in old(byId) then Some(old(byId)[id]) else None
    {
      if id == "" { return None; }
      tomb := tomb[id := now + tombTtl];
      if id in byId {
        h := Some(byId[id]);
        byId := byId - {id};
      } else {
        h := None;
        assert byId == byId - {id};
      }
    }

    /** Reports whether the tombstone is live and forgets it when it is not. */
    method TombLive(id: string, now: int) returns (live: bool)
      modifies this
      ensures live <==> LiveTomb(old(tomb), id, now)
      ensures byId == old(byId) && tomb == if live then old(tomb) else old(tomb) - {id}
    {
      if id !in tomb { assert tomb == tomb - {id}; return false; }
      if now < tomb[id] { return true; }
      tomb := tomb - {id};
      live := false;
    }
  }

  // ---------------------------------------------------------------- organization index

  datatype OrgIx = OrgIx(byOrg: map<nat, set<Digest>>, tomb: map<nat, int>)

  function LiveTombs(tomb: map<nat, int>, now: int): map<nat, int> {
    map k | k in tomb && now < tomb[k] :: tomb[k]
  }

  /** Organization 0 is uuid.Nil. */
  function OrgPut(x: OrgIx, org: nat, h: Digest, now: int): (OrgIx, bool) {
    if org == 0 then (x, true) else
      var x' := x.(tomb := LiveTombs(x.tomb, now));
      if LiveTomb(x.tomb, org, now) then (x', false)
      else (x'.(byOrg := x.byOrg[org := (if org in x.byOrg then x.byOrg[org] else {}) + {h}]), true)
  }

  function OrgRemove(x: OrgIx, org: nat, h: Digest): OrgIx {
    if org == 0 || org !in x.byOrg then x
    else if x.byOrg[org] - {h} == {} then x.(byOrg := x.byOrg - {org})
    else x.(byOrg := x.byOrg[org := x.byOrg[org] - {h}])
  }

  function OrgRevoke(x: OrgIx, org: nat, now: int, until: int): OrgIx {
    if org == 0 then x else OrgIx(x.byOrg - {org}, LiveTombs(x.tomb, now)[org := until])
  }

  class OrgIndex {
    var byOrg: map<nat, set<Digest>>
    var tomb: map<nat, int>
    const tombTtl: int

    function View(): OrgIx
      reads this
    {
      OrgIx(byOrg, tomb)
    }

    constructor (tombTtl: int)
      ensures View() == OrgIx(map[], map[]) && this.tombTtl == tombTtl
    {
      byOrg, tomb, this.tombTtl := map[], map[], tombTtl;
    }

    method Put(org: nat, h: Digest, now: int) returns (ok: bool)
      modifies this
      ensures (View(), ok) == OrgPut(old(View()), org, h, now)
    {
      if org == 0 { return true; }
      PruneExpiredTombs(now);
      if org in tomb { return false; }
      var digests := if org in byOrg then byOrg[org] else {};
      byOrg := byOrg[org := digests + {h}];
      ok := true;
    }

    method IsSuspended(org: nat, now: int) returns (suspended: bool)
      ensures suspended <==> org != 0 && LiveTomb(tomb, org, now)
    {
      if org == 0 { return false; }
      suspended := org in tomb && now < tomb[org];
    }

    method RemoveDigest(org: nat, h: Digest)
      modifies this
      ensures View() == OrgRemove(old(View()), org, h)
    {
      if org == 0 || org !in byOrg { return; }
      var digests := byOrg[org] - {h};
      byOrg := if digests == {} then byOrg - {org} else byOrg[org := digests];
    }

    method Revoke(org: nat, now: int) returns (evicted: set<Digest>)
      modifies this
      ensures View() == OrgRevoke(old(View()), org, now, now + tombTtl)
      ensures evicted == if org != 0 && org in old(byOrg) then old(byOrg)[org] else {}
    {
      if org == 0 { return {}; }
      PruneExpiredTombs(now);
      tomb := tomb[org := now + tombTtl];
      evicted := if org in byOrg then byOrg[org] else {};
      byOrg := byOrg - {org};
    }

    /** Visits the tombstones in any order and deletes the expired ones. */
    method PruneExpiredTombs(now: int)
      modifies this
      ensures byOrg == old(byOrg) && tomb == LiveTombs(old(tomb), now)
    {
      var todo := tomb.Keys;
      while todo != {}
        invariant byOrg == old(byOrg) && todo <= tomb.Keys <= old(tomb).Keys
        invariant forall k :: k in tomb ==> tomb[k] == old(tomb)[k]
        invariant forall k :: k in old(tomb) && k !in todo ==> (k in tomb <==> now < old(tomb)[k])
        decreases |todo|
      {
        var k :| k in todo;
        todo := todo - {k};
        if now >= tomb[k] { tomb := tomb - {k}; }
      }
    }
  }

  // ---------------------------------------------------------------- two-generation filter

  /** Each generation is the list of digests added to it since it was created; a Bloom filter answers
      yes for those and may answer yes for more. */
  datatype Filter = Filter(active: seq<Digest>, previous: seq<Digest>, adds: nat, expected: nat)

  predicate Tests(f: Filter, h: Digest) {
    h in f.active || h in f.previous
  }

  function Add(f: Filter, h: Digest): Filter {
    if f.adds + 1 < f.expected then f.(active := f.active + [h], adds := f.adds + 1)
    else Filter([], f.active + [h], 0, f.expected)
  }

  function AddAll(f: Filter, hs: seq<Digest>): Filter {
    if hs == [] then f else Add(AddAll(f, hs[..|hs| - 1]), hs[|hs| - 1])
  }

  /** The generations are the end of the run of adds: the previous one a full block, the active one an
      incomplete block after it. */
  predicate Covers(f: Filter, dropped: seq<Digest>, hs: seq<Digest>) {
    && hs == dropped + f.previous + f.active
    && |f.active| == f.adds < f.expected
    && (|f.previous| == f.expected || (f.previous == [] && dropped == []))
  }

  lemma {:induction false} AddAllCovers(expected: nat, hs: seq<Digest>) returns (dropped: seq<Digest>)
    requires expected >= 1
    ensures var f := AddAll(Filter([], [], 0, expected), hs); f.expected == expected && Covers(f, dropped, hs)
  {
    if hs == [] { return []; }
    var n := |hs| - 1;
    dropped := AddAllCovers(expected, hs[..n]);
    var f := AddAll(Filter([], [], 0, expected), hs[..n]);
    assert hs == hs[..n] + [hs[n]] == dropped + f.previous + (f.active + [hs[n]]);
    if f.adds + 1 >= expected {
      dropped := dropped + f.previous;
    }
  }

  /** Each of the most recent `expected` adds tests positive, and no generation ever took more than
      `expected` adds. */
  lemma RecentAddsRemembered(expected: nat, hs: seq<Digest>, i: nat)
    requires expected >= 1 && i < |hs| && |hs| - expected <= i
    ensures var f := AddAll(Filter([], [], 0, expected), hs);
            Tests(f, hs[i]) && |f.active| < expected && |f.previous| <= expected
  {
    var dropped := AddAllCovers(expected, hs);
    var f := AddAll(Filter([], [], 0, expected), hs);
    if i >= |dropped| + |f.previous| {
      assert hs[i] == f.active[i - |dropped| - |f.previous|];
    } else {
      assert hs[i] == f.previous[i - |dropped|];
    }
  }

  class BloomFilter {
    var active: seq<Digest>
    var previous: seq<Digest>
    var adds: nat
    const expected: nat

    function View(): Filter
      reads this
    {
      Filter(active, previous, adds, expected)
    }

    constructor (expected: nat)
      ensures View() == Filter([], [], 0, expected)
    {
      active, previous, adds, this.expected := [], [], 0, expected;
    }

    /** collides says whether the bits of a generation's digests happen to cover those of another. */
    method Test(h: Digest, collides: (seq<Digest>, Digest) -> bool) returns (hit: bool)
      ensures Tests(View(), h) ==> hit
      ensures hit ==> Tests(View(), h) || collides(active, h) || collides(previous, h)
    {
      if h in active || collides(active, h) { return true; }
      hit := h in previous || collides(previous, h);
    }

    method AddDigest(h: Digest)
      modifies this
      ensures View() == Add(old(View()), h)
    {
      active := active + [h];
      adds := adds + 1;
      if adds < expected { return; }
      previous := active;
      active := [];
      adds := 0;
    }
  }
}
