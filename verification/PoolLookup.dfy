/** What a lookup in the pool finds and what it leaves behind. */
module PoolLookup {
  import opened Codes
  import opened Lists
  import opened PoolSpec
  import opened PoolInv

  /** How many entries a lookup passes: the position of the first usable one, or all. */
  function Passed(w: World, c: Id, rest: seq<Id>, keys: Keys, now: int): (k: nat)
    requires c in w.dbc && w.dbc[c].genv in w.genv && forall d <- rest :: d in w.dbc
    ensures k <= |rest|
    ensures k < |rest| ==> UsableFor(w, c, rest[k], keys, now)
    ensures forall i :: 0 <= i < k ==> !UsableFor(w, c, rest[i], keys, now)
  {
    if rest == [] || UsableFor(w, c, rest[0], keys, now) then 0
    else 1 + Passed(w, c, rest[1..], keys, now)
  }

  // Idle, unexpired, equal on all four keys and compatible in its attributes.
  predicate UsableFor(w: World, c: Id, d: Id, keys: Keys, now: int)
    requires c in w.dbc && w.dbc[c].genv in w.genv && d in w.dbc
  {
    Usable(w.genv[w.dbc[c].genv].strict, w.dbc[c], w.dbc[d], keys, now)
  }

  // The entries that outlive a lookup: not both idle and expired.
  function Surviving(dbc: map<Id, Dbc>, ds: seq<Id>, now: int): (s: seq<Id>)
    requires forall d <- ds :: d in dbc
  {
    if ds == [] then []
    else (if Stale(dbc[ds[0]], now) then [] else [ds[0]]) + Surviving(dbc, ds[1..], now)
  }

  lemma WithoutMiddle<T>(kept: seq<T>, x: T, rest: seq<T>)
    requires Distinct(kept + [x] + rest)
    ensures Without(kept + [x] + rest, x) == kept + rest && x !in kept && x !in rest
  {
    var s := kept + [x] + rest;
    var n := |kept|;
    assert s[n] == x && s[..n] == kept && s[n + 1..] == rest;
    forall i | 0 <= i < n ensures kept[i] != x && s[i] != x {
      assert s[..n][i] == s[i];
    }
    forall i | 0 <= i < |rest| ensures rest[i] != x {
      assert s[n + 1..][i] == s[n + 1 + i];
    }
    WithoutAt(s, n);
  }

  // One entry on the way: dropped if stale, else left alone.
  function Pass(w: World, d: Id, now: int): World
    requires d in w.dbc && w.dbc[d].genv in w.pool
  {
    if Stale(w.dbc[d], now) then PoolDrop(w, d, true) else w
  }

  function PassAll(w: World, ds: seq<Id>, now: int): World
    decreases ds
  {
    if ds == [] || ds[0] !in w.dbc || w.dbc[ds[0]].genv !in w.pool then w
    else PassAll(Pass(w, ds[0], now), ds[1..], now)
  }

  // ds are entries of the pool of g, each once.
  ghost predicate Entries(dbc: map<Id, Dbc>, inPool: set<Id>, g: Id, ds: seq<Id>) {
    Distinct(ds) && forall d <- ds :: d in dbc && d in inPool && dbc[d].genv == g
  }

  lemma PassGood(w: World, d: Id, now: int)
    requires Good(w) && d in w.dbc && d in w.inPool
    ensures w.dbc[d].genv in w.pool && Good(Pass(w, d, now))
  {
    Resolved(w, d);
    if Stale(w.dbc[d], now) {
      FreedGood(w, d);
    }
  }

  lemma {:induction false} PassAllGood(w: World, g: Id, ds: seq<Id>, now: int)
    requires Good(w) && Entries(w.dbc, w.inPool, g, ds)
    ensures Good(PassAll(w, ds, now))
    decreases ds
  {
    if ds != [] {
      PassGood(w, ds[0], now);
      DistinctTail(ds);
      PassAllGood(Pass(w, ds[0], now), g, ds[1..], now);
    }
  }

  lemma {:induction false} SurvivingFrame(dbc: map<Id, Dbc>, v: map<Id, Dbc>, ds: seq<Id>, now: int)
    requires forall d <- ds :: d in dbc && d in v && v[d] == dbc[d]
    ensures Surviving(v, ds, now) == Surviving(dbc, ds, now)
  {
    if ds != [] {
      SurvivingFrame(dbc, v, ds[1..], now);
    }
  }

  /** Sweeping the entries ds out of w takes the stale ones, with their records; no other record changes,
      and what stays in the pool keeps its order. */
  ghost predicate Swept(w: World, u: World, ds: seq<Id>, now: int)
    requires forall d <- ds :: d in w.dbc
  {
    && u.genv == w.genv && u.app == w.app
    && (forall d <- u.dbc :: d in w.dbc && u.dbc[d] == w.dbc[d] && (d in u.inPool <==> d in w.inPool))
    && (forall d <- w.dbc :: d in u.dbc <==> !(d in ds && Stale(w.dbc[d], now)))
  }

  // What is kept before the entries ds[1..] once d == ds[0] has been passed.
  function More(w: World, kept: seq<Id>, d: Id, now: int): seq<Id>
    requires d in w.dbc
  {
    kept + if Stale(w.dbc[d], now) then [] else [d]
  }

  lemma PassFirst(w: World, g: Id, kept: seq<Id>, ds: seq<Id>, rest: seq<Id>, now: int)
    requires g in w.pool && ds != [] && w.pool[g] == kept + ds + rest && Distinct(w.pool[g])
    requires ds[0] in w.dbc && w.dbc[ds[0]].genv == g
    ensures var d := ds[0]; var v := Pass(w, d, now);
            v.pool[g] == More(w, kept, d, now) + ds[1..] + rest && Distinct(v.pool[g])
  {
    var d, tail := ds[0], ds[1..];
    assert kept + ds + rest == kept + [d] + (tail + rest);
    WithoutMiddle(kept, d, tail + rest);
    WithoutMembers(w.pool[g], d);
    assert More(w, kept, d, now) + tail + rest == More(w, kept, d, now) + (tail + rest);
    assert kept + [] + (tail + rest) == kept + (tail + rest);
  }

  lemma {:induction false} PassAllSweeps(w: World, g: Id, ds: seq<Id>, now: int)
    requires g in w.pool && Distinct(ds) && forall d <- ds :: d in w.dbc && w.dbc[d].genv == g
    ensures Swept(w, PassAll(w, ds, now), ds, now)
    decreases ds
  {
    if ds != [] {
      DistinctTail(ds);
      PassAllSweeps(Pass(w, ds[0], now), g, ds[1..], now);
    }
  }

  lemma {:induction false} PassAllPool(w: World, g: Id, kept: seq<Id>, ds: seq<Id>, rest: seq<Id>, now: int)
    requires g in w.pool && w.pool[g] == kept + ds + rest && Distinct(w.pool[g])
    requires Distinct(ds) && forall d <- ds :: d in w.dbc && w.dbc[d].genv == g
    ensures var u := PassAll(w, ds, now);
            g in u.pool && u.pool[g] == kept + Surviving(w.dbc, ds, now) + rest
    decreases ds
  {
    if ds == [] {
      assert kept + [] + rest == kept + rest;
    } else {
      var v := Pass(w, ds[0], now);
      DistinctTail(ds);
      PassFirst(w, g, kept, ds, rest, now);
      PassAllPool(v, g, More(w, kept, ds[0], now), ds[1..], rest, now);
      SurvivingFrame(w.dbc, v.dbc, ds[1..], now);
      assert More(w, kept, ds[0], now) + Surviving(w.dbc, ds[1..], now) == kept + Surviving(w.dbc, ds, now);
    }
  }

  lemma {:induction false} PassAllOtherPools(w: World, g: Id, ds: seq<Id>, now: int)
    requires g in w.pool && Distinct(ds) && forall d <- ds :: d in w.dbc && w.dbc[d].genv == g
    ensures PassAll(w, ds, now).pool - {g} == w.pool - {g}
    decreases ds
  {
    if ds != [] {
      DistinctTail(ds);
      PassAllOtherPools(Pass(w, ds[0], now), g, ds[1..], now);
    }
  }

  // The loop of the lookup passes entries until one is usable, and takes that.
  lemma {:induction false} ScanPasses(w: World, c: Id, rest: seq<Id>, keys: Keys, now: int)
    requires c in w.dbc && c !in rest && w.dbc[c].genv in w.genv && w.dbc[c].genv in w.pool
    requires Distinct(rest) && forall d <- rest :: d in w.dbc && w.dbc[d].genv == w.dbc[c].genv
    ensures var k := Passed(w, c, rest, keys, now);
            var u := PassAll(w, rest[..k], now);
            c in u.dbc && (k < |rest| ==> rest[k] in u.dbc) &&
            Scan(w, c, rest, keys, now) ==
            if k < |rest| then (Take(u, c, rest[k]), Some(rest[k])) else (u, None)
    decreases rest
  {
    var k := Passed(w, c, rest, keys, now);
    if k > 0 {
      var v, tail := Pass(w, rest[0], now), rest[1..];
      DistinctTail(rest);
      PassFrame(w, c, rest[0], tail, now);
      assert PassAll(w, rest[..k], now) == PassAll(v, tail[..k - 1], now) by {
        assert rest[..k][0] == rest[0] && rest[..k][1..] == tail[..k - 1];
      }
      assert Passed(v, c, tail, keys, now) == k - 1 by {
        PassedFrame(w, v, c, tail, keys, now);
      }
      ScanPasses(v, c, tail, keys, now);
    }
  }

  // Passing an entry leaves alone the connection and the entries still to be looked at.
  lemma PassFrame(w: World, c: Id, d: Id, tail: seq<Id>, now: int)
    requires d in w.dbc && w.dbc[d].genv in w.pool && c in w.dbc && c != d && d !in tail
    requires forall b <- tail :: b in w.dbc
    ensures var v := Pass(w, d, now);
      && v.genv == w.genv && v.pool.Keys == w.pool.Keys && c in v.dbc && v.dbc[c] == w.dbc[c]
      && forall b <- tail :: b in v.dbc && v.dbc[b] == w.dbc[b]
  {
  }

  lemma {:induction false} PassedFrame(w: World, v: World, c: Id, rest: seq<Id>, keys: Keys, now: int)
    requires c in w.dbc && w.dbc[c].genv in w.genv && v.genv == w.genv
    requires c in v.dbc && v.dbc[c] == w.dbc[c]
    requires forall d <- rest :: d in w.dbc && d in v.dbc && v.dbc[d] == w.dbc[d]
    ensures Passed(v, c, rest, keys, now) == Passed(w, c, rest, keys, now)
  {
    if rest != [] {
      PassedFrame(w, v, c, rest[1..], keys, now);
    }
  }

  lemma PoolEntries(w: World, g: Id)
    requires Linked(w) && g in w.pool
    ensures Entries(w.dbc, w.inPool, g, w.pool[g])
  {
    forall d <- w.pool[g] ensures d in w.dbc && d in w.inPool && w.dbc[d].genv == g {
      assert d in PoolHome(w.dbc, w.inPool);
    }
  }

  /** Passing the first k entries of a pool drops exactly those idle and expired; the others keep their
      records - times included - and their order. */
  lemma LookupSweeps(w: World, g: Id, k: nat, now: int)
    requires Good(w) && g in w.pool && k <= |w.pool[g]|
    ensures var ps := w.pool[g];
            (forall d <- ps :: d in w.dbc) &&
            var u := PassAll(w, ps[..k], now);
      && Good(u) && Swept(w, u, ps[..k], now)
      && g in u.pool && u.pool[g] == Surviving(w.dbc, ps[..k], now) + ps[k..] && u.pool - {g} == w.pool - {g}
  {
    var ps := w.pool[g];
    PoolEntries(w, g);
    EntriesPrefix(w.dbc, w.inPool, g, ps, k);
    PassAllGood(w, g, ps[..k], now);
    PassAllSweeps(w, g, ps[..k], now);
    PassAllPoolWhole(w, g, k, now);
  }

  lemma PassAllPoolWhole(w: World, g: Id, k: nat, now: int)
    requires g in w.pool && Distinct(w.pool[g]) && k <= |w.pool[g]|
    requires forall d <- w.pool[g] :: d in w.dbc && w.dbc[d].genv == g
    ensures var ps := w.pool[g];
            var u := PassAll(w, ps[..k], now);
            g in u.pool && u.pool[g] == Surviving(w.dbc, ps[..k], now) + ps[k..] && u.pool - {g} == w.pool - {g}
  {
    var ps := w.pool[g];
    assert [] + ps[..k] + ps[k..] == ps;
    forall d <- ps[..k] ensures d in ps {
    }
    assert Distinct(ps[..k]);
    PassAllOtherPools(w, g, ps[..k], now);
    PassAllPool(w, g, [], ps[..k], ps[k..], now);
    assert [] + Surviving(w.dbc, ps[..k], now) + ps[k..] == Surviving(w.dbc, ps[..k], now) + ps[k..];
  }

  /** From a well-formed store, a lookup takes the first entry in list order that is idle, unexpired,
      equal on all four keys and compatible in its attributes, having passed those before it; or it
      fails, if there is none, having passed all. */
  lemma LookupTakesFirstUsable(w: World, c: Id, keys: Keys, now: int)
    requires Good(w) && c in w.dbc && c !in w.inPool && !w.dbc[c].connected && Resolves(w, c)
    ensures var g := w.dbc[c].genv; var ps := w.pool[g];
            (forall d <- ps :: d in w.dbc) &&
            var k := Passed(w, c, ps, keys, now);
            var u := PassAll(w, ps[..k], now);
      && c in u.dbc && (k < |ps| ==> CanTake(u, c, ps[k]))
      && Scan(w, c, ps, keys, now) == if k < |ps| then (Take(u, c, ps[k]), Some(ps[k])) else (u, None)
  {
    var g := w.dbc[c].genv; var ps := w.pool[g];
    PoolEntries(w, g);
    Resolved(w, c);
    var k := Passed(w, c, ps, keys, now);
    ScanPasses(w, c, ps, keys, now);
    if k < |ps| {
      NextIsTakeable(w, c, k, now);
    }
  }

  lemma NextIsTakeable(w: World, c: Id, k: nat, now: int)
    requires c in w.dbc && c !in w.inPool && !w.dbc[c].connected && w.dbc[c].genv in w.pool
    requires var g := w.dbc[c].genv; Entries(w.dbc, w.inPool, g, w.pool[g])
    requires var ps := w.pool[w.dbc[c].genv];
             k < |ps| && ps[k] in w.dbc && !Stale(w.dbc[ps[k]], now) && !w.dbc[ps[k]].cpInUse
    ensures CanTake(PassAll(w, w.pool[w.dbc[c].genv][..k], now), c, w.pool[w.dbc[c].genv][k])
  {
    var g := w.dbc[c].genv; var ps := w.pool[g];
    EntriesPrefix(w.dbc, w.inPool, g, ps, k);
    PassAllSweeps(w, g, ps[..k], now);
  }

  lemma EntriesPrefix(dbc: map<Id, Dbc>, inPool: set<Id>, g: Id, ps: seq<Id>, k: nat)
    requires Entries(dbc, inPool, g, ps) && k <= |ps|
    ensures Entries(dbc, inPool, g, ps[..k])
  {
    forall d <- ps[..k] ensures d in ps {
    }
  }

  // ---- What the application gets ----

  /** The record of a connection out of the pool names the attributes the application had asked for - whatever
      its driver has made of them; only the packet size may be the pool's, and only under relaxed matching. */
  lemma TakenRecordNamesRequested(strict: bool, a: Attrs, p: Attrs)
    requires AttrsMatch(strict, a, p)
    ensures ResetAttrs(a, p) == a.(packetSize := p.packetSize)
    ensures strict ==> ResetAttrs(a, p) == a
  {
  }

  /** Taking an entry and putting it back restores the entry - driver, keys, timeout and place - but
      for its attributes and its new expiry; the connection is left without a driver. */
  lemma PutUndoesTake(w: World, c: Id, d: Id, now: int, newId: Id)
    requires CanTake(w, c, d) && Resolves(w, c) && Resolves(w, d) && w.dbc[d].cpPdbc.None?
    ensures Resolves(Take(w, c, d), c)
    ensures var v := Put(Take(w, c, d), c, now, newId);
      && v.pool == w.pool && v.app == w.app && v.inPool == w.inPool
      && v.env == w.env && v.dll == w.dll && v.dbc.Keys == w.dbc.Keys
      && v.dbc[d] == w.dbc[d].(attrs := v.dbc[d].attrs, cpExpiry := now + w.dbc[d].cpTimeout,
                               connected := true)
      && v.dbc[c].dhdbc.None? && v.dbc[c].cpPdbc.None? && !v.dbc[c].connected
      && forall b <- w.dbc :: b != c && b != d ==> v.dbc[b] == w.dbc[b]
  {
    TakeParts(w, c, d);
  }
}
