/** What connecting and disconnecting come to, in terms of the records alone. */
module PoolCalls {
  import opened Codes
  import opened Lists
  import opened PoolSpec
  import opened PoolInv
  import opened PoolLookup
  import opened PoolRuns

  // ---- Which entry a lookup finds ----

  /** Why an entry p is no answer to the request for these keys on the connection x: it is in use, has expired, belongs to
      another data source, user, password or connection string, or has an attribute that the request cannot do with. */
  predicate Unfit(strict: bool, x: Dbc, p: Dbc, keys: Keys, now: int) {
    || p.cpInUse
    || p.cpExpiry <= now
    || p.keys.dsn != keys.dsn
    || p.keys.uid != keys.uid
    || p.keys.pwd != keys.pwd
    || p.keys.connstr != keys.connstr
    || p.attrs.odbcCursors != x.attrs.odbcCursors
    || (strict && p.attrs.packetSize != x.attrs.packetSize)
    || (x.attrs.qualifier == None && p.attrs.qualifier != None)
    || (x.attrs.quietMode == 0 && p.attrs.quietMode != 0)
  }

  lemma UsableIsFit(strict: bool, x: Dbc, p: Dbc, keys: Keys, now: int)
    ensures Usable(strict, x, p, keys, now) <==> !Unfit(strict, x, p, keys, now)
  {
    assert p.keys == keys <==>
      p.keys.dsn == keys.dsn && p.keys.uid == keys.uid && p.keys.pwd == keys.pwd && p.keys.connstr == keys.connstr;
  }

  /** A lookup finds the first entry that is fit, and fails exactly if every entry of the pool is unfit. */
  lemma LookupFindsFirstFit(w: World, c: Id, keys: Keys, now: int)
    requires Good(w) && c in w.dbc && c !in w.inPool && !w.dbc[c].connected && Resolves(w, c)
    ensures var x := w.dbc[c];
      var strict, ps := w.genv[x.genv].strict, w.pool[x.genv];
      var found := Scan(w, c, ps, keys, now).1;
      && (forall d <- ps :: d in w.dbc)
      && (found == None <==> forall d <- ps :: Unfit(strict, x, w.dbc[d], keys, now))
      && (found.Some? ==>
            exists k :: 0 <= k < |ps| && ps[k] == found.value && !Unfit(strict, x, w.dbc[ps[k]], keys, now) &&
                        forall i :: 0 <= i < k ==> Unfit(strict, x, w.dbc[ps[i]], keys, now))
  {
    var x := w.dbc[c];
    var strict, ps := w.genv[x.genv].strict, w.pool[x.genv];
    LookupTakesFirstUsable(w, c, keys, now);
    PassedAreUnfit(w, c, ps, keys, now);
  }

  lemma PassedAreUnfit(w: World, c: Id, ps: seq<Id>, keys: Keys, now: int)
    requires c in w.dbc && w.dbc[c].genv in w.genv && forall d <- ps :: d in w.dbc
    ensures var strict := w.genv[w.dbc[c].genv].strict; var k := Passed(w, c, ps, keys, now);
      && (forall i :: 0 <= i < k ==> Unfit(strict, w.dbc[c], w.dbc[ps[i]], keys, now))
      && (k < |ps| ==> !Unfit(strict, w.dbc[c], w.dbc[ps[k]], keys, now))
      && (k == |ps| <==> forall d <- ps :: Unfit(strict, w.dbc[c], w.dbc[d], keys, now))
  {
    var strict := w.genv[w.dbc[c].genv].strict;
    forall d <- ps ensures UsableFor(w, c, d, keys, now) <==> !Unfit(strict, w.dbc[c], w.dbc[d], keys, now) {
      UsableIsFit(strict, w.dbc[c], w.dbc[d], keys, now);
    }
    var k := Passed(w, c, ps, keys, now);
    assert forall i :: 0 <= i < k ==> ps[i] in ps && !UsableFor(w, c, ps[i], keys, now);
    if k < |ps| {
      assert ps[k] in ps && UsableFor(w, c, ps[k], keys, now);
    }
  }

  /** In particular nobody gets an entry that was made with other credentials. */
  lemma FoundIsSameUser(w: World, c: Id, keys: Keys, now: int)
    requires Good(w) && c in w.dbc && c !in w.inPool && !w.dbc[c].connected && Resolves(w, c)
    ensures var found := Scan(w, c, w.pool[w.dbc[c].genv], keys, now).1;
      found.Some? ==>
        && found.value in w.dbc
        && var p := w.dbc[found.value];
           p.keys.dsn == keys.dsn && p.keys.uid == keys.uid && p.keys.pwd == keys.pwd && p.keys.connstr == keys.connstr
  {
    LookupFindsFirstFit(w, c, keys, now);
  }

  /** The entries ps of w that were looked at on the way to v: those idle and expired are gone, and no others; what is left,
      apart from the entry that was found, is as it was. */
  ghost predicate OnlyExpiredGone(w: World, v: World, c: Id, ps: seq<Id>, found: Option<Id>, now: int) {
    && (forall d <- ps :: d in w.dbc)
    && (forall d <- w.dbc :: d != c && found != Some(d) && d in v.dbc ==> v.dbc[d] == w.dbc[d])
    && (forall d <- w.dbc :: d !in v.dbc ==> d in ps && !w.dbc[d].cpInUse && w.dbc[d].cpExpiry <= now)
    && (found.None? ==> AllLive(w, v, ps, |ps|, now))
    && (found.Some? ==> exists k :: 0 <= k < |ps| && ps[k] == found.value && AllLive(w, v, ps, k, now))
  }

  ghost predicate AllLive(w: World, v: World, ps: seq<Id>, n: nat, now: int)
    requires n <= |ps| && forall d <- ps :: d in w.dbc
  {
    forall i :: 0 <= i < n && ps[i] in v.dbc ==> w.dbc[ps[i]].cpInUse || now < w.dbc[ps[i]].cpExpiry
  }

  lemma LookupDropsExpired(w: World, c: Id, keys: Keys, now: int)
    requires Good(w) && c in w.dbc && c !in w.inPool && !w.dbc[c].connected && Resolves(w, c)
    ensures var ps := w.pool[w.dbc[c].genv]; var (v, found) := Scan(w, c, ps, keys, now);
      OnlyExpiredGone(w, v, c, ps, found, now)
  {
    var ps := w.pool[w.dbc[c].genv];
    LookupTakesFirstUsable(w, c, keys, now);
    var k := Passed(w, c, ps, keys, now);
    LookupSweeps(w, w.dbc[c].genv, k, now);
    TakenAfterSweep(w, PassAll(w, ps[..k], now), c, ps, k, now);
  }

  lemma TakenAfterSweep(w: World, u: World, c: Id, ps: seq<Id>, k: nat, now: int)
    requires k <= |ps| && (forall d <- ps :: d in w.dbc) && Swept(w, u, ps[..k], now)
    requires c in u.dbc && (k < |ps| ==> ps[k] in u.dbc)
    ensures if k < |ps| then OnlyExpiredGone(w, Take(u, c, ps[k]), c, ps, Some(ps[k]), now)
            else OnlyExpiredGone(w, u, c, ps, None, now)
  {
    assert forall i :: 0 <= i < k ==> ps[..k][i] == ps[i] && ps[i] in ps[..k];
    forall d <- ps[..k] ensures d in ps {
    }
    assert AllLive(w, u, ps, k, now);
    if k < |ps| {
      assert AllLive(w, Take(u, c, ps[k]), ps, k, now);
    }
  }

  // ---- Connecting ----

  /** A connection that is answered from the pool is connected through the entry's driver handle, which the entry gives
      up; it has the entry's keys, and remembers the entry. */
  lemma ConnectFromPool(w: World, c: Id, keys: Keys, now: int, src: Source)
    requires Good(w) && Mine(w, c) && !w.dbc[c].connected && w.genv[w.dbc[c].genv].pooling
    requires Scan(w, c, w.pool[w.dbc[c].genv], keys, now).1.Some?
    ensures var d := Scan(w, c, w.pool[w.dbc[c].genv], keys, now).1.value; var v := Connect(w, c, keys, now, src);
      && d in w.dbc && c in v.dbc && d in v.dbc
      && v.dbc[c].connected && v.dbc[c].dhdbc == w.dbc[d].dhdbc && v.dbc[c].henv == w.dbc[d].henv
      && v.dbc[c].keys == keys && v.dbc[c].cpPdbc == Some(d) && !v.dbc[c].cpInUse
      && v.dbc[c].cpTimeout == w.dbc[c].cpTimeout && v.dbc[c].genv == w.dbc[c].genv
      && v.dbc[d].cpInUse && v.dbc[d].dhdbc == None && v.dbc[d].henv == None && v.dbc[d].keys == Keys(None, None, None, None)
      && v.dbc[d].cpTimeout == w.dbc[d].cpTimeout && v.dbc[d].cpExpiry == w.dbc[d].cpExpiry
  {
    var ps := w.pool[w.dbc[c].genv];
    LookupTakesFirstUsable(w, c, keys, now);
    LookupFindsFirstFit(w, c, keys, now);
    var k := Passed(w, c, ps, keys, now);
    LookupSweeps(w, w.dbc[c].genv, k, now);
    TakeParts(PassAll(w, ps[..k], now), c, ps[k]);
  }

  /** Otherwise it gets a driver, if it has none yet, and is connected if the driver agrees. With pooling on, what was asked
      for is saved: by SQLConnect the three keys, by SQLDriverConnect the fourth; the others stay. */
  lemma ConnectAnew(w: World, c: Id, keys: Keys, now: int, src: Source)
    requires Good(w) && Mine(w, c) && !w.dbc[c].connected
    requires w.genv[w.dbc[c].genv].pooling ==> Scan(w, c, w.pool[w.dbc[c].genv], keys, now).1.None?
    ensures var x := w.dbc[c]; var v := Connect(w, c, keys, now, src);
      && c in v.dbc && v.dbc[c].connected == src.connects && v.dbc[c].cpTimeout == src.timeout
      && v.dbc[c].dhdbc == (if x.henv.Some? then x.dhdbc else Some(src.handle))
      && v.dbc[c].attrs == x.attrs && v.dbc[c].cpPdbc == x.cpPdbc && v.dbc[c].genv == x.genv
      && (!w.genv[x.genv].pooling ==> v.dbc[c].keys == x.keys && v.pool == w.pool)
      && (w.genv[x.genv].pooling && keys.connstr == None ==>
            v.dbc[c].keys == Keys(keys.dsn, keys.uid, keys.pwd, x.keys.connstr))
      && (w.genv[x.genv].pooling && keys.connstr != None ==>
            v.dbc[c].keys == Keys(x.keys.dsn, x.keys.uid, x.keys.pwd, keys.connstr))
  {
    var x := w.dbc[c];
    if w.genv[x.genv].pooling {
      var v := Scan(w, c, w.pool[x.genv], keys, now).0;
      ScanGood(w, c, keys, now);
      SavedByCall(x.keys, keys);
      LoadedAndConnected(v, c, SavedKeys(x.keys, keys), src);
    } else {
      LoadedAndConnected(w, c, x.keys, src);
    }
  }

  lemma SavedByCall(had: Keys, keys: Keys)
    ensures keys.connstr == None ==> SavedKeys(had, keys) == Keys(keys.dsn, keys.uid, keys.pwd, had.connstr)
    ensures keys.connstr != None ==> SavedKeys(had, keys) == Keys(had.dsn, had.uid, had.pwd, keys.connstr)
  {
  }

  lemma LoadedAndConnected(w: World, c: Id, keys: Keys, src: Source)
    requires Resolves(w, c) && !w.dbc[c].connected
    ensures var x := w.dbc[c]; var v := LoadAndConnect(w, c, keys, src);
      && v.pool == w.pool && c in v.dbc
      && v.dbc[c] == Dbc(x.genv, if x.henv.Some? then x.dhdbc else Some(src.handle), v.dbc[c].henv, src.connects, x.cpPdbc,
                         x.cpInUse, src.timeout, x.cpExpiry, keys, x.attrs)
  {
  }

  lemma ConnectRefused(w: World, c: Id, keys: Keys, now: int, src: Source)
    requires Mine(w, c) && w.dbc[c].connected
    ensures Connect(w, c, keys, now, src) == w
  {
  }

  /** Loading a driver takes the environment's driver on that library if there is one, and a new one otherwise. */
  lemma LoadedDriver(w: World, c: Id, path: string, safe: bool, timeout: int, envId: Id, handle: Handle)
    requires Good(w) && Mine(w, c) && w.dbc[c].henv.None? && envId !in w.env
    ensures var v := DriverLoad(w, c, path, safe, timeout, envId, handle); var x := v.dbc[c];
      && x.henv.Some? && x.henv.value in v.env && x.dhdbc == Some(handle) && x.cpTimeout == timeout
      && v.env[x.henv.value].hdll == path && v.env[x.henv.value].genv == w.dbc[c].genv
      && (x.henv.value == envId <==> forall e <- w.env :: w.env[e].genv == w.dbc[c].genv ==> w.env[e].hdll != path)
      && (x.henv.value == envId ==> v.drivers[w.dbc[c].genv] == [envId] + w.drivers[w.dbc[c].genv] && v.env[envId].refcount == 1)
      && (x.henv.value != envId ==>
            x.henv.value in w.env && v.drivers == w.drivers && v.env[x.henv.value].refcount == w.env[x.henv.value].refcount + 1)
  {
    var g := w.dbc[c].genv;
    var envs := w.drivers[g];
    assert forall e <- envs :: e in EnvHome(w.env) && EnvHome(w.env)[e] == g;
    forall e <- w.env | w.env[e].genv == g ensures e in envs {
      assert e in EnvHome(w.env) && EnvHome(w.env)[e] == g;
    }
    FoundOrAbsent(w.env, envs, path);
  }

  lemma {:induction false} FoundOrAbsent(env: map<Id, Env>, envs: seq<Id>, path: string)
    ensures FindEnv(env, envs, path).None? <==> forall e <- envs :: e in env ==> env[e].hdll != path
  {
    if envs != [] {
      FoundOrAbsent(env, envs[1..], path);
      assert envs == [envs[0]] + envs[1..];
    }
  }

  // ---- Disconnecting ----

  /** A connection that came from the pool goes back to its entry; another goes to a new entry in front if pooling is on and
      its data source has a pool timeout. The entry takes the driver, the keys and the attributes over, is idle, and expires
      after its own timeout; the connection is left with nothing. */
  lemma DisconnectToPool(w: World, c: Id, now: int, newId: Id, disconnects: bool)
    requires Good(w) && Mine(w, c) && newId !in w.dbc && w.dbc[c].connected
    requires w.dbc[c].cpPdbc.Some? || (w.genv[w.dbc[c].genv].pooling && w.dbc[c].cpTimeout > 0)
    ensures w.dbc[c].cpPdbc.Some? ==> w.dbc[c].cpPdbc.value in w.dbc
    ensures var x := w.dbc[c];
      Disconnect(w, c, now, newId, disconnects) ==
        match x.cpPdbc
        case Some(d) => w.(dbc := w.dbc[c := Stripped(x)][d := Pooled(x, w.dbc[d].cpTimeout, now)])
        case None =>
          w.(dbc := w.dbc[c := Stripped(x)][newId := Pooled(x, x.cpTimeout, now)], inPool := w.inPool + {newId},
             pool := w.pool[x.genv := [newId] + w.pool[x.genv]])
  {
    DisconnectReady(w, c);
    if w.dbc[c].cpPdbc.Some? {
      PutIntoOld(w, c, w.dbc[c].cpPdbc.value, now, newId);
    } else {
      PutIntoNew(w, c, now, newId);
    }
  }

  // The record that the pool keeps of the connection x, and what is left of the connection.
  function Pooled(x: Dbc, timeout: int, now: int): Dbc {
    Dbc(x.genv, x.dhdbc, x.henv, true, None, false, timeout, now + timeout, x.keys, x.attrs)
  }

  function Stripped(x: Dbc): Dbc {
    Dbc(x.genv, None, None, false, None, x.cpInUse, x.cpTimeout, x.cpExpiry, Keys(None, None, None, None),
        x.attrs.(qualifier := None))
  }

  lemma PutIntoOld(w: World, c: Id, d: Id, now: int, newId: Id)
    requires Resolves(w, c) && w.dbc[c].cpPdbc == Some(d) && d in w.dbc && d != c && w.dbc[c].connected
    ensures Put(w, c, now, newId) ==
            w.(dbc := w.dbc[c := Stripped(w.dbc[c])][d := Pooled(w.dbc[c], w.dbc[d].cpTimeout, now)])
  {
  }

  lemma PutIntoNew(w: World, c: Id, now: int, newId: Id)
    requires Resolves(w, c) && w.dbc[c].cpPdbc == None && newId !in w.dbc && w.dbc[c].connected
    ensures var x := w.dbc[c];
      Put(w, c, now, newId) ==
      w.(dbc := w.dbc[c := Stripped(x)][newId := Pooled(x, x.cpTimeout, now)], inPool := w.inPool + {newId},
         pool := w.pool[x.genv := [newId] + w.pool[x.genv]])
  {
  }

  /** Any other connection stays the driver's until it agrees, keeps the driver even then, and leaves the pool alone. */
  lemma DisconnectOutside(w: World, c: Id, now: int, newId: Id, disconnects: bool)
    requires Good(w) && Mine(w, c) && newId !in w.dbc
    requires w.dbc[c].connected ==>
               w.dbc[c].cpPdbc.None? && !(w.genv[w.dbc[c].genv].pooling && w.dbc[c].cpTimeout > 0)
    ensures w.dbc[c].cpPdbc.Some? ==> w.dbc[c].cpPdbc.value in w.dbc
    ensures Disconnect(w, c, now, newId, disconnects) ==
            if disconnects then w.(dbc := w.dbc[c := w.dbc[c].(connected := false)]) else w
  {
    DisconnectReady(w, c);
    if !w.dbc[c].connected {
      assert w.dbc[c].(connected := false) == w.dbc[c] && w.dbc[c := w.dbc[c]] == w.dbc;
    }
  }

  // ---- New and freed records ----

  lemma NewConnection(w: World, g: Id, c: Id)
    requires g in w.app
    ensures var v := AllocConnect(w, g, c);
      && v.app == w.app[g := [c] + w.app[g]]
      && v.dbc == w.dbc[c := Dbc(g, None, None, false, None, false, 0, 0, Keys(None, None, None, None),
                                 Attrs(0, 1, None, 2, 0, 0, 1))]
  {
  }

  lemma NewEnvironment(w: World, g: Id, pooling: bool, strict: bool)
    ensures AllocEnv(w, g, pooling, strict) ==
            World(w.dbc, w.inPool, w.env, w.dll, w.genv[g := Genv(pooling, strict)], w.app[g := []], w.pool[g := []],
                  w.drivers[g := []])
  {
  }

  /** Freeing a connection takes the driver along if no other record uses it; everything else stays. A connected one
      just vanishes. */
  lemma FreedConnection(w: World, c: Id)
    requires Good(w) && Mine(w, c)
    ensures var x, v := w.dbc[c], SqlFreeConnect(w, c);
      && v.dbc == w.dbc - {c} && v.inPool == w.inPool && v.genv == w.genv && v.pool == w.pool
      && v.app == (if x.connected then w.app else w.app[x.genv := Without(w.app[x.genv], c)])
      && (x.connected || x.henv.None? ==> v.env == w.env && v.dll == w.dll && v.drivers == w.drivers)
      && (!x.connected && x.henv.Some? ==>
            var e := x.henv.value;
            && (Users(w.dbc, e) == {c} ==> v.env == w.env - {e} && v.drivers == w.drivers[x.genv := Without(w.drivers[x.genv], e)])
            && (Users(w.dbc, e) != {c} ==>
                  && v.env == w.env[e := w.env[e].(refcount := w.env[e].refcount - 1)]
                  && v.drivers == w.drivers && v.dll == w.dll))
  {
    var x := w.dbc[c];
    if !x.connected {
      FreedFields(w, c);
      assert w.inPool - {c} == w.inPool;
      assert AttachedWell(x, false, w.env);
      if x.henv.Some? {
        var e := x.henv.value;
        assert c in Users(w.dbc, e);
        OnlyUser(Users(w.dbc, e), c);
      }
    }
  }

  lemma OnlyUser(users: set<Id>, c: Id)
    requires c in users
    ensures |users| == 1 <==> users == {c}
  {
    if |users| == 1 {
      assert |users - {c}| == 0;
    }
  }

  // What draining the pool of g leaves alone: the records, drivers and lists of all other environments.
  predicate RecordsKept(a: map<Id, Dbc>, b: map<Id, Dbc>, g: Id) {
    (forall d <- a :: a[d].genv != g ==> d in b) && (forall d <- b :: d in a && b[d] == a[d])
  }

  predicate DriversKept(a: map<Id, Env>, b: map<Id, Env>, g: Id) {
    && (forall e <- a :: a[e].genv != g ==> e in b && b[e] == a[e])
    && (forall e <- b :: e in a && b[e].genv == a[e].genv)
  }

  predicate ListsKept(a: map<Id, seq<Id>>, b: map<Id, seq<Id>>, g: Id) {
    a.Keys == b.Keys && forall h <- a :: h != g ==> b[h] == a[h]
  }

  predicate OthersKept(w: World, v: World, g: Id) {
    && RecordsKept(w.dbc, v.dbc, g) && DriversKept(w.env, v.env, g)
    && v.app == w.app && v.genv == w.genv && ListsKept(w.pool, v.pool, g) && ListsKept(w.drivers, v.drivers, g)
  }

  lemma RecordsKeptTwice(a: map<Id, Dbc>, b: map<Id, Dbc>, c: map<Id, Dbc>, g: Id)
    requires RecordsKept(a, b, g) && RecordsKept(b, c, g)
    ensures RecordsKept(a, c, g)
  {
  }

  lemma DriversKeptTwice(a: map<Id, Env>, b: map<Id, Env>, c: map<Id, Env>, g: Id)
    requires DriversKept(a, b, g) && DriversKept(b, c, g)
    ensures DriversKept(a, c, g)
  {
  }

  lemma KeptTwice(w: World, v: World, u: World, g: Id)
    requires OthersKept(w, v, g) && OthersKept(v, u, g)
    ensures OthersKept(w, u, g)
  {
    RecordsKeptTwice(w.dbc, v.dbc, u.dbc, g);
    DriversKeptTwice(w.env, v.env, u.env, g);
  }

  lemma DriversWithoutOne(env: map<Id, Env>, drivers: map<Id, seq<Id>>, x: Dbc, g: Id)
    requires x.henv.Some? && x.henv.value in env ==> env[x.henv.value].genv == g
    ensures DriversKept(env, EnvWithout(env, x), g) && ListsKept(drivers, DriversWithout(drivers, env, x), g)
  {
  }

  // The entries of the pool of g belong to it, and so do their drivers.
  predicate OwnPool(w: World, g: Id)
    requires g in w.pool
  {
    Distinct(w.pool[g]) &&
    forall d <- w.pool[g] ::
      && d in w.dbc && w.dbc[d].genv == g
      && (w.dbc[d].henv.Some? && w.dbc[d].henv.value in w.env ==> w.env[w.dbc[d].henv.value].genv == g)
  }

  lemma OwnHead(w: World, g: Id)
    requires g in w.pool && OwnPool(w, g) && w.pool[g] != []
    ensures var v := PoolDrop(w, w.pool[g][0], true);
      OthersKept(w, v, g) && v.pool[g] == w.pool[g][1..] && OwnPool(v, g)
  {
    var d := w.pool[g][0];
    DistinctTail(w.pool[g]);
    assert Without(w.pool[g], d) == w.pool[g][1..];
    DriversWithoutOne(w.env, w.drivers, w.dbc[d], g);
  }

  lemma {:induction false} DrainKeepsOthers(w: World, g: Id, n: nat)
    requires g in w.pool && n == |w.pool[g]| && OwnPool(w, g)
    ensures OthersKept(w, Drain(w, g, n), g)
    decreases n
  {
    if n > 0 {
      var v := PoolDrop(w, w.pool[g][0], true);
      var u := Drain(v, g, n - 1);
      assert Drain(w, g, n) == u by {
        DrainStep(w, g, n);
      }
      OwnHead(w, g);
      assert g in v.pool && n - 1 == |v.pool[g]|;
      DrainKeepsOthers(v, g, n - 1);
      KeptTwice(w, v, u, g);
    }
  }

  lemma Drained(w: World, g: Id)
    requires Good(w) && g in w.app && w.app[g] == []
    ensures g in w.pool && OthersKept(w, Drain(w, g, |w.pool[g]|), g)
    ensures var v := Drain(w, g, |w.pool[g]|);
      && (forall d <- v.dbc :: v.dbc[d].genv != g) && (forall e <- v.env :: v.env[e].genv != g)
      && g in v.drivers && v.pool[g] == [] && v.drivers[g] == []
  {
    PoolEntries(w, g);
    assert forall d <- w.pool[g] :: AttachedWell(w.dbc[d], d in w.inPool, w.env);
    DrainKeepsOthers(w, g, |w.pool[g]|);
    DrainEmpties(w, g);
    DrainedLeavesNothing(Drain(w, g, |w.pool[g]|), g);
  }

  /** Freeing an environment without connections takes its pool entries and drivers, and nothing else. */
  lemma FreedEnvironment(w: World, g: Id)
    requires Good(w) && g in w.app && w.app[g] == []
    ensures g in w.pool
    ensures var v := SqlFreeEnv(w, g);
      && v.genv == w.genv - {g} && v.app == w.app - {g} && v.pool == w.pool - {g} && v.drivers == w.drivers - {g}
      && v.dbc == (map d | d in w.dbc && w.dbc[d].genv != g :: w.dbc[d])
      && v.env == (map e | e in w.env && w.env[e].genv != g :: w.env[e])
  {
    Drained(w, g);
    FreedIsDrained(w, Drain(w, g, |w.pool[g]|), g);
    FreedFrom(w, Drain(w, g, |w.pool[g]|), SqlFreeEnv(w, g), g);
  }

  lemma FreedIsDrained(w: World, v: World, g: Id)
    requires g in w.pool && g in w.app && w.app[g] == [] && v == Drain(w, g, |w.pool[g]|)
    ensures SqlFreeEnv(w, g) ==
            World(v.dbc, v.inPool, v.env, v.dll, v.genv - {g}, v.app - {g}, v.pool - {g}, v.drivers - {g})
  {
  }

  lemma ListsKeptWithout(a: map<Id, seq<Id>>, b: map<Id, seq<Id>>, g: Id)
    requires ListsKept(a, b, g)
    ensures b - {g} == a - {g}
  {
  }

  lemma FreedFrom(w: World, v: World, u: World, g: Id)
    requires OthersKept(w, v, g)
    requires (forall d <- v.dbc :: v.dbc[d].genv != g) && (forall e <- v.env :: v.env[e].genv != g)
    requires u == World(v.dbc, v.inPool, v.env, v.dll, v.genv - {g}, v.app - {g}, v.pool - {g}, v.drivers - {g})
    ensures u.genv == w.genv - {g} && u.app == w.app - {g} && u.pool == w.pool - {g} && u.drivers == w.drivers - {g}
    ensures u.dbc == (map d | d in w.dbc && w.dbc[d].genv != g :: w.dbc[d])
    ensures u.env == (map e | e in w.env && w.env[e].genv != g :: w.env[e])
  {
    OthersOnly(w.dbc, v.dbc, w.env, v.env, g);
    ListsKeptWithout(w.pool, v.pool, g);
    ListsKeptWithout(w.drivers, v.drivers, g);
  }

  lemma OthersOnly(a: map<Id, Dbc>, b: map<Id, Dbc>, s: map<Id, Env>, t: map<Id, Env>, g: Id)
    requires RecordsKept(a, b, g) && DriversKept(s, t, g)
    requires (forall d <- b :: b[d].genv != g) && (forall e <- t :: t[e].genv != g)
    ensures b == (map d | d in a && a[d].genv != g :: a[d])
    ensures t == (map e | e in s && s[e].genv != g :: s[e])
  {
  }

  lemma EnvironmentRefused(w: World, g: Id)
    requires g in w.pool && g in w.app && w.app[g] != []
    ensures SqlFreeEnv(w, g) ==
            World(w.dbc, w.inPool, w.env, w.dll, w.genv - {g}, w.app - {g}, w.pool - {g}, w.drivers - {g})
  {
  }

  /** A library leaves memory exactly when its last user gives it up and it is marked as safe to unload. */
  lemma LibraryClosed(dll: map<string, Dll>, path: string)
    requires path in dll && dll[path].loaded
    ensures var v := DllClose(dll, path);
      && v == dll[path := v[path]] && v[path].refcount == dll[path].refcount - 1 && v[path].safe == dll[path].safe
      && (v[path].loaded <==> dll[path].refcount != 1 || !dll[path].safe)
  {
  }

  lemma LibraryNotLoaded(dll: map<string, Dll>, path: string)
    requires path !in dll || !dll[path].loaded
    ensures DllClose(dll, path) == dll && SafeUnload(dll, path) == dll
  {
  }

  lemma LibraryOpened(dll: map<string, Dll>, path: string, safe: bool)
    ensures var v := DllAcquire(dll, path, safe);
      && v == dll[path := v[path]] && v[path].loaded
      && v[path].refcount == (if path in dll then dll[path].refcount else 0) + 1
      && (v[path].safe <==> safe || (path in dll && dll[path].safe))
  {
  }
}
