/** Every operation on connections keeps the store well formed. */
module PoolInv {
  import opened Codes
  import opened Lists
  import opened PoolSpec

  // ---- Lists ----

  lemma FileFirst(lists: map<Id, seq<Id>>, home: map<Id, Id>, x: Id, g: Id)
    requires Filed(lists, home) && x !in home && g in lists
    ensures Filed(lists[g := [x] + lists[g]], home[x := g])
  {
    DistinctCons(x, lists[g]);
  }

  lemma Unfile(lists: map<Id, seq<Id>>, home: map<Id, Id>, x: Id)
    requires Filed(lists, home) && x in home
    ensures Filed(lists[home[x] := Without(lists[home[x]], x)], home - {x})
  {
    WithoutMembers(lists[home[x]], x);
  }

  // ---- Counting ----

  lemma UsersSet(dbc: map<Id, Dbc>, c: Id, x: Dbc, e: Id)
    ensures Users(dbc[c := x], e) ==
            if Attached(x, e) then Users(dbc, e) + {c} else Users(dbc, e) - {c}
  {
  }

  lemma UsersDrop(dbc: map<Id, Dbc>, d: Id, e: Id)
    ensures Users(dbc - {d}, e) == Users(dbc, e) - {d}
  {
  }

  lemma LoadsSet(env: map<Id, Env>, e: Id, x: Env, path: string)
    ensures Loads(env[e := x], path) ==
            if x.hdll == path then Loads(env, path) + {e} else Loads(env, path) - {e}
  {
  }

  lemma LoadsDrop(env: map<Id, Env>, e: Id, path: string)
    ensures Loads(env - {e}, path) == Loads(env, path) - {e}
  {
  }

  // ---- Discarding a record ----

  lemma CountedWithout(dbc: map<Id, Dbc>, env: map<Id, Env>, d: Id)
    requires Counted(dbc, env) && d in dbc && (dbc[d].henv.Some? ==> dbc[d].henv.value in env)
    ensures Counted(dbc - {d}, EnvWithout(env, dbc[d]))
  {
    var v := EnvWithout(env, dbc[d]);
    forall e <- v ensures v[e].refcount == |Users(dbc - {d}, e)| > 0 {
      UsersDrop(dbc, d, e);
      if Attached(dbc[d], e) {
        assert d in Users(dbc, e);
      } else {
        assert Users(dbc, e) - {d} == Users(dbc, e);
      }
    }
  }

  lemma AttachesWithout(dbc: map<Id, Dbc>, inPool: set<Id>, env: map<Id, Env>, d: Id)
    requires Attaches(dbc, inPool, env) && Counted(dbc, env) && d in dbc
    ensures Attaches(dbc - {d}, inPool - {d}, EnvWithout(env, dbc[d]))
  {
    var v := EnvWithout(env, dbc[d]);
    forall c <- dbc - {d} | dbc[c].henv.Some? ensures dbc[c].henv.value in v {
      assert AttachedWell(dbc[c], c in inPool, env);
      var e := dbc[c].henv.value;
      if Attached(dbc[d], e) {
        assert {c, d} <= Users(dbc, e);
        assert |Users(dbc, e) - {c, d}| + |{c, d}| == |Users(dbc, e)|;
      }
    }
  }

  lemma LibrariesWithout(env: map<Id, Env>, dll: map<string, Dll>, x: Dbc)
    requires Libraries(env, dll)
    ensures Libraries(EnvWithout(env, x), DllWithout(dll, env, x))
  {
    forall path: string
      ensures Count(DllWithout(dll, env, x), path) == |Loads(EnvWithout(env, x), path)|
    {
      LibraryCountWithout(env, dll, x, path);
    }
    if x.henv.Some? && x.henv.value in env {
      LibraryOfTwo(env, dll, x.henv.value);
    }
  }

  // A library that another driver environment still uses is not closed down to zero.
  lemma LibraryOfTwo(env: map<Id, Env>, dll: map<string, Dll>, e: Id)
    requires Libraries(env, dll) && e in env
    ensures forall f <- env :: f != e && env[f].hdll == env[e].hdll ==> dll[env[e].hdll].refcount > 1
  {
    forall f <- env | f != e && env[f].hdll == env[e].hdll ensures dll[env[e].hdll].refcount > 1 {
      var s := Loads(env, env[e].hdll);
      assert {e, f} <= s;
      assert |s - {e, f}| + |{e, f}| == |s|;
      assert Count(dll, env[e].hdll) == |s|;
    }
  }

  lemma LibraryCountWithout(env: map<Id, Env>, dll: map<string, Dll>, x: Dbc, path: string)
    requires Libraries(env, dll)
    ensures Count(DllWithout(dll, env, x), path) == |Loads(EnvWithout(env, x), path)|
  {
    assert Count(dll, path) == |Loads(env, path)|;
    if x.henv.Some? && x.dhdbc.Some? && x.henv.value in env {
      var e := x.henv.value;
      if env[e].refcount == 1 {
        LibraryCountClosed(env, dll, e, path);
      } else {
        LoadsSame(env, e, env[e].(refcount := env[e].refcount - 1), path);
      }
    }
  }

  lemma LoadsSame(env: map<Id, Env>, e: Id, x: Env, path: string)
    requires e in env && x.hdll == env[e].hdll
    ensures Loads(env[e := x], path) == Loads(env, path)
  {
    assert forall f :: f in Loads(env[e := x], path) <==> f in Loads(env, path);
  }

  lemma LibraryCountClosed(env: map<Id, Env>, dll: map<string, Dll>, e: Id, path: string)
    requires e in env && env[e].hdll in dll && dll[env[e].hdll].loaded && Count(dll, path) == |Loads(env, path)|
    ensures Count(DllClose(dll, env[e].hdll), path) == |Loads(env - {e}, path)|
  {
    LoadsDrop(env, e, path);
    if env[e].hdll == path {
      assert e in Loads(env, path);
    } else {
      assert Loads(env, path) - {e} == Loads(env, path);
    }
  }

  lemma ExclusiveWithout(dbc: map<Id, Dbc>, inPool: set<Id>, d: Id)
    requires Exclusive(dbc, inPool) && d in dbc
    requires !dbc[d].cpInUse && (d in inPool || !dbc[d].connected)
    ensures Exclusive(dbc - {d}, inPool - {d})
  {
    var v := dbc - {d};
    assert HoldsWell(dbc, inPool, d) && dbc[d].cpPdbc.None?;
    forall c <- v ensures HoldsWell(v, inPool - {d}, c) {
      assert HoldsWell(dbc, inPool, c);
    }
    forall p <- v | v[p].cpInUse ensures exists c :: Holds(v, c, p) {
      var c :| Holds(dbc, c, p);
      assert Holds(v, c, p);
    }
  }

  lemma DriversFiled(drivers: map<Id, seq<Id>>, env: map<Id, Env>, x: Dbc)
    requires Filed(drivers, EnvHome(env))
    ensures Filed(DriversWithout(drivers, env, x), EnvHome(EnvWithout(env, x)))
  {
    if x.henv.Some? && x.dhdbc.Some? && x.henv.value in env {
      var e := x.henv.value;
      assert e in EnvHome(env);
      if env[e].refcount == 1 {
        Unfile(drivers, EnvHome(env), e);
        assert EnvHome(env - {e}) == EnvHome(env) - {e};
      } else {
        assert EnvHome(EnvWithout(env, x)) == EnvHome(env);
      }
    }
  }

  lemma HomesWithout(dbc: map<Id, Dbc>, inPool: set<Id>, d: Id)
    requires d in dbc && inPool <= dbc.Keys
    ensures AppHome(dbc - {d}, inPool - {d}) == AppHome(dbc, inPool) - {d}
    ensures PoolHome(dbc - {d}, inPool - {d}) == PoolHome(dbc, inPool) - {d}
  {
  }

  lemma Resolved(w: World, d: Id)
    requires Linked(w) && Attaches(w.dbc, w.inPool, w.env) && d in w.dbc
    ensures Resolves(w, d)
    ensures d in w.inPool ==> d in w.pool[w.dbc[d].genv]
    ensures d !in w.inPool ==> d in w.app[w.dbc[d].genv]
  {
    assert AttachedWell(w.dbc[d], d in w.inPool, w.env);
    if d in w.inPool {
      assert d in PoolHome(w.dbc, w.inPool);
    } else {
      assert d in AppHome(w.dbc, w.inPool);
    }
    if w.dbc[d].henv.Some? {
      assert w.dbc[d].henv.value in EnvHome(w.env);
    }
  }

  lemma ListsWithout(w: World, d: Id)
    requires Linked(w) && d in w.dbc && w.dbc[d].genv in w.app && w.dbc[d].genv in w.pool
    ensures var g := w.dbc[d].genv;
            Filed(if d in w.inPool then w.app else w.app[g := Without(w.app[g], d)],
                  AppHome(w.dbc - {d}, w.inPool - {d})) &&
            Filed(if d in w.inPool then w.pool[g := Without(w.pool[g], d)] else w.pool,
                  PoolHome(w.dbc - {d}, w.inPool - {d}))
  {
    HomesWithout(w.dbc, w.inPool, d);
    if d in w.inPool {
      Unfile(w.pool, PoolHome(w.dbc, w.inPool), d);
      assert AppHome(w.dbc, w.inPool) - {d} == AppHome(w.dbc, w.inPool);
    } else {
      Unfile(w.app, AppHome(w.dbc, w.inPool), d);
      assert PoolHome(w.dbc, w.inPool) - {d} == PoolHome(w.dbc, w.inPool);
    }
  }

  function Freed(w: World, d: Id): World
    requires Resolves(w, d)
  {
    if d in w.inPool then PoolDrop(w, d, true) else FreeConnect(w, d)
  }

  lemma FreedLinked(w: World, d: Id)
    requires Linked(w) && Resolves(w, d)
    ensures Linked(Freed(w, d))
  {
    var v, x, g := Freed(w, d), w.dbc[d], w.dbc[d].genv;
    FreedFields(w, d);
    assert Filed(v.app, AppHome(v.dbc, v.inPool)) && Filed(v.pool, PoolHome(v.dbc, v.inPool)) by {
      ListsWithout(w, d);
    }
    assert Filed(v.drivers, EnvHome(v.env)) by {
      DriversFiled(w.drivers, w.env, x);
    }
    assert v.app.Keys == w.app.Keys && v.pool.Keys == w.pool.Keys && v.drivers.Keys == w.drivers.Keys;
  }

  lemma FreedFields(w: World, d: Id)
    requires Resolves(w, d)
    ensures var v, x, g := Freed(w, d), w.dbc[d], w.dbc[d].genv;
      && v.dbc == w.dbc - {d} && v.inPool == w.inPool - {d} && v.genv == w.genv
      && v.env == EnvWithout(w.env, x) && v.drivers == DriversWithout(w.drivers, w.env, x)
      && v.dll == DllWithout(w.dll, w.env, x)
      && v.app == (if d in w.inPool then w.app else w.app[g := Without(w.app[g], d)])
      && v.pool == (if d in w.inPool then w.pool[g := Without(w.pool[g], d)] else w.pool)
  {
  }

  /** Freeing an application's connection, or dropping an idle pool entry whose driver disconnects. */
  lemma FreedGood(w: World, d: Id)
    requires Good(w) && Resolves(w, d)
    requires !w.dbc[d].cpInUse && (d in w.inPool || !w.dbc[d].connected)
    ensures Good(Freed(w, d))
  {
    FreedLinked(w, d);
    FreedFields(w, d);
    CountedWithout(w.dbc, w.env, d);
    AttachesWithout(w.dbc, w.inPool, w.env, d);
    LibrariesWithout(w.env, w.dll, w.dbc[d]);
    ExclusiveWithout(w.dbc, w.inPool, d);
  }

  /** Dropping an entry keeps the store well formed exactly when the driver disconnects: otherwise the
      count of its driver stays one too high for good. */
  lemma PoolDropGoodIffDisconnects(w: World, d: Id, disconnects: bool)
    requires Good(w) && Resolves(w, d) && d in w.inPool && !w.dbc[d].cpInUse
    ensures Good(PoolDrop(w, d, disconnects)) <==> disconnects
  {
    if disconnects {
      FreedGood(w, d);
    } else {
      assert AttachedWell(w.dbc[d], true, w.env);
      var e := w.dbc[d].henv.value;
      var v := PoolDrop(w, d, false);
      UsersDrop(w.dbc, d, e);
      assert d in Users(w.dbc, e);
      assert v.env[e].refcount == |Users(w.dbc, e)| == |Users(v.dbc, e)| + 1;
    }
  }

  // ---- Changing one record ----

  lemma HomesSet(dbc: map<Id, Dbc>, inPool: set<Id>, c: Id, y: Dbc)
    ensures AppHome(dbc[c := y], inPool) ==
            if c in inPool then AppHome(dbc, inPool) else AppHome(dbc, inPool)[c := y.genv]
    ensures PoolHome(dbc[c := y], inPool) ==
            if c in inPool then PoolHome(dbc, inPool)[c := y.genv] else PoolHome(dbc, inPool)
    ensures PoolHome(dbc[c := y], inPool + {c}) == PoolHome(dbc, inPool)[c := y.genv]
  {
  }

  lemma EnvHomeSet(env: map<Id, Env>, e: Id, z: Env)
    ensures EnvHome(env[e := z]) == EnvHome(env)[e := z.genv]
  {
  }

  lemma LinkedUpdate(w: World, c: Id, y: Dbc)
    requires Linked(w) && c in w.dbc && y.genv == w.dbc[c].genv
    ensures Linked(w.(dbc := w.dbc[c := y]))
  {
    HomesSet(w.dbc, w.inPool, c, y);
    assert c !in w.inPool ==> AppHome(w.dbc, w.inPool)[c := y.genv] == AppHome(w.dbc, w.inPool);
    assert c in w.inPool ==> PoolHome(w.dbc, w.inPool)[c := y.genv] == PoolHome(w.dbc, w.inPool);
  }

  lemma CountedUpdate(dbc: map<Id, Dbc>, env: map<Id, Env>, c: Id, y: Dbc)
    requires Counted(dbc, env)
    requires if c in dbc then y.dhdbc == dbc[c].dhdbc && y.henv == dbc[c].henv else y.dhdbc.None?
    ensures Counted(dbc[c := y], env)
  {
    forall e ensures Users(dbc[c := y], e) == Users(dbc, e) {
    }
  }

  lemma AttachesUpdate(dbc: map<Id, Dbc>, inPool: set<Id>, env: map<Id, Env>, c: Id, y: Dbc)
    requires Attaches(dbc, inPool, env) && AttachedWell(y, c in inPool, env)
    ensures Attaches(dbc[c := y], inPool, env)
  {
  }

  lemma OwnedUpdate(dbc: map<Id, Dbc>, c: Id, y: Dbc)
    requires Owned(dbc)
    requires y.dhdbc.Some? ==> forall d <- dbc :: d != c ==> dbc[d].dhdbc != y.dhdbc
    ensures Owned(dbc[c := y])
  {
  }

  predicate SameHoldings(x: Dbc, y: Dbc) {
    y.genv == x.genv && y.cpPdbc == x.cpPdbc && y.cpInUse == x.cpInUse
  }

  lemma ExclusiveUpdate(dbc: map<Id, Dbc>, inPool: set<Id>, c: Id, y: Dbc)
    requires Exclusive(dbc, inPool) && c in dbc && SameHoldings(dbc[c], y)
    requires y.cpPdbc.Some? ==> y.connected
    ensures Exclusive(dbc[c := y], inPool)
  {
    var v := dbc[c := y];
    forall b <- v ensures HoldsWell(v, inPool, b) {
      assert HoldsWell(dbc, inPool, b);
    }
    forall d <- v | v[d].cpInUse ensures exists b :: Holds(v, b, d) {
      var b :| Holds(dbc, b, d);
      assert Holds(v, b, d);
    }
  }

  /** A connection changes in nothing that the lists, the counts and the pool depend on. */
  lemma TweakGood(w: World, c: Id, y: Dbc)
    requires Good(w) && c in w.dbc && SameHoldings(w.dbc[c], y)
    requires y.dhdbc == w.dbc[c].dhdbc && y.henv == w.dbc[c].henv
    requires c !in w.inPool && y.connected ==> y.dhdbc.Some?
    requires y.cpPdbc.Some? ==> y.connected
    ensures Good(w.(dbc := w.dbc[c := y]))
  {
    assert AttachedWell(w.dbc[c], c in w.inPool, w.env);
    LinkedUpdate(w, c, y);
    CountedUpdate(w.dbc, w.env, c, y);
    AttachesUpdate(w.dbc, w.inPool, w.env, c, y);
    OwnedUpdate(w.dbc, c, y);
    ExclusiveUpdate(w.dbc, w.inPool, c, y);
  }

  // ---- A new connection handle ----

  lemma ExclusiveNew(dbc: map<Id, Dbc>, inPool: set<Id>, c: Id, y: Dbc)
    requires Exclusive(dbc, inPool) && c !in dbc && y.cpPdbc.None? && !y.cpInUse
    ensures Exclusive(dbc[c := y], inPool)
  {
    var v := dbc[c := y];
    forall b <- v ensures HoldsWell(v, inPool, b) {
      assert b != c ==> HoldsWell(dbc, inPool, b);
    }
    forall d <- v | v[d].cpInUse ensures exists b :: Holds(v, b, d) {
      var b :| Holds(dbc, b, d);
      assert Holds(v, b, d);
    }
  }

  lemma AllocConnectLinked(w: World, g: Id, c: Id)
    requires Linked(w) && g in w.app && c !in w.dbc
    ensures Linked(AllocConnect(w, g, c))
  {
    FileFirst(w.app, AppHome(w.dbc, w.inPool), c, g);
    HomesSet(w.dbc, w.inPool, c, NewDbc(g));
  }

  lemma AllocConnectGood(w: World, g: Id, c: Id)
    requires Good(w) && g in w.app && c !in w.dbc
    ensures Good(AllocConnect(w, g, c))
  {
    AllocConnectLinked(w, g, c);
    CountedUpdate(w.dbc, w.env, c, NewDbc(g));
    AttachesUpdate(w.dbc, w.inPool, w.env, c, NewDbc(g));
    OwnedUpdate(w.dbc, c, NewDbc(g));
    ExclusiveNew(w.dbc, w.inPool, c, NewDbc(g));
  }

  // ---- Loading a driver ----

  predicate FreshHandle(dbc: map<Id, Dbc>, handle: Handle) {
    forall d <- dbc :: dbc[d].dhdbc != Some(handle)
  }

  // One more user, of a driver that now counts one more (or exists now).
  lemma CountedAttach(dbc: map<Id, Dbc>, env: map<Id, Env>, c: Id, y: Dbc, e: Id, z: Env)
    requires Counted(dbc, env) && c in dbc && dbc[c].dhdbc.None? && Attached(y, e)
    requires if e in env then z.refcount == env[e].refcount + 1 else z.refcount == 1 && Users(dbc, e) == {}
    ensures Counted(dbc[c := y], env[e := z])
  {
    var next := env[e := z];
    forall f <- next ensures next[f].refcount == |Users(dbc[c := y], f)| > 0 {
      UsersAttach(dbc, c, y, e, f);
    }
  }

  lemma UsersAttach(dbc: map<Id, Dbc>, c: Id, y: Dbc, e: Id, f: Id)
    requires c in dbc && dbc[c].dhdbc.None? && Attached(y, e)
    ensures |Users(dbc[c := y], f)| == |Users(dbc, f)| + if f == e then 1 else 0
  {
    UsersSet(dbc, c, y, f);
    assert c !in Users(dbc, f);
    if f != e {
      assert Users(dbc, f) - {c} == Users(dbc, f);
    }
  }

  lemma LibrariesReacquire(env: map<Id, Env>, dll: map<string, Dll>, path: string, safe: bool, e: Id)
    requires Libraries(env, dll) && e in env && env[e].hdll == path
    ensures Libraries(env, DllClose(DllAcquire(dll, path, safe), path))
  {
    assert e in Loads(env, path);
    assert Count(dll, path) == |Loads(env, path)| > 0;
    var next := DllClose(DllAcquire(dll, path, safe), path);
    assert forall p: string :: Count(next, p) == Count(dll, p);
  }

  lemma LibrariesRecount(env: map<Id, Env>, dll: map<string, Dll>, e: Id, n: int)
    requires Libraries(env, dll) && e in env
    ensures Libraries(env[e := env[e].(refcount := n)], dll)
  {
    forall p: string ensures Loads(env[e := env[e].(refcount := n)], p) == Loads(env, p) {
    }
  }

  lemma LibrariesAcquire(env: map<Id, Env>, dll: map<string, Dll>, path: string, safe: bool, e: Id, z: Env)
    requires Libraries(env, dll) && e !in env && z.hdll == path
    requires forall f <- env :: env[f].genv == z.genv ==> env[f].hdll != path
    ensures Libraries(env[e := z], DllAcquire(dll, path, safe))
  {
    forall p: string ensures Count(DllAcquire(dll, path, safe), p) == |Loads(env[e := z], p)| {
      assert Count(dll, p) == |Loads(env, p)|;
      LibraryCountAcquired(env, dll, path, safe, e, z, p);
    }
  }

  lemma LibraryCountAcquired(
      env: map<Id, Env>, dll: map<string, Dll>, path: string, safe: bool, e: Id, z: Env, p: string)
    requires e !in env && z.hdll == path && Count(dll, p) == |Loads(env, p)|
    ensures Count(DllAcquire(dll, path, safe), p) == |Loads(env[e := z], p)|
  {
    CountAcquired(dll, path, safe, p);
    LoadsSet(env, e, z, p);
    assert e !in Loads(env, p);
    if p != path {
      assert Loads(env, p) - {e} == Loads(env, p);
    }
  }

  lemma CountAcquired(dll: map<string, Dll>, path: string, safe: bool, p: string)
    ensures Count(DllAcquire(dll, path, safe), p) == Count(dll, p) + if p == path then 1 else 0
  {
    assert Count(DllOpen(dll, path), p) == Count(dll, p) + if p == path then 1 else 0;
  }

  lemma AttachesEnv(dbc: map<Id, Dbc>, inPool: set<Id>, env: map<Id, Env>, e: Id, z: Env)
    requires Attaches(dbc, inPool, env) && (e in env ==> env[e].genv == z.genv)
    ensures Attaches(dbc, inPool, env[e := z])
    ensures e !in env ==> Users(dbc, e) == {}
  {
    forall d <- dbc ensures AttachedWell(dbc[d], d in inPool, env[e := z]) && (e !in env ==> !Attached(dbc[d], e)) {
      assert AttachedWell(dbc[d], d in inPool, env);
    }
  }

  // A connection and a driver environment come together.
  lemma AttachGood(w: World, c: Id, e: Id, z: Env, y: Dbc, dll: map<string, Dll>, drivers: map<Id, seq<Id>>)
    requires Good(w) && c in w.dbc && c !in w.inPool && w.dbc[c].dhdbc.None?
    requires SameHoldings(w.dbc[c], y) && y.connected == w.dbc[c].connected
    requires y.dhdbc.Some? && FreshHandle(w.dbc, y.dhdbc.value) && y.henv == Some(e)
    requires z.genv == w.dbc[c].genv && (e in w.env ==> w.env[e].genv == z.genv)
    requires if e in w.env then z.refcount == w.env[e].refcount + 1 else z.refcount == 1
    requires Libraries(w.env[e := z], dll)
    requires Filed(drivers, EnvHome(w.env[e := z])) && drivers.Keys == w.drivers.Keys
    ensures Good(w.(dbc := w.dbc[c := y], env := w.env[e := z], dll := dll, drivers := drivers))
  {
    assert HoldsWell(w.dbc, w.inPool, c) && AttachedWell(w.dbc[c], false, w.env);
    LinkedUpdate(w, c, y);
    ExclusiveUpdate(w.dbc, w.inPool, c, y);
    OwnedUpdate(w.dbc, c, y);
    AttachesEnv(w.dbc, w.inPool, w.env, e, z);
    AttachesUpdate(w.dbc, w.inPool, w.env[e := z], c, y);
    CountedAttach(w.dbc, w.env, c, y, e, z);
  }

  lemma DriverLoadGood(w: World, c: Id, path: string, safe: bool, timeout: int, envId: Id, handle: Handle)
    requires Good(w) && Resolves(w, c) && c !in w.inPool
    requires envId !in w.env && FreshHandle(w.dbc, handle)
    // one driver per connection handle
    requires w.dbc[c].henv.Some? ==> w.env[w.dbc[c].henv.value].hdll == path
    ensures Good(DriverLoad(w, c, path, safe, timeout, envId, handle))
  {
    var x := w.dbc[c];
    assert AttachedWell(x, false, w.env) && HoldsWell(w.dbc, w.inPool, c);
    if x.henv.Some? {
      ReloadGood(w, c, path, safe, x.(cpTimeout := timeout));
    } else {
      match FindEnv(w.env, w.drivers[x.genv], path)
      case Some(e) => LoadFoundGood(w, c, path, safe, e, x.(henv := Some(e), dhdbc := Some(handle), cpTimeout := timeout));
      case None => LoadNewGood(w, c, path, safe, envId, x.(henv := Some(envId), dhdbc := Some(handle), cpTimeout := timeout));
    }
  }

  lemma ReloadGood(w: World, c: Id, path: string, safe: bool, y: Dbc)
    requires Good(w) && c in w.dbc && y == w.dbc[c].(cpTimeout := y.cpTimeout)
    requires y.henv.Some? && y.henv.value in w.env && w.env[y.henv.value].hdll == path
    ensures Good(w.(dll := DllClose(DllAcquire(w.dll, path, safe), path), dbc := w.dbc[c := y]))
  {
    LibrariesReacquire(w.env, w.dll, path, safe, y.henv.value);
    TweakGood(w, c, y);
  }

  lemma LoadFoundGood(w: World, c: Id, path: string, safe: bool, e: Id, y: Dbc)
    requires Good(w) && c in w.dbc && c !in w.inPool && w.dbc[c].dhdbc.None?
    requires w.dbc[c].genv in w.drivers && e in w.drivers[w.dbc[c].genv] && e in w.env && w.env[e].hdll == path
    requires SameHoldings(w.dbc[c], y) && y.connected == w.dbc[c].connected
    requires y.dhdbc.Some? && FreshHandle(w.dbc, y.dhdbc.value) && y.henv == Some(e)
    ensures Good(w.(dll := DllClose(DllAcquire(w.dll, path, safe), path),
                    env := w.env[e := w.env[e].(refcount := w.env[e].refcount + 1)],
                    dbc := w.dbc[c := y]))
  {
    var z := w.env[e].(refcount := w.env[e].refcount + 1);
    var dll := DllClose(DllAcquire(w.dll, path, safe), path);
    LibrariesReacquire(w.env, w.dll, path, safe, e);
    LibrariesRecount(w.env, dll, e, z.refcount);
    EnvHomeSet(w.env, e, z);
    assert EnvHome(w.env[e := z]) == EnvHome(w.env);
    assert e in EnvHome(w.env) && EnvHome(w.env)[e] == w.dbc[c].genv;
    AttachGood(w, c, e, z, y, dll, w.drivers);
  }

  lemma LoadNewGood(w: World, c: Id, path: string, safe: bool, e: Id, y: Dbc)
    requires Good(w) && c in w.dbc && c !in w.inPool && w.dbc[c].dhdbc.None?
    requires e !in w.env && w.dbc[c].genv in w.drivers
    requires forall f <- w.drivers[w.dbc[c].genv] :: f in w.env ==> w.env[f].hdll != path
    requires SameHoldings(w.dbc[c], y) && y.connected == w.dbc[c].connected
    requires y.dhdbc.Some? && FreshHandle(w.dbc, y.dhdbc.value) && y.henv == Some(e)
    ensures var g := w.dbc[c].genv;
            Good(w.(dll := DllAcquire(w.dll, path, safe),
                    env := w.env[e := Env(g, path, 1)],
                    drivers := w.drivers[g := [e] + w.drivers[g]],
                    dbc := w.dbc[c := y]))
  {
    var g := w.dbc[c].genv;
    var z := Env(g, path, 1);
    forall f <- w.env | w.env[f].genv == g ensures w.env[f].hdll != path {
      assert f in EnvHome(w.env);
    }
    LibrariesAcquire(w.env, w.dll, path, safe, e, z);
    NewDriverFiled(w.drivers, w.env, e, z);
    AttachGood(w, c, e, z, y, DllAcquire(w.dll, path, safe), w.drivers[g := [e] + w.drivers[g]]);
  }

  lemma NewDriverFiled(drivers: map<Id, seq<Id>>, env: map<Id, Env>, e: Id, z: Env)
    requires Filed(drivers, EnvHome(env)) && e !in env && z.genv in drivers
    ensures Filed(drivers[z.genv := [e] + drivers[z.genv]], EnvHome(env[e := z]))
  {
    FileFirst(drivers, EnvHome(env), e, z.genv);
    EnvHomeSet(env, e, z);
  }

  // ---- Moving a driver handle between a connection and its pool entry ----

  // from hands its driver to into; who is who in the pool does not matter to the counts.
  predicate HandsOver(dbc: map<Id, Dbc>, from: Id, x: Dbc, into: Id, y: Dbc) {
    && from in dbc && into != from && (into in dbc ==> dbc[into].dhdbc.None?)
    && x.dhdbc.None? && x.henv.None? && y.dhdbc == dbc[from].dhdbc && y.henv == dbc[from].henv
  }

  lemma CountedHandOver(dbc: map<Id, Dbc>, env: map<Id, Env>, from: Id, x: Dbc, into: Id, y: Dbc)
    requires Counted(dbc, env) && HandsOver(dbc, from, x, into, y)
    ensures Counted(dbc[from := x][into := y], env)
  {
    var v := dbc[from := x];
    forall e <- env ensures |Users(v[into := y], e)| == |Users(dbc, e)| {
      UsersSet(dbc, from, x, e);
      UsersSet(v, into, y, e);
      if Attached(dbc[from], e) {
        assert from in Users(dbc, e) && into !in Users(dbc, e);
      } else {
        assert Users(dbc, e) - {from} == Users(dbc, e);
        assert Users(dbc, e) - {into} == Users(dbc, e);
      }
    }
  }

  lemma OwnedHandOver(dbc: map<Id, Dbc>, from: Id, x: Dbc, into: Id, y: Dbc)
    requires Owned(dbc) && HandsOver(dbc, from, x, into, y)
    ensures Owned(dbc[from := x][into := y])
  {
  }

  lemma TakeParts(w: World, c: Id, d: Id)
    requires c in w.dbc && d in w.dbc && c != d
    ensures var q := w.dbc[d].(attrs := ResetAttrs(w.dbc[c].attrs, w.dbc[d].attrs));
            Take(w, c, d) ==
            w.(dbc := w.dbc[d := MovedOut(q).(cpInUse := true)]
                           [c := Moved(q, w.dbc[c]).(cpPdbc := Some(d), connected := true)])
  {
  }

  lemma ExclusiveTake(dbc: map<Id, Dbc>, inPool: set<Id>, d: Id, x: Dbc, c: Id, y: Dbc)
    requires Exclusive(dbc, inPool) && c in dbc && d in dbc && c !in inPool && d in inPool
    requires !dbc[c].connected && !dbc[d].cpInUse && dbc[c].genv == dbc[d].genv
    requires x.cpInUse && x.cpPdbc == dbc[d].cpPdbc && x.genv == dbc[d].genv
    requires !y.cpInUse && y.cpPdbc == Some(d) && y.connected && y.genv == dbc[c].genv
    ensures Exclusive(dbc[d := x][c := y], inPool)
  {
    var v := dbc[d := x][c := y];
    forall b <- v ensures HoldsWell(v, inPool, b) && (b != c ==> v[b].cpPdbc != Some(d)) {
      HoldsTake(dbc, inPool, d, x, c, y, b);
    }
    forall p <- v | v[p].cpInUse ensures p in inPool && exists b :: Holds(v, b, p) {
      if p == d {
        assert Holds(v, c, d);
      } else {
        var b :| Holds(dbc, b, p);
        HoldsTake(dbc, inPool, d, x, c, y, b);
        assert Holds(v, b, p);
      }
    }
  }

  lemma HoldsTake(dbc: map<Id, Dbc>, inPool: set<Id>, d: Id, x: Dbc, c: Id, y: Dbc, b: Id)
    requires Exclusive(dbc, inPool) && c in dbc && d in dbc && c !in inPool && d in inPool && b in dbc
    requires !dbc[c].connected && !dbc[d].cpInUse && dbc[c].genv == dbc[d].genv
    requires x.cpInUse && x.cpPdbc == dbc[d].cpPdbc && x.genv == dbc[d].genv
    requires !y.cpInUse && y.cpPdbc == Some(d) && y.connected && y.genv == dbc[c].genv
    ensures var v := dbc[d := x][c := y];
      HoldsWell(v, inPool, b) && (b != c ==> v[b].cpPdbc != Some(d) && v[b].cpPdbc == dbc[b].cpPdbc)
    ensures dbc[c].cpPdbc.None?
  {
    assert HoldsWell(dbc, inPool, c) && HoldsWell(dbc, inPool, d) && HoldsWell(dbc, inPool, b);
  }

  predicate CanTake(w: World, c: Id, d: Id) {
    && c in w.dbc && c !in w.inPool && !w.dbc[c].connected
    && d in w.dbc && d in w.inPool && !w.dbc[d].cpInUse && w.dbc[c].genv == w.dbc[d].genv
  }

  /** Taking an idle entry out of the pool keeps the store well formed exactly when the connection has no
      driver of its own yet: the record it had is overwritten, and its driver handle with it. */
  lemma TakeGoodIffUnattached(w: World, c: Id, d: Id)
    requires Good(w) && CanTake(w, c, d)
    ensures Good(Take(w, c, d)) <==> w.dbc[c].dhdbc.None?
  {
    TakeParts(w, c, d);
    if w.dbc[c].dhdbc.None? {
      TakeGood(w, c, d);
    } else {
      TakeLoses(w, c, d);
    }
  }

  lemma TakeGood(w: World, c: Id, d: Id)
    requires Good(w) && CanTake(w, c, d) && w.dbc[c].dhdbc.None?
    ensures Good(Take(w, c, d))
  {
    TakeParts(w, c, d);
    var q := w.dbc[d].(attrs := ResetAttrs(w.dbc[c].attrs, w.dbc[d].attrs));
    var x := MovedOut(q).(cpInUse := true);
    var y := Moved(q, w.dbc[c]).(cpPdbc := Some(d), connected := true);
    assert AttachedWell(w.dbc[c], false, w.env) && AttachedWell(w.dbc[d], true, w.env);
    LinkedUpdate(w, d, x);
    LinkedUpdate(w.(dbc := w.dbc[d := x]), c, y);
    CountedHandOver(w.dbc, w.env, d, x, c, y);
    OwnedHandOver(w.dbc, d, x, c, y);
    AttachesUpdate(w.dbc, w.inPool, w.env, d, x);
    AttachesUpdate(w.dbc[d := x], w.inPool, w.env, c, y);
    ExclusiveTake(w.dbc, w.inPool, d, x, c, y);
  }

  lemma TakeLoses(w: World, c: Id, d: Id)
    requires Good(w) && CanTake(w, c, d) && w.dbc[c].dhdbc.Some?
    ensures !Counted(Take(w, c, d).dbc, w.env)
  {
    TakeParts(w, c, d);
    assert AttachedWell(w.dbc[c], false, w.env);
    var q := w.dbc[d].(attrs := ResetAttrs(w.dbc[c].attrs, w.dbc[d].attrs));
    UsersLost(w.dbc, w.dbc[c].henv.value, d, MovedOut(q).(cpInUse := true), c,
              Moved(q, w.dbc[c]).(cpPdbc := Some(d), connected := true));
  }

  // Overwriting an attached connection with another record leaves its driver one user short.
  lemma UsersLost(dbc: map<Id, Dbc>, e: Id, d: Id, x: Dbc, c: Id, y: Dbc)
    requires c in dbc && d in dbc && c != d && Attached(dbc[c], e)
    requires x.dhdbc.None? && y.dhdbc == dbc[d].dhdbc && y.henv == dbc[d].henv
    ensures |Users(dbc[d := x][c := y], e)| < |Users(dbc, e)|
  {
    UsersSet(dbc, d, x, e);
    UsersSet(dbc[d := x], c, y, e);
    assert c in Users(dbc, e);
    if Attached(dbc[d], e) {
      assert d in Users(dbc, e);
      assert Users(dbc[d := x][c := y], e) == Users(dbc, e) - {d};
    } else {
      assert Users(dbc[d := x][c := y], e) == Users(dbc, e) - {c};
    }
  }

  // ---- Back into the pool ----

  lemma ExclusivePut(dbc: map<Id, Dbc>, inPool: set<Id>, c: Id, x: Dbc, d: Id, y: Dbc)
    requires Exclusive(dbc, inPool) && c in dbc && c !in inPool && c != d
    requires if d in dbc then dbc[c].cpPdbc == Some(d) else dbc[c].cpPdbc.None?
    requires x.cpPdbc.None? && !x.cpInUse && x.genv == dbc[c].genv
    requires y.cpPdbc.None? && !y.cpInUse && y.genv == dbc[c].genv
    ensures Exclusive(dbc[c := x][d := y], inPool + {d})
  {
    var v := dbc[c := x][d := y];
    assert HoldsWell(dbc, inPool, c);
    assert d in dbc ==> HoldsWell(dbc, inPool, d);
    forall b <- v ensures HoldsWell(v, inPool + {d}, b) {
      if b != c && b != d {
        assert HoldsWell(dbc, inPool, b) && dbc[b].cpPdbc != Some(d);
      }
    }
    forall p <- v | v[p].cpInUse ensures exists b :: Holds(v, b, p) {
      var b :| Holds(dbc, b, p);
      assert b != c && b != d;
      assert Holds(v, b, p);
    }
  }

  predicate CanPut(w: World, c: Id, newId: Id) {
    && c in w.dbc && c !in w.inPool && w.dbc[c].connected && newId !in w.dbc
  }

  lemma PutNewHomes(dbc: map<Id, Dbc>, inPool: set<Id>, d: Id, y: Dbc)
    requires d !in dbc
    ensures PoolHome(dbc[d := y], inPool + {d}) == PoolHome(dbc, inPool)[d := y.genv]
    ensures AppHome(dbc[d := y], inPool + {d}) == AppHome(dbc, inPool)
  {
  }

  lemma NewInPoolLinked(w: World, d: Id, y: Dbc)
    requires Linked(w) && d !in w.dbc && y.genv in w.pool
    ensures Linked(w.(dbc := w.dbc[d := y], inPool := w.inPool + {d},
                      pool := w.pool[y.genv := [d] + w.pool[y.genv]]))
  {
    PutNewHomes(w.dbc, w.inPool, d, y);
    FileFirst(w.pool, PoolHome(w.dbc, w.inPool), d, y.genv);
  }

  lemma PutNewLinked(w: World, c: Id, x: Dbc, d: Id, y: Dbc)
    requires Linked(w) && c in w.dbc && d !in w.dbc && x.genv == y.genv == w.dbc[c].genv && y.genv in w.pool
    ensures Linked(w.(dbc := w.dbc[c := x][d := y], inPool := w.inPool + {d},
                      pool := w.pool[y.genv := [d] + w.pool[y.genv]]))
  {
    LinkedUpdate(w, c, x);
    NewInPoolLinked(w.(dbc := w.dbc[c := x]), d, y);
  }

  lemma PutGood(w: World, c: Id, now: int, newId: Id)
    requires Good(w) && CanPut(w, c, newId) && Resolves(w, c)
    ensures w.dbc[c].cpPdbc.Some? ==> w.dbc[c].cpPdbc.value in w.dbc
    ensures Good(Put(w, c, now, newId))
  {
    var x0 := w.dbc[c];
    assert HoldsWell(w.dbc, w.inPool, c) && AttachedWell(x0, false, w.env);
    var d := if x0.cpPdbc.Some? then x0.cpPdbc.value else newId;
    var v := Put(w, c, now, newId);
    var x, y := v.dbc[c], v.dbc[d];
    if x0.cpPdbc.Some? {
      assert AttachedWell(w.dbc[d], true, w.env);
      LinkedUpdate(w, c, x);
      LinkedUpdate(w.(dbc := w.dbc[c := x]), d, y);
      assert w.inPool + {d} == w.inPool;
    } else {
      PutNewLinked(w, c, x, d, y);
    }
    PutParts(w, c, x, d, y);
  }

  lemma PutParts(w: World, c: Id, x: Dbc, d: Id, y: Dbc)
    requires Good(w) && c in w.dbc && c !in w.inPool && c != d && !w.dbc[c].cpInUse && w.dbc[c].dhdbc.Some?
    requires if d in w.dbc then w.dbc[c].cpPdbc == Some(d) && w.dbc[d].dhdbc.None? else w.dbc[c].cpPdbc.None?
    requires x == MovedOut(w.dbc[c]).(cpPdbc := None, connected := false)
    requires y.cpPdbc.None? && !y.cpInUse && y.genv == w.dbc[c].genv
    requires y.dhdbc == w.dbc[c].dhdbc && y.henv == w.dbc[c].henv
    ensures var v := w.dbc[c := x][d := y];
      && Counted(v, w.env) && Owned(v)
      && Attaches(v, w.inPool + {d}, w.env) && Exclusive(v, w.inPool + {d})
  {
    CountedHandOver(w.dbc, w.env, c, x, d, y);
    OwnedHandOver(w.dbc, c, x, d, y);
    ExclusivePut(w.dbc, w.inPool, c, x, d, y);
    var v := w.dbc[c := x][d := y];
    forall b <- v ensures AttachedWell(v[b], b in w.inPool + {d}, w.env) {
      assert AttachedWell(w.dbc[c], false, w.env);
      assert b in w.dbc ==> AttachedWell(w.dbc[b], b in w.inPool, w.env);
    }
  }
}
