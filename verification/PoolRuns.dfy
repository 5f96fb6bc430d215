/** Whole runs of the connection calls. */
module PoolRuns {
  import opened Codes
  import opened Lists
  import opened PoolSpec
  import opened PoolInv
  import opened PoolLookup

  // ---- Connecting and disconnecting ----

  predicate CanLoad(w: World, c: Id, src: Source)
    requires Resolves(w, c)
  {
    && src.envId !in w.env && FreshHandle(w.dbc, src.handle)
    && (w.dbc[c].henv.Some? ==> w.env[w.dbc[c].henv.value].hdll == src.path)
  }

  lemma LoadedRecord(w: World, c: Id, src: Source)
    requires Resolves(w, c) && (w.dbc[c].dhdbc.Some? <==> w.dbc[c].henv.Some?)
    ensures var v := DriverLoad(w, c, src.path, src.safe, src.timeout, src.envId, src.handle);
            c in v.dbc && v.dbc[c].dhdbc.Some? && v.dbc[c].cpPdbc == w.dbc[c].cpPdbc
  {
  }

  lemma LoadAndConnectGood(w: World, c: Id, keys: Keys, src: Source)
    requires Good(w) && Resolves(w, c) && c !in w.inPool && !w.dbc[c].connected && CanLoad(w, c, src)
    ensures Good(LoadAndConnect(w, c, keys, src))
  {
    KeysGood(w, c, keys, src);
    var k := w.(dbc := w.dbc[c := w.dbc[c].(keys := keys)]);
    LoadedGood(k, c, src);
    if src.connects {
      ConnectedGood(DriverLoad(k, c, src.path, src.safe, src.timeout, src.envId, src.handle), c);
    }
  }

  lemma KeysGood(w: World, c: Id, keys: Keys, src: Source)
    requires Good(w) && Resolves(w, c) && c !in w.inPool && !w.dbc[c].connected && CanLoad(w, c, src)
    ensures var k := w.(dbc := w.dbc[c := w.dbc[c].(keys := keys)]);
            Good(k) && Resolves(k, c) && CanLoad(k, c, src)
  {
    assert HoldsWell(w.dbc, w.inPool, c);
    TweakGood(w, c, w.dbc[c].(keys := keys));
    KeysResolve(w, c, keys, src);
  }

  lemma KeysResolve(w: World, c: Id, keys: Keys, src: Source)
    requires Resolves(w, c) && CanLoad(w, c, src)
    ensures var k := w.(dbc := w.dbc[c := w.dbc[c].(keys := keys)]); Resolves(k, c) && CanLoad(k, c, src)
  {
  }

  lemma LoadedGood(w: World, c: Id, src: Source)
    requires Good(w) && Resolves(w, c) && c !in w.inPool && CanLoad(w, c, src)
    ensures var v := DriverLoad(w, c, src.path, src.safe, src.timeout, src.envId, src.handle);
            Good(v) && c in v.dbc && v.dbc[c].dhdbc.Some?
  {
    assert AttachedWell(w.dbc[c], false, w.env);
    DriverLoadGood(w, c, src.path, src.safe, src.timeout, src.envId, src.handle);
    LoadedRecord(w, c, src);
  }

  lemma ConnectedGood(w: World, c: Id)
    requires Good(w) && c in w.dbc && w.dbc[c].dhdbc.Some?
    ensures Good(SetConnected(w, c, true))
  {
    TweakGood(w, c, w.dbc[c].(connected := true));
  }

  /** A pooled lookup needs a connection without a driver of its own; only it decides whether the
      lookup keeps the store well formed. */
  lemma ScanGood(w: World, c: Id, keys: Keys, now: int)
    requires Good(w) && Resolves(w, c) && c !in w.inPool && !w.dbc[c].connected
    ensures var (v, found) := Scan(w, c, w.pool[w.dbc[c].genv], keys, now);
      && (Good(v) <==> found.None? || w.dbc[c].dhdbc.None?)
      && (found.None? ==> c in v.dbc && v.dbc[c] == w.dbc[c] && c !in v.inPool && Resolves(v, c)
                          && v.dbc.Keys <= w.dbc.Keys)
  {
    var g := w.dbc[c].genv; var ps := w.pool[g];
    LookupTakesFirstUsable(w, c, keys, now);
    var k := Passed(w, c, ps, keys, now);
    LookupSweeps(w, g, k, now);
    var u := PassAll(w, ps[..k], now);
    if k < |ps| {
      TakeGoodIffUnattached(u, c, ps[k]);
    } else {
      Resolved(u, c);
    }
  }

  // ---- Freeing an environment ----

  /** Once an environment has no connections left, every entry of its pool is idle. */
  lemma OrphanPoolIsIdle(w: World, g: Id)
    requires Good(w) && g in w.app && w.app[g] == []
    ensures g in w.pool && forall d <- w.pool[g] :: d in w.dbc && !w.dbc[d].cpInUse
  {
    PoolEntries(w, g);
    forall c <- w.dbc, d <- w.pool[g] ensures !Holds(w.dbc, c, d) {
      assert HoldsWell(w.dbc, w.inPool, c);
      assert c !in w.inPool ==> c in AppHome(w.dbc, w.inPool);
    }
  }

  // The entries of a pool, all idle.
  ghost predicate IdlePool(w: World, g: Id)
    requires g in w.pool
  {
    Distinct(w.pool[g]) &&
    forall d <- w.pool[g] :: d in w.dbc && d in w.inPool && w.dbc[d].genv == g && !w.dbc[d].cpInUse
  }

  lemma DropHead(w: World, g: Id)
    requires g in w.pool && IdlePool(w, g) && w.pool[g] != []
    ensures var v := PoolDrop(w, w.pool[g][0], true);
            v.pool == w.pool[g := w.pool[g][1..]] && IdlePool(v, g)
  {
    DistinctTail(w.pool[g]);
    assert Without(w.pool[g], w.pool[g][0]) == w.pool[g][1..];
  }

  lemma HeadGood(w: World, g: Id)
    requires Good(w) && g in w.pool && IdlePool(w, g) && w.pool[g] != []
    ensures Good(PoolDrop(w, w.pool[g][0], true))
  {
    Resolved(w, w.pool[g][0]);
    FreedGood(w, w.pool[g][0]);
  }

  /** Then the drain empties the pool in as many steps as it has entries, never meeting one in use. */
  lemma DrainEmpties(w: World, g: Id)
    requires Good(w) && g in w.app && w.app[g] == [] && g in w.pool
    ensures var v := Drain(w, g, |w.pool[g]|);
            Good(v) && g in v.pool && v.pool[g] == [] && v.app == w.app && v.genv == w.genv && v.pool.Keys == w.pool.Keys
  {
    PoolEntries(w, g);
    OrphanPoolIsIdle(w, g);
    DrainGood(w, g, |w.pool[g]|);
    DrainPool(w, g, |w.pool[g]|);
  }

  lemma {:induction false} DrainGood(w: World, g: Id, n: nat)
    requires Good(w) && g in w.pool && n == |w.pool[g]| && IdlePool(w, g)
    ensures Good(Drain(w, g, n))
    decreases n
  {
    if n > 0 {
      DropHead(w, g);
      DrainStep(w, g, n);
      HeadGood(w, g);
      DrainGood(PoolDrop(w, w.pool[g][0], true), g, n - 1);
    }
  }

  lemma {:induction false} DrainPool(w: World, g: Id, n: nat)
    requires g in w.pool && n == |w.pool[g]| && Entries(w.dbc, w.inPool, g, w.pool[g])
    ensures var v := Drain(w, g, n);
            g in v.pool && v.pool[g] == [] && v.app == w.app && v.genv == w.genv && v.pool.Keys == w.pool.Keys
    decreases n
  {
    if n > 0 {
      DrainStep(w, g, n);
      DistinctTail(w.pool[g]);
      assert Without(w.pool[g], w.pool[g][0]) == w.pool[g][1..];
      DrainPool(PoolDrop(w, w.pool[g][0], true), g, n - 1);
    }
  }

  lemma DrainStep(w: World, g: Id, n: nat)
    requires n > 0 && g in w.pool && w.pool[g] != [] && w.pool[g][0] in w.dbc && w.dbc[w.pool[g][0]].genv == g
    ensures Drain(w, g, n) == Drain(PoolDrop(w, w.pool[g][0], true), g, n - 1)
  {
  }

  /** After which no record of the environment is left, and no driver. */
  lemma DrainedLeavesNothing(v: World, g: Id)
    requires Good(v) && g in v.app && v.app[g] == [] && g in v.pool && v.pool[g] == []
    ensures g in v.drivers && v.drivers[g] == []
    ensures forall d <- v.dbc :: v.dbc[d].genv != g
    ensures forall e <- v.env :: v.env[e].genv != g
  {
    forall d <- v.dbc ensures v.dbc[d].genv != g {
      assert d in AppHome(v.dbc, v.inPool) || d in PoolHome(v.dbc, v.inPool);
    }
    forall e <- v.env ensures v.env[e].genv != g {
      var c :| c in Users(v.dbc, e);
      assert AttachedWell(v.dbc[c], c in v.inPool, v.env);
    }
    FiledNowhere(v.drivers, EnvHome(v.env), g);
  }

  lemma FiledNowhere(lists: map<Id, seq<Id>>, home: map<Id, Id>, g: Id)
    requires Filed(lists, home) && g in lists && forall x <- home :: home[x] != g
    ensures lists[g] == []
  {
    assert forall x :: x in lists[g] ==> x in home;
    HasElement(lists[g]);
  }

  lemma HasElement<T>(s: seq<T>)
    ensures s == [] || exists x :: x in s
  {
    assert s == [] || s[0] in s;
  }

  lemma FiledNew(lists: map<Id, seq<Id>>, home: map<Id, Id>, g: Id)
    requires Filed(lists, home) && g !in lists
    ensures Filed(lists[g := []], home)
  {
  }

  lemma FiledDrop(lists: map<Id, seq<Id>>, home: map<Id, Id>, g: Id)
    requires Filed(lists, home) && g in lists && lists[g] == []
    ensures Filed(lists - {g}, home)
  {
  }

  lemma FreeEnvGood(w: World, g: Id)
    requires Good(w) && g in w.app && w.app[g] == []
    ensures g in w.pool && Good(FreeEnv(w, g)) && g !in FreeEnv(w, g).genv
  {
    var v := Drain(w, g, |w.pool[g]|);
    DrainEmpties(w, g);
    DrainedLeavesNothing(v, g);
    FiledDrop(v.app, AppHome(v.dbc, v.inPool), g);
    FiledDrop(v.pool, PoolHome(v.dbc, v.inPool), g);
    FiledDrop(v.drivers, EnvHome(v.env), g);
  }

  lemma AllocEnvGood(w: World, g: Id, pooling: bool, strict: bool)
    requires Good(w) && g !in w.genv
    ensures Good(AllocEnv(w, g, pooling, strict))
  {
    FiledNew(w.app, AppHome(w.dbc, w.inPool), g);
    FiledNew(w.pool, PoolHome(w.dbc, w.inPool), g);
    FiledNew(w.drivers, EnvHome(w.env), g);
  }

  // ---- Runs ----

  datatype Event =
    | NewEnv(g: Id, pooling: bool, strict: bool)
    | NewConnection(g: Id, c: Id)
    | Connecting(c: Id, keys: Keys, now: int, src: Source)
    | Disconnecting(c: Id, now: int, newId: Id, disconnects: bool)
    | DropConnection(c: Id)
    | DropEnv(g: Id)

  // An application names its own handles; a pool entry is not one.
  predicate Mine(w: World, c: Id) {
    c in w.dbc && c !in w.inPool && Resolves(w, c)
  }

  function Step(w: World, e: Event): World {
    match e
    case NewEnv(g, pooling, strict) => AllocEnv(w, g, pooling, strict)
    case NewConnection(g, c) => if g in w.app then AllocConnect(w, g, c) else w
    case Connecting(c, keys, now, src) => if Mine(w, c) then Connect(w, c, keys, now, src) else w
    case Disconnecting(c, now, newId, disconnects) =>
      if Mine(w, c) && (w.dbc[c].cpPdbc.Some? ==> w.dbc[c].cpPdbc.value in w.dbc)
      then Disconnect(w, c, now, newId, disconnects) else w
    case DropConnection(c) => if Mine(w, c) then SqlFreeConnect(w, c) else w
    case DropEnv(g) => if g in w.app && g in w.pool then SqlFreeEnv(w, g) else w
  }

  /** What the allocator, the driver and the application owe: new addresses and handles are new, a
      connection keeps to one driver, a lookup that succeeds is for a connection without one, and what is
      freed is a connection that is not connected or an environment without connections. */
  predicate Fair(w: World, e: Event) {
    match e
    case NewEnv(g, _, _) => g !in w.genv
    case NewConnection(_, c) => c !in w.dbc
    case Disconnecting(_, _, newId, _) => newId !in w.dbc
    case Connecting(c, keys, now, src) =>
      Mine(w, c) && !w.dbc[c].connected ==>
        if !w.genv[w.dbc[c].genv].pooling then CanLoad(w, c, src)
        else
          var (v, found) := Scan(w, c, w.pool[w.dbc[c].genv], keys, now);
          if found.Some? then w.dbc[c].dhdbc.None? else Resolves(v, c) ==> CanLoad(v, c, src)
    case DropConnection(c) => Mine(w, c) ==> !w.dbc[c].connected
    case DropEnv(g) => g in w.app ==> w.app[g] == []
  }

  lemma ConnectGood(w: World, c: Id, keys: Keys, now: int, src: Source)
    requires Good(w) && Mine(w, c) && Fair(w, Connecting(c, keys, now, src))
    ensures Good(Connect(w, c, keys, now, src))
  {
    if !w.dbc[c].connected {
      if !w.genv[w.dbc[c].genv].pooling {
        LoadAndConnectGood(w, c, w.dbc[c].keys, src);
      } else {
        var (v, found) := Scan(w, c, w.pool[w.dbc[c].genv], keys, now);
        ScanGood(w, c, keys, now);
        if found.None? {
          LoadAndConnectGood(v, c, SavedKeys(v.dbc[c].keys, keys), src);
        }
      }
    }
  }

  // The store knows what a disconnect needs.
  lemma DisconnectReady(w: World, c: Id)
    requires Good(w) && Mine(w, c)
    ensures Resolves(w, c)
    ensures w.dbc[c].cpPdbc.Some? ==> w.dbc[c].cpPdbc.value in w.dbc && w.dbc[c].cpPdbc.value != c
  {
    assert HoldsWell(w.dbc, w.inPool, c) && AttachedWell(w.dbc[c], false, w.env);
  }

  lemma DisconnectGood(w: World, c: Id, now: int, newId: Id, disconnects: bool)
    requires Good(w) && Mine(w, c) && newId !in w.dbc
    ensures w.dbc[c].cpPdbc.Some? ==> w.dbc[c].cpPdbc.value in w.dbc
    ensures Good(Disconnect(w, c, now, newId, disconnects))
  {
    assert HoldsWell(w.dbc, w.inPool, c) && AttachedWell(w.dbc[c], false, w.env);
    if w.dbc[c].connected {
      if GoesToPool(w, c) {
        PutGood(w, c, now, newId);
      } else if disconnects {
        TweakGood(w, c, w.dbc[c].(connected := false));
      }
    }
  }

  /** Freeing a connection keeps the store well formed exactly if it is not connected. */
  lemma FreeConnectGoodIff(w: World, c: Id)
    requires Good(w) && Mine(w, c)
    ensures Good(SqlFreeConnect(w, c)) <==> !w.dbc[c].connected
  {
    if w.dbc[c].connected {
      ReleasedIsLinked(w, c);
    } else {
      assert w.dbc[c].cpInUse ==> c in w.inPool;
      FreedGood(w, c);
    }
  }

  lemma ReleasedIsLinked(w: World, c: Id)
    requires Linked(w) && Mine(w, c)
    ensures !Linked(w.(dbc := w.dbc - {c}))
  {
    var v := w.(dbc := w.dbc - {c});
    var g := w.dbc[c].genv;
    assert c in AppHome(w.dbc, w.inPool) && c in w.app[g];
    assert c !in AppHome(v.dbc, v.inPool) && c in v.app[g];
  }

  /** Freeing an environment keeps it well formed exactly if it has no connections. */
  lemma FreeEnvGoodIff(w: World, g: Id)
    requires Good(w) && g in w.app && g in w.pool
    ensures Good(SqlFreeEnv(w, g)) <==> w.app[g] == []
  {
    if w.app[g] == [] {
      FreeEnvGood(w, g);
    } else {
      var c := w.app[g][0];
      var v := SqlFreeEnv(w, g);
      assert c in w.app[g] && c in AppHome(w.dbc, w.inPool) && AppHome(w.dbc, w.inPool)[c] == g;
      assert AppHome(v.dbc, v.inPool) == AppHome(w.dbc, w.inPool) && g !in v.app;
    }
  }

  lemma StepGood(w: World, e: Event)
    requires Good(w) && Fair(w, e)
    ensures Good(Step(w, e))
  {
    match e
    case NewEnv(g, pooling, strict) => AllocEnvGood(w, g, pooling, strict);
    case NewConnection(g, c) =>
      if g in w.app {
        AllocConnectGood(w, g, c);
      }
    case Connecting(c, keys, now, src) =>
      if Mine(w, c) {
        ConnectGood(w, c, keys, now, src);
      }
    case Disconnecting(c, now, newId, disconnects) =>
      if Mine(w, c) {
        DisconnectGood(w, c, now, newId, disconnects);
      }
    case DropConnection(c) =>
      if Mine(w, c) {
        FreeConnectGoodIff(w, c);
      }
    case DropEnv(g) =>
      if g in w.app && g in w.pool {
        FreeEnvGoodIff(w, g);
      }
  }

  function Run(es: seq<Event>): World {
    if es == [] then NOTHING else Step(Run(es[..|es| - 1]), es[|es| - 1])
  }

  ghost predicate FairRun(es: seq<Event>) {
    forall i: nat :: i < |es| ==> Fair(Run(es[..i]), es[i])
  }

  /** In every state that connection calls can reach, handles are owned by one record each, drivers and
      libraries are counted exactly, and pool entries are in use exactly while one connection holds
      them. */
  lemma {:induction false} EveryRunIsGood(es: seq<Event>)
    requires FairRun(es)
    ensures Good(Run(es))
  {
    if es == [] {
      NothingGood();
    } else {
      var before := es[..|es| - 1];
      forall i: nat | i < |before| ensures Fair(Run(before[..i]), before[i]) {
        assert before[..i] == es[..i];
      }
      EveryRunIsGood(before);
      StepGood(Run(before), es[|es| - 1]);
    }
  }

  lemma NothingGood()
    ensures Good(NOTHING)
  {
    assert forall path: string :: Loads(map[], path) == {};
  }

  /** A library that is not in memory is used by no driver environment, and so by no connection. */
  lemma ClosedLibraryIsUnused(w: World, path: string)
    requires Good(w) && path in w.dll && !w.dll[path].loaded
    ensures w.dll[path].refcount == 0
    ensures forall d <- w.dbc :: w.dbc[d].henv.Some? ==>
              w.dbc[d].henv.value in w.env && w.env[w.dbc[d].henv.value].hdll != path
  {
    assert Count(w.dll, path) == |Loads(w.env, path)|;
    assert Loads(w.env, path) == {};
    forall d <- w.dbc | w.dbc[d].henv.Some? ensures w.dbc[d].henv.value in w.env {
      assert AttachedWell(w.dbc[d], d in w.inPool, w.env);
    }
  }
}
