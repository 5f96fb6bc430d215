/** Connections, driver environments, shared libraries and the connection pool as records in a store;
    an Id is the address of a record. Moving a connection into or out of the pool copies its record. */
module PoolSpec {
  import opened Codes
  import opened Lists

  type Id = nat
  type Handle = nat    // a driver's connection handle

  datatype Keys = Keys(
    dsn: Option<string>, uid: Option<string>, pwd: Option<string>, connstr: Option<string>)

  const NO_KEYS: Keys := Keys(None, None, None, None)

  datatype Attrs = Attrs(
    accessMode: nat, autocommit: nat, qualifier: Option<string>, odbcCursors: nat,
    packetSize: nat, quietMode: nat, txnIsolation: nat)

  // SQL_MODE_READ_WRITE, SQL_AUTOCOMMIT_ON, SQL_CUR_USE_DRIVER, SQL_TXN_READ_UNCOMMITTED
  const DEFAULT_ATTRS: Attrs := Attrs(0, 1, None, 2, 0, 0, 1)

  // DBC_t
  datatype Dbc = Dbc(
    genv: Id, dhdbc: Option<Handle>, henv: Option<Id>, connected: bool,
    cpPdbc: Option<Id>, cpInUse: bool, cpTimeout: int, cpExpiry: int, keys: Keys, attrs: Attrs)

  // ENV_t: a driver loaded into an environment
  datatype Env = Env(genv: Id, hdll: string, refcount: int)

  // dlproc_t: loaded says that dll is not null
  datatype Dll = Dll(refcount: int, loaded: bool, safe: bool)

  // GENV_t: what is fixed about an environment
  datatype Genv = Genv(pooling: bool, strict: bool)

  // The records, the ids of those in a pool, and each environment's three lists, newest first.
  datatype World = World(
    dbc: map<Id, Dbc>, inPool: set<Id>, env: map<Id, Env>, dll: map<string, Dll>,
    genv: map<Id, Genv>, app: map<Id, seq<Id>>, pool: map<Id, seq<Id>>, drivers: map<Id, seq<Id>>)

  const NOTHING: World := World(map[], {}, map[], map[], map[], map[], map[], map[])

  // ---- Well-formed stores ----

  /** The lists hold exactly the records that name them as home, each once. */
  ghost predicate Filed(lists: map<Id, seq<Id>>, home: map<Id, Id>) {
    && (forall g <- lists :: Distinct(lists[g]))
    && (forall g, x :: g in lists && x in lists[g] ==> x in home && home[x] == g)
    && (forall x <- home :: home[x] in lists && x in lists[home[x]])
  }

  function AppHome(dbc: map<Id, Dbc>, inPool: set<Id>): map<Id, Id> {
    map d | d in dbc && d !in inPool :: dbc[d].genv
  }

  function PoolHome(dbc: map<Id, Dbc>, inPool: set<Id>): map<Id, Id> {
    map d | d in dbc && d in inPool :: dbc[d].genv
  }

  function EnvHome(env: map<Id, Env>): map<Id, Id> {
    map e | e in env :: env[e].genv
  }

  ghost predicate Linked(w: World) {
    && w.inPool <= w.dbc.Keys
    && w.app.Keys == w.pool.Keys == w.drivers.Keys == w.genv.Keys
    && Filed(w.app, AppHome(w.dbc, w.inPool))
    && Filed(w.pool, PoolHome(w.dbc, w.inPool))
    && Filed(w.drivers, EnvHome(w.env))
  }

  predicate Attached(c: Dbc, e: Id) {
    c.dhdbc.Some? && c.henv == Some(e)
  }

  function Users(dbc: map<Id, Dbc>, e: Id): set<Id> {
    set d | d in dbc && Attached(dbc[d], e)
  }

  /** A connection has a driver handle exactly when it names a driver of its own environment; a pool
      entry has one exactly while it is idle, an application's connection while it is connected. */
  predicate AttachedWell(c: Dbc, pooled: bool, env: map<Id, Env>) {
    && (c.dhdbc.Some? <==> c.henv.Some?)
    && (c.henv.Some? ==> c.henv.value in env && env[c.henv.value].genv == c.genv)
    && (pooled ==> (c.dhdbc.Some? <==> !c.cpInUse))
    && (!pooled && c.connected ==> c.dhdbc.Some?)
  }

  ghost predicate Attaches(dbc: map<Id, Dbc>, inPool: set<Id>, env: map<Id, Env>) {
    forall d <- dbc :: AttachedWell(dbc[d], d in inPool, env)
  }

  /** A driver environment lives as long as some connection is attached to it, and counts them. */
  ghost predicate Counted(dbc: map<Id, Dbc>, env: map<Id, Env>) {
    forall e <- env :: env[e].refcount == |Users(dbc, e)| > 0
  }

  /** No driver handle is held by two records. */
  ghost predicate Owned(dbc: map<Id, Dbc>) {
    forall c <- dbc, d <- dbc :: c != d && dbc[c].dhdbc.Some? ==> dbc[c].dhdbc != dbc[d].dhdbc
  }

  function Loads(env: map<Id, Env>, path: string): set<Id> {
    set e | e in env && env[e].hdll == path
  }

  function Count(dll: map<string, Dll>, path: string): int {
    if path in dll then dll[path].refcount else 0
  }

  /** A library is counted once per driver environment on it, over all environments, and is in memory
      while there is one; no environment loads a library twice. */
  ghost predicate Libraries(env: map<Id, Env>, dll: map<string, Dll>) {
    && (forall path: string :: Count(dll, path) == |Loads(env, path)|)
    && (forall e <- env :: env[e].hdll in dll && dll[env[e].hdll].loaded)
    && (forall e <- env, f <- env :: e != f && env[e].genv == env[f].genv ==> env[e].hdll != env[f].hdll)
  }

  predicate Holds(dbc: map<Id, Dbc>, c: Id, d: Id) {
    c in dbc && dbc[c].cpPdbc == Some(d)
  }

  // An entry is held only by a connected application connection of its environment.
  predicate HoldsWell(dbc: map<Id, Dbc>, inPool: set<Id>, c: Id)
    requires c in dbc
  {
    dbc[c].cpPdbc.Some? ==>
      var d := dbc[c].cpPdbc.value;
      && c !in inPool && dbc[c].connected
      && d in dbc && d in inPool && dbc[d].genv == dbc[c].genv && dbc[d].cpInUse
  }

  /** A pool entry is in use exactly when one connected application connection holds it. */
  ghost predicate Exclusive(dbc: map<Id, Dbc>, inPool: set<Id>) {
    && (forall c <- dbc :: HoldsWell(dbc, inPool, c))
    && (forall c <- dbc, d <- dbc :: c != d && dbc[c].cpPdbc.Some? ==> dbc[c].cpPdbc != dbc[d].cpPdbc)
    && (forall d <- dbc :: dbc[d].cpInUse ==> d in inPool && exists c :: Holds(dbc, c, d))
  }

  ghost predicate Good(w: World) {
    && Linked(w) && Attaches(w.dbc, w.inPool, w.env) && Counted(w.dbc, w.env) && Owned(w.dbc)
    && Libraries(w.env, w.dll) && Exclusive(w.dbc, w.inPool)
  }

  // ---- Shared libraries ----

  function DllOpen(dll: map<string, Dll>, path: string): map<string, Dll> {
    if path in dll then dll[path := dll[path].(refcount := dll[path].refcount + 1, loaded := true)]
    else dll[path := Dll(1, true, false)]
  }

  // A library is found by its handle, so only while it is in memory.
  function DllClose(dll: map<string, Dll>, path: string): map<string, Dll> {
    if path !in dll || !dll[path].loaded then dll
    else
      var n := dll[path].refcount - 1;
      dll[path := dll[path].(refcount := n, loaded := !(n == 0 && dll[path].safe))]
  }

  function SafeUnload(dll: map<string, Dll>, path: string): map<string, Dll> {
    if path in dll && dll[path].loaded then dll[path := dll[path].(safe := true)] else dll
  }

  function DllAcquire(dll: map<string, Dll>, path: string, safe: bool): map<string, Dll> {
    if safe then SafeUnload(DllOpen(dll, path), path) else DllOpen(dll, path)
  }

  // ---- Attaching and detaching drivers ----

  // The store knows the record c, its environment and its driver.
  predicate Resolves(w: World, c: Id) {
    && c in w.dbc
    && w.dbc[c].genv in w.genv && w.app.Keys == w.pool.Keys == w.drivers.Keys == w.genv.Keys
    && (w.dbc[c].henv.Some? ==> w.dbc[c].henv.value in w.env && w.env[w.dbc[c].henv.value].genv in w.drivers)
  }

  function FindEnv(env: map<Id, Env>, envs: seq<Id>, path: string): (r: Option<Id>)
    ensures r.Some? ==> r.value in envs && r.value in env && env[r.value].hdll == path
    ensures r.None? ==> forall e <- envs :: e in env ==> env[e].hdll != path
  {
    if envs == [] then None
    else if envs[0] in env && env[envs[0]].hdll == path then Some(envs[0])
    else FindEnv(env, envs[1..], path)
  }

  /** _iodbcdm_driverload where the driver cooperates: envId and handle are what the allocator and the
      driver hand out. A connection that has its driver already keeps it. */
  function DriverLoad(w: World, c: Id, path: string, safe: bool, timeout: int, envId: Id, handle: Handle): World
    requires Resolves(w, c)
  {
    var x := w.dbc[c];
    var dll := DllAcquire(w.dll, path, safe);
    var envs := w.drivers[x.genv];
    if x.henv.Some? then
      w.(dll := DllClose(dll, path), dbc := w.dbc[c := x.(cpTimeout := timeout)])
    else match FindEnv(w.env, envs, path)
      case Some(e) =>
        w.(dll := DllClose(dll, path),
           env := w.env[e := w.env[e].(refcount := w.env[e].refcount + 1)],
           dbc := w.dbc[c := x.(henv := Some(e), dhdbc := Some(handle), cpTimeout := timeout)])
      case None =>
        w.(dll := dll,
           env := w.env[envId := Env(x.genv, path, 1)],
           drivers := w.drivers[x.genv := [envId] + envs],
           dbc := w.dbc[c := x.(henv := Some(envId), dhdbc := Some(handle), cpTimeout := timeout)])
  }

  // The last user of a driver takes it along; any other leaves one fewer.
  function EnvWithout(env: map<Id, Env>, x: Dbc): map<Id, Env> {
    if x.henv.None? || x.dhdbc.None? || x.henv.value !in env then env
    else
      var e := x.henv.value;
      if env[e].refcount == 1 then env - {e} else env[e := env[e].(refcount := env[e].refcount - 1)]
  }

  function DllWithout(dll: map<string, Dll>, env: map<Id, Env>, x: Dbc): map<string, Dll> {
    if x.henv.Some? && x.dhdbc.Some? && x.henv.value in env && env[x.henv.value].refcount == 1
    then DllClose(dll, env[x.henv.value].hdll) else dll
  }

  function DriversWithout(drivers: map<Id, seq<Id>>, env: map<Id, Env>, x: Dbc): map<Id, seq<Id>> {
    if x.henv.Some? && x.dhdbc.Some? && x.henv.value in env && env[x.henv.value].refcount == 1 &&
       env[x.henv.value].genv in drivers
    then drivers[env[x.henv.value].genv := Without(drivers[env[x.henv.value].genv], x.henv.value)]
    else drivers
  }

  /** _iodbcdm_driverunload, and the release of the record. */
  function Discard(w: World, d: Id): World
    requires d in w.dbc
  {
    var x := w.dbc[d];
    w.(dbc := w.dbc - {d}, inPool := w.inPool - {d}, env := EnvWithout(w.env, x),
       dll := DllWithout(w.dll, w.env, x), drivers := DriversWithout(w.drivers, w.env, x))
  }

  // ---- Connections ----

  // A new connection handle: no driver, default attributes.
  function NewDbc(g: Id): Dbc {
    Dbc(g, None, None, false, None, false, 0, 0, NO_KEYS, DEFAULT_ATTRS)
  }

  function AllocConnect(w: World, g: Id, c: Id): World
    requires g in w.app
  {
    w.(dbc := w.dbc[c := NewDbc(g)], app := w.app[g := [c] + w.app[g]])
  }

  // SQLFreeConnect on a connection that is not connected.
  function FreeConnect(w: World, c: Id): World
    requires c in w.dbc && w.dbc[c].genv in w.app
  {
    var g := w.dbc[c].genv;
    Discard(w.(app := w.app[g := Without(w.app[g], c)]), c)
  }

  /** _iodbcdm_pool_drop_conn. When the driver will not disconnect, the record is still connected,
      so SQLFreeConnect refuses it - and it is released all the same, driver and all. */
  function PoolDrop(w: World, d: Id, disconnects: bool): World
    requires d in w.dbc && w.dbc[d].genv in w.pool
  {
    var g := w.dbc[d].genv;
    var v := w.(pool := w.pool[g := Without(w.pool[g], d)]);
    if disconnects then Discard(v, d)
    else v.(dbc := v.dbc - {d}, inPool := v.inPool - {d})
  }

  /** _iodbcdm_pool_copy_conn: everything moves but the list link and the two times of the
      destination; the source forgets what it must not free twice. */
  function Moved(src: Dbc, dst: Dbc): Dbc {
    src.(cpTimeout := dst.cpTimeout, cpExpiry := dst.cpExpiry)
  }

  function MovedOut(src: Dbc): Dbc {
    src.(dhdbc := None, henv := None, keys := NO_KEYS, attrs := src.attrs.(qualifier := None))
  }

  // _iodbcdm_pool_check_attr_match
  predicate AttrsMatch(strict: bool, a: Attrs, p: Attrs) {
    && (strict ==> a.packetSize == p.packetSize)
    && a.odbcCursors == p.odbcCursors
    && (a.qualifier.None? ==> p.qualifier.None?)
    && (a.quietMode == 0 ==> p.quietMode == 0)
  }

  // _iodbcdm_pool_reset_conn_attrs
  function ResetAttrs(a: Attrs, p: Attrs): Attrs {
    p.(accessMode := a.accessMode, autocommit := a.autocommit, quietMode := a.quietMode,
       txnIsolation := a.txnIsolation,
       qualifier := if a.qualifier.Some? then a.qualifier else p.qualifier)
  }

  // The pool entry d goes out to the connection c.
  function Take(w: World, c: Id, d: Id): World
    requires c in w.dbc && d in w.dbc
  {
    var x, p := w.dbc[c], w.dbc[d];
    var q := p.(attrs := ResetAttrs(x.attrs, p.attrs));
    w.(dbc := w.dbc[c := Moved(q, x).(cpPdbc := Some(d), connected := true)]
                   [d := MovedOut(q).(cpInUse := true)])
  }

  predicate Stale(p: Dbc, now: int) {
    !p.cpInUse && p.cpExpiry <= now
  }

  predicate Usable(strict: bool, x: Dbc, p: Dbc, keys: Keys, now: int) {
    !p.cpInUse && now < p.cpExpiry && p.keys == keys && AttrsMatch(strict, x.attrs, p.attrs)
  }

  /** _iodbcdm_pool_put_conn and the end of SQLDisconnect: the connection c goes back to the entry it
      came from, or to a new one at the head of the pool. */
  function Put(w: World, c: Id, now: int, newId: Id): World
    requires Resolves(w, c) && (w.dbc[c].cpPdbc.Some? ==> w.dbc[c].cpPdbc.value in w.dbc)
  {
    var x := w.dbc[c];
    var d := if x.cpPdbc.Some? then x.cpPdbc.value else newId;
    var timeout := if x.cpPdbc.Some? then w.dbc[d].cpTimeout else x.cpTimeout;
    var p := x.(cpPdbc := None, cpInUse := false, cpTimeout := timeout, cpExpiry := now + timeout);
    var v := w.(dbc := w.dbc[c := MovedOut(x).(cpPdbc := None, connected := false)][d := p]);
    if x.cpPdbc.Some? then v
    else v.(inPool := w.inPool + {newId}, pool := w.pool[x.genv := [newId] + w.pool[x.genv]])
  }

  // The driver's SQLConnect or SQLDisconnect succeeded.
  function SetConnected(w: World, c: Id, connected: bool): World
    requires c in w.dbc
  {
    w.(dbc := w.dbc[c := w.dbc[c].(connected := connected)])
  }

  /** The loop of _iodbcdm_pool_get_conn over the entries still to be looked at, where every driver
      disconnects when told to; the entry taken, if any. */
  function Scan(w: World, c: Id, rest: seq<Id>, keys: Keys, now: int): (World, Option<Id>)
    decreases rest
  {
    if rest == [] || !Scannable(w, c, rest[0]) then (w, None)
    else
      var d := rest[0];
      var p := w.dbc[d];
      if Stale(p, now) then Scan(PoolDrop(w, d, true), c, rest[1..], keys, now)
      else if Usable(w.genv[w.dbc[c].genv].strict, w.dbc[c], p, keys, now) then (Take(w, c, d), Some(d))
      else Scan(w, c, rest[1..], keys, now)
  }

  /** SQLFreeConnect: a connected connection is refused, and its record released all the same, still linked and with
      its driver still counted. */
  function SqlFreeConnect(w: World, c: Id): World
    requires c in w.dbc && w.dbc[c].genv in w.app
  {
    if w.dbc[c].connected then w.(dbc := w.dbc - {c}) else FreeConnect(w, c)
  }

  predicate Scannable(w: World, c: Id, d: Id) {
    c in w.dbc && w.dbc[c].genv in w.genv && d in w.dbc && w.dbc[d].genv in w.pool
  }

  // The loop of SQLFreeEnv: the pool is dropped from its head.
  function Drain(w: World, g: Id, n: nat): World
    decreases n
  {
    if n == 0 || g !in w.pool || w.pool[g] == [] then w
    else if w.pool[g][0] !in w.dbc || w.dbc[w.pool[g][0]].genv !in w.pool then w
    else Drain(PoolDrop(w, w.pool[g][0], true), g, n - 1)
  }

  // ---- API calls ----

  // What a call that may load a driver is given: by the configuration (path, whether it may be
  // unloaded, CPTimeout), by the allocator and by the driver.
  datatype Source = Source(path: string, safe: bool, timeout: int, envId: Id, handle: Handle, connects: bool)

  function AllocEnv(w: World, g: Id, pooling: bool, strict: bool): World {
    w.(genv := w.genv[g := Genv(pooling, strict)], app := w.app[g := []], pool := w.pool[g := []],
       drivers := w.drivers[g := []])
  }

  /** What a call that was not answered from the pool saves: SQLConnect three of the keys, SQLDriverConnect the fourth;
      the others stay what they were. */
  function SavedKeys(had: Keys, keys: Keys): Keys {
    if keys.connstr.Some? then had.(connstr := keys.connstr) else keys.(connstr := had.connstr)
  }

  // Outside the pool: load the driver, which keeps its handle whether or not it then connects.
  function LoadAndConnect(w: World, c: Id, keys: Keys, src: Source): World
    requires Resolves(w, c)
  {
    var k := w.(dbc := w.dbc[c := w.dbc[c].(keys := keys)]);
    var v := DriverLoad(k, c, src.path, src.safe, src.timeout, src.envId, src.handle);
    if src.connects then SetConnected(v, c, true) else v
  }

  /** SQLConnect and SQLDriverConnect, as far as the store goes. */
  function Connect(w: World, c: Id, keys: Keys, now: int, src: Source): World
    requires Resolves(w, c)
  {
    if w.dbc[c].connected then w
    else if !w.genv[w.dbc[c].genv].pooling then LoadAndConnect(w, c, w.dbc[c].keys, src)
    else
      var (v, found) := Scan(w, c, w.pool[w.dbc[c].genv], keys, now);
      if found.Some? || !Resolves(v, c) then v else LoadAndConnect(v, c, SavedKeys(v.dbc[c].keys, keys), src)
  }

  predicate GoesToPool(w: World, c: Id)
    requires Resolves(w, c)
  {
    w.dbc[c].cpPdbc.Some? || (w.genv[w.dbc[c].genv].pooling && w.dbc[c].cpTimeout > 0)
  }

  /** SQLDisconnect of a connection without statements. */
  function Disconnect(w: World, c: Id, now: int, newId: Id, disconnects: bool): World
    requires Resolves(w, c) && (w.dbc[c].cpPdbc.Some? ==> w.dbc[c].cpPdbc.value in w.dbc)
  {
    if !w.dbc[c].connected then w
    else if GoesToPool(w, c) then Put(w, c, now, newId)
    else if disconnects then SetConnected(w, c, false)
    else w
  }

  function FreeEnv(w: World, g: Id): World
    requires g in w.pool
  {
    var v := Drain(w, g, |w.pool[g]|);
    v.(genv := v.genv - {g}, app := v.app - {g}, pool := v.pool - {g}, drivers := v.drivers - {g})
  }

  /** SQLFreeEnv: an environment with connections is refused, and its record released all the same, with the heads of
      its lists. */
  function SqlFreeEnv(w: World, g: Id): World
    requires g in w.pool && g in w.app
  {
    if w.app[g] == [] then FreeEnv(w, g)
    else w.(genv := w.genv - {g}, app := w.app - {g}, pool := w.pool - {g}, drivers := w.drivers - {g})
  }
}
