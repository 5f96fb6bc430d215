/** The connection calls in the source's own form, over a store of records that they change in place;
    each is proved to do what PoolSpec says. */
module Manager {
  import opened Codes
  import opened Lists
  import opened PoolSpec
  import opened PoolInv
  import opened PoolLookup
  import opened PoolRuns
  import opened PoolAttrs
  import opened Loader
  import Handles
  import O = Options

  /** What the connection h of a driver is told for the request a and the entry p, and what the application is. */
  ghost predicate DriverReset(
      a: Attrs, p: Attrs, h: Handle, codes: map<nat, SqlReturn>, held: map<Handle, Options>, now: map<Handle, Options>,
      rc: SqlReturn)
  {
    && (if h in now then now[h] else map[]) ==
       O.SendAll(if h in held then held[h] else map[], codes, ResetSettings(a, p))
    && rc == ResetCode(Handles.OrAll(O.CodesOf(codes, ResetSettings(a, p))))
    && forall k <- now :: k != h ==> k in held && now[k] == held[k]
  }

  // The same when the connection x gets the entry p.
  ghost predicate HandedOut(
      x: Dbc, p: Dbc, codes: map<nat, SqlReturn>, held: map<Handle, Options>, now: map<Handle, Options>, rc: SqlReturn)
  {
    p.dhdbc.Some? && DriverReset(x.attrs, p.attrs, p.dhdbc.value, codes, held, now, rc)
  }

  // Every idle pool entry has a driver.
  lemma PoolAttached(w: World, g: Id)
    requires Good(w) && g in w.pool
    ensures Entries(w.dbc, w.inPool, g, w.pool[g])
    ensures forall d <- w.pool[g] :: d in w.dbc && (!w.dbc[d].cpInUse ==> w.dbc[d].dhdbc.Some?)
  {
    PoolEntries(w, g);
    forall d <- w.pool[g] ensures d in w.dbc && (!w.dbc[d].cpInUse ==> w.dbc[d].dhdbc.Some?) {
      assert AttachedWell(w.dbc[d], true, w.env);
    }
  }

  class DriverManager {
    var dbc: map<Id, Dbc>
    ghost var inPool: set<Id>
    var env: map<Id, Env>
    const libs: LibraryList
    var genv: map<Id, Genv>
    var app: map<Id, seq<Id>>
    var pool: map<Id, seq<Id>>
    var drivers: map<Id, seq<Id>>
    var held: map<Handle, Options>    // what the drivers' connections hold, which is not the driver manager's

    ghost function W(): World
      reads this, libs
    {
      World(dbc, inPool, env, libs.Dlls(), genv, app, pool, drivers)
    }

    ghost predicate Valid()
      reads this, libs
    {
      libs.Valid()
    }

    constructor ()
      ensures Valid() && W() == NOTHING && fresh(libs)
    {
      libs := new LibraryList();
      dbc, inPool, env, genv, app, pool, drivers := map[], {}, map[], map[], map[], map[], map[];
      held := map[];
    }

    // ---- Lists ----

    method Unlink(list: seq<Id>, x: Id) returns (rest: seq<Id>)
      ensures rest == Without(list, x)
    {
      var i := 0;
      while i < |list|
        invariant i <= |list| && forall j :: 0 <= j < i ==> list[j] != x
      {
        if list[i] == x {
          WithoutAt(list, i);
          return list[..i] + list[i + 1..];
        }
        i := i + 1;
      }
      WithoutAbsent(list, x);
      return list;
    }

    // ---- Drivers ----

    method FindDriver(g: Id, path: string) returns (e: Option<Id>)
      requires g in drivers
      ensures e == FindEnv(env, drivers[g], path)
    {
      var rest := drivers[g];
      while rest != []
        invariant FindEnv(env, rest, path) == FindEnv(env, drivers[g], path)
      {
        if rest[0] in env && env[rest[0]].hdll == path {
          return Some(rest[0]);
        }
        rest := rest[1..];
      }
      return None;
    }

    method LoadDriver(c: Id, src: Source)
      requires Valid() && Resolves(W(), c)
      modifies this, libs
      ensures Valid()
      ensures W() == DriverLoad(old(W()), c, src.path, src.safe, src.timeout, src.envId, src.handle)
      ensures held == old(held)
    {
      libs.Open(src.path);
      if src.safe {
        libs.MarkSafe(src.path);
      }
      var x := dbc[c];
      if x.henv.Some? {
        libs.Close(src.path);
      } else {
        var e := AttachDriver(x.genv, src);
        x := x.(henv := Some(e), dhdbc := Some(src.handle));
      }
      dbc := dbc[c := x.(cpTimeout := src.timeout)];
    }

    // One more user of the environment's driver on that library, or a new driver.
    method AttachDriver(g: Id, src: Source) returns (e: Id)
      requires Valid() && g in drivers
      modifies this`env, this`drivers, libs
      ensures Valid()
      ensures match FindEnv(old(env), old(drivers)[g], src.path)
        case Some(f) =>
          e == f && env == old(env)[f := old(env)[f].(refcount := old(env)[f].refcount + 1)] && drivers == old(drivers) &&
          libs.Dlls() == DllClose(old(libs.Dlls()), src.path)
        case None =>
          e == src.envId && env == old(env)[e := Env(g, src.path, 1)] &&
          drivers == old(drivers)[g := [e] + old(drivers)[g]] && libs.Dlls() == old(libs.Dlls())
    {
      var found := FindDriver(g, src.path);
      if found.Some? {
        e := found.value;
        libs.Close(src.path);
        env := env[e := env[e].(refcount := env[e].refcount + 1)];
      } else {
        e := src.envId;
        env := env[e := Env(g, src.path, 1)];
        drivers := drivers[g := [e] + drivers[g]];
      }
    }

    // _iodbcdm_driverunload on a record that is being released.
    method UnloadAndRelease(d: Id)
      requires Valid() && d in dbc
      modifies this, libs
      ensures Valid() && W() == Discard(old(W()), d)
      ensures held == old(held)
    {
      var x := dbc[d];
      if x.henv.Some? && x.dhdbc.Some? && x.henv.value in env {
        var e := x.henv.value;
        var y := env[e].(refcount := env[e].refcount - 1);
        if y.refcount == 0 {
          libs.Close(y.hdll);
          if y.genv in drivers {
            var rest := Unlink(drivers[y.genv], e);
            drivers := drivers[y.genv := rest];
          }
          env := env - {e};
        } else {
          env := env[e := y];
        }
      }
      dbc := dbc - {d};
      inPool := inPool - {d};
    }

    // ---- Handles ----

    method SqlAllocEnv(g: Id, pooling: bool, strict: bool)
      requires Valid()
      modifies this
      ensures Valid() && W() == AllocEnv(old(W()), g, pooling, strict)
    {
      genv, app, pool, drivers := genv[g := Genv(pooling, strict)], app[g := []], pool[g := []], drivers[g := []];
    }

    method SqlAllocConnect(g: Id, c: Id)
      requires Valid() && g in app
      modifies this
      ensures Valid() && W() == AllocConnect(old(W()), g, c)
    {
      dbc := dbc[c := NewDbc(g)];
      app := app[g := [c] + app[g]];
    }

    /** A connected connection is refused and its record released nevertheless. */
    method SqlFreeConnect(c: Id) returns (ok: bool)
      requires Valid() && Resolves(W(), c)
      modifies this, libs
      ensures Valid() && ok == !old(dbc[c].connected)
      ensures W() == PoolSpec.SqlFreeConnect(old(W()), c)
    {
      if dbc[c].connected {
        dbc := dbc - {c};
        return false;
      }
      var g := dbc[c].genv;
      var rest := Unlink(app[g], c);
      app := app[g := rest];
      UnloadAndRelease(c);
      return true;
    }

    // ---- The pool ----

    /** Never called on an entry in use. */
    method DropFromPool(d: Id, disconnects: bool)
      requires Valid() && d in dbc && dbc[d].genv in pool && !dbc[d].cpInUse
      modifies this, libs
      ensures Valid() && W() == PoolDrop(old(W()), d, disconnects)
      ensures held == old(held)
    {
      var g := dbc[d].genv;
      var rest := Unlink(pool[g], d);
      pool := pool[g := rest];
      if disconnects {
        UnloadAndRelease(d);
      } else {
        dbc := dbc - {d};
        inPool := inPool - {d};
      }
    }

    predicate KeyMatches(wanted: Option<string>, have: Option<string>) {
      if wanted.Some? then have.Some? && wanted.value == have.value else have.None?
    }

    predicate KeysMatch(wanted: Keys, have: Keys): (b: bool)
      ensures b <==> wanted == have
    {
      if !KeyMatches(wanted.dsn, have.dsn) then false
      else if !KeyMatches(wanted.uid, have.uid) then false
      else if !KeyMatches(wanted.pwd, have.pwd) then false
      else KeyMatches(wanted.connstr, have.connstr)
    }

    predicate AttrMatches(c: Id, d: Id): (b: bool)
      requires c in dbc && d in dbc && dbc[c].genv in genv
      reads this
      ensures b <==> AttrsMatch(genv[dbc[c].genv].strict, dbc[c].attrs, dbc[d].attrs)
    {
      var a, p := dbc[c].attrs, dbc[d].attrs;
      if genv[dbc[c].genv].strict && a.packetSize != p.packetSize then false
      else if a.odbcCursors != p.odbcCursors then false
      else if a.qualifier.None? && p.qualifier.Some? then false
      else if a.quietMode == 0 && p.quietMode != 0 then false
      else true
    }

    function Holding(h: Handle): Options
      reads this
    {
      if h in held then held[h] else map[]
    }

    // The kth of the five blocks of the reset: if the records differ in the attribute, the entry's takes it over, and its
    // driver is asked to.
    method ResetAttr(
        k: nat, a: Attrs, p: Attrs, q: Attrs, h: Handle, codes: map<nat, SqlReturn>, bits: bv16, ghost d: Options)
      returns (next: Attrs, r: bv16)
      requires k < ATTRIBUTES && q == TakenUpTo(a, p, k) && ToldUpTo(d, codes, a, p, k, Holding(h), bits)
      modifies this`held
      ensures next == TakenUpTo(a, p, k + 1) && ToldUpTo(d, codes, a, p, k + 1, Holding(h), r)
      ensures forall j <- held :: j != h ==> j in old(held) && held[j] == old(held)[j]
    {
      ToldNext(d, codes, a, p, k, Holding(h), bits);
      var o := Attribute(k);
      next, r := q, bits;
      if Resent(a, p, o) {
        next := WithAttr(q, a, o);
        var rc := SetInit(h, O.Setting(o, Asked(a, o)), codes);
        r := bits | rc.Bits();
      }
    }

    // One option to the connection h of a driver that answers with these codes.
    method SetInit(h: Handle, x: O.Setting, codes: map<nat, SqlReturn>) returns (rc: SqlReturn)
      modifies this`held
      ensures Holding(h) == O.Send(old(Holding(h)), codes, x) && rc == O.Code(codes, x.option)
      ensures forall j <- held :: j != h ==> j in old(held) && held[j] == old(held)[j]
    {
      rc := O.Code(codes, x.option);
      if rc.Succeeded() {
        held := held[h := Holding(h)[x.option := x.value]];
      }
    }

    /** _iodbcdm_pool_reset_conn_attrs: the record of the entry takes over what was asked for, and its driver is sent each
        attribute in which they differed; the record does not wait for the driver's answer. */
    method ResetConnAttrs(c: Id, d: Id, codes: map<nat, SqlReturn>) returns (rc: SqlReturn)
      requires Valid() && c in dbc && d in dbc && c != d && dbc[d].dhdbc.Some?
      modifies this`dbc, this`held
      ensures dbc == old(dbc)[d := old(dbc[d]).(attrs := ResetAttrs(old(dbc[c].attrs), old(dbc[d].attrs)))]
                             [c := old(dbc[c]).(attrs := old(dbc[c].attrs).(qualifier := None))]
      ensures HandedOut(old(dbc[c]), old(dbc[d]), codes, old(held), held, rc)
    {
      var a, p, h := dbc[c].attrs, dbc[d].attrs, dbc[d].dhdbc.value;
      var q;
      q, rc := ResetDriver(a, p, h, codes);
      dbc := dbc[d := dbc[d].(attrs := q)][c := dbc[c].(attrs := a.(qualifier := None))];
    }

    method ResetDriver(a: Attrs, p: Attrs, h: Handle, codes: map<nat, SqlReturn>) returns (q: Attrs, rc: SqlReturn)
      modifies this`held
      ensures q == ResetAttrs(a, p) && DriverReset(a, p, h, codes, old(held), held, rc)
    {
      ghost var o := Holding(h);
      ToldNothing(o, codes);
      TakenAll(a, p);
      var bits;
      q, bits := p, 0;
      q, bits := ResetAttr(0, a, p, q, h, codes, bits, o);
      q, bits := ResetAttr(1, a, p, q, h, codes, bits, o);
      q, bits := ResetAttr(2, a, p, q, h, codes, bits, o);
      q, bits := ResetAttr(3, a, p, q, h, codes, bits, o);
      q, bits := ResetAttr(4, a, p, q, h, codes, bits, o);
      rc := ResetCode(bits);
    }

    // Copies the record src over dst, keeping the times of dst, and clears what moved out of src.
    method CopyConn(dst: Id, src: Id)
      requires Valid() && src in dbc && dst in dbc && src != dst
      modifies this`dbc
      ensures dbc == old(dbc)[dst := Moved(old(dbc[src]), old(dbc[dst]))][src := MovedOut(old(dbc[src]))]
    {
      var timeout, expiry := dbc[dst].cpTimeout, dbc[dst].cpExpiry;
      dbc := dbc[dst := dbc[src]];
      dbc := dbc[dst := dbc[dst].(cpTimeout := timeout, cpExpiry := expiry)];
      dbc := dbc[src := dbc[src].(dhdbc := None, henv := None, keys := NO_KEYS,
                                  attrs := dbc[src].attrs.(qualifier := None))];
    }

    method TakeFromPool(c: Id, d: Id, codes: map<nat, SqlReturn>) returns (rc: SqlReturn)
      requires Valid() && c in dbc && d in dbc && c != d && dbc[d].dhdbc.Some?
      modifies this`dbc, this`held
      ensures W() == old(W()).(dbc := dbc) && dbc == Take(old(W()), c, d).dbc
      ensures HandedOut(old(dbc[c]), old(dbc[d]), codes, old(held), held, rc)
    {
      rc := ResetConnAttrs(c, d, codes);
      MoveOut(c, d);
    }

    // The record of the pool entry d moves to the connection c.
    method MoveOut(c: Id, d: Id)
      requires Valid() && c in dbc && d in dbc && c != d
      modifies this`dbc
      ensures dbc == old(dbc)[c := Moved(old(dbc[d]), old(dbc[c])).(cpPdbc := Some(d), connected := true)]
                             [d := MovedOut(old(dbc[d])).(cpInUse := true)]
    {
      CopyConn(c, d);
      dbc := dbc[c := dbc[c].(cpPdbc := Some(d), connected := true)];
      dbc := dbc[d := dbc[d].(cpInUse := true)];
    }

    /** _iodbcdm_pool_get_conn, with drivers that disconnect when told to. */
    method PoolGet(c: Id, keys: Keys, now: int, codes: map<nat, SqlReturn>) returns (found: Option<Id>, rc: SqlReturn)
      requires Valid() && c in dbc && c !in inPool && dbc[c].genv in genv && dbc[c].genv in pool
      requires Entries(dbc, inPool, dbc[c].genv, pool[dbc[c].genv])
      requires forall d <- pool[dbc[c].genv] :: d in dbc && (!dbc[d].cpInUse ==> dbc[d].dhdbc.Some?)
      modifies this, libs
      ensures Valid() && (W(), found) == Scan(old(W()), c, old(pool)[old(dbc[c]).genv], keys, now)
      ensures found.Some? ==>
                (found.value in old(dbc) && HandedOut(old(dbc[c]), old(dbc)[found.value], codes, old(held), held, rc))
      ensures found.None? ==> rc == Error && held == old(held)
    {
      var g := dbc[c].genv;
      var rest := pool[g];
      while rest != []
        invariant Valid() && c in dbc && c !in inPool && dbc[c].genv == g && g in genv && g in pool
        invariant Entries(dbc, inPool, g, rest)
        invariant Scan(W(), c, rest, keys, now) == Scan(old(W()), c, old(pool)[g], keys, now)
        invariant held == old(held) && forall b <- dbc :: b in old(dbc) && dbc[b] == old(dbc)[b]
        invariant forall d <- rest :: d in dbc && (!dbc[d].cpInUse ==> dbc[d].dhdbc.Some?)
        decreases rest
      {
        var d, next := rest[0], rest[1..];
        DistinctTail(rest);
        if dbc[d].cpInUse {
          rest := next;
          continue;
        }
        if now >= dbc[d].cpExpiry {
          DropFromPool(d, true);
          rest := next;
          continue;
        }
        if !KeysMatch(keys, dbc[d].keys) || !AttrMatches(c, d) {
          rest := next;
          continue;
        }
        rc := TakeFromPool(c, d, codes);
        return Some(d), rc;
      }
      return None, Error;
    }

    // The record of the connection c moves to the pool entry d.
    method MoveBack(c: Id, d: Id, now: int)
      requires Valid() && c in dbc && d in dbc && c != d
      modifies this`dbc
      ensures var x, timeout := old(dbc[c]), old(dbc[d]).cpTimeout;
        dbc == old(dbc)[c := MovedOut(x).(cpPdbc := None, connected := false)]
                       [d := x.(cpPdbc := None, cpInUse := false, cpTimeout := timeout, cpExpiry := now + timeout)]
    {
      CopyConn(d, c);
      var p := dbc[d].(cpPdbc := None);
      p := p.(cpExpiry := now + p.cpTimeout, cpInUse := false);
      dbc := dbc[c := dbc[c].(cpPdbc := None, connected := false)];
      dbc := dbc[d := p];
    }

    /** _iodbcdm_pool_put_conn and the rest of SQLDisconnect; newId is where a new record goes. */
    method PutBack(c: Id, now: int, newId: Id)
      requires Valid() && Resolves(W(), c) && newId !in dbc
      requires dbc[c].cpPdbc.Some? ==> dbc[c].cpPdbc.value in dbc && dbc[c].cpPdbc.value != c
      modifies this
      ensures Valid() && W() == Put(old(W()), c, now, newId)
    {
      if dbc[c].cpPdbc.Some? {
        MoveBack(c, dbc[c].cpPdbc.value, now);
        return;
      }
      var g := dbc[c].genv;
      pool := pool[g := [newId] + pool[g]];
      inPool := inPool + {newId};
      dbc := dbc[newId := NewDbc(g).(cpTimeout := dbc[c].cpTimeout)];
      MoveBack(c, newId, now);
      assert dbc == Put(old(W()), c, now, newId).dbc;
    }

    // ---- Connecting ----

    method LoadThenConnect(c: Id, keys: Keys, src: Source)
      requires Valid() && Resolves(W(), c)
      modifies this, libs
      ensures Valid() && W() == LoadAndConnect(old(W()), c, keys, src)
      ensures held == old(held)
    {
      dbc := dbc[c := dbc[c].(keys := keys)];
      LoadDriver(c, src);
      if src.connects {
        dbc := dbc[c := dbc[c].(connected := true)];
      }
    }

    /** codes are the answers of the driver of an entry that is taken, answer what connecting anew comes to. */
    method SqlConnect(c: Id, keys: Keys, now: int, src: Source, codes: map<nat, SqlReturn>, answer: SqlReturn)
      returns (rc: SqlReturn)
      requires Valid() && Good(W()) && Mine(W(), c) && (src.connects <==> answer.Succeeded())
      modifies this, libs
      ensures Valid() && W() == Connect(old(W()), c, keys, now, src)
      ensures old(dbc[c]).connected ==> rc == Error
      ensures !old(dbc[c]).connected ==>
        var found := if old(genv[dbc[c].genv]).pooling then old(Scan(W(), c, pool[dbc[c].genv], keys, now)).1 else None;
        if found.Some? then found.value in old(dbc) && HandedOut(old(dbc[c]), old(dbc)[found.value], codes, old(held), held, rc)
        else rc == answer && held == old(held)
    {
      if dbc[c].connected {
        return Error;
      }
      var kept := dbc[c].keys;
      if genv[dbc[c].genv].pooling {
        PoolAttached(W(), dbc[c].genv);
        ScanGood(W(), c, keys, now);
        var found;
        found, rc := PoolGet(c, keys, now, codes);
        if found.Some? {
          return;
        }
        kept := SavedKeys(kept, keys);
      }
      LoadThenConnect(c, kept, src);
      return answer;
    }

    method SqlDisconnect(c: Id, now: int, newId: Id, disconnects: bool) returns (ok: bool)
      requires Valid() && Good(W()) && Mine(W(), c) && newId !in dbc
      modifies this, libs
      ensures Valid()
      ensures old(dbc[c]).cpPdbc.Some? ==> old(dbc[c]).cpPdbc.value in old(dbc)
      ensures W() == Disconnect(old(W()), c, now, newId, disconnects)
    {
      DisconnectReady(W(), c);
      if !dbc[c].connected {
        return false;
      }
      if dbc[c].cpPdbc.Some? || (genv[dbc[c].genv].pooling && dbc[c].cpTimeout > 0) {
        PutBack(c, now, newId);
        return true;
      }
      if !disconnects {
        return false;
      }
      dbc := dbc[c := dbc[c].(connected := false)];
      return true;
    }

    method DrainPool(g: Id)
      requires Valid() && g in pool && IdlePool(W(), g)
      modifies this, libs
      ensures Valid() && W() == Drain(old(W()), g, |old(pool)[g]|) && g in pool && pool[g] == []
      ensures app == old(app)
    {
      while pool[g] != []
        invariant Valid() && g in pool && IdlePool(W(), g) && app == old(app)
        invariant Drain(W(), g, |pool[g]|) == old(Drain(W(), g, |pool[g]|))
        decreases |pool[g]|
      {
        DropHead(W(), g);
        DrainStep(W(), g, |pool[g]|);
        DropFromPool(pool[g][0], true);
      }
    }

    /** SQLFreeEnv: refused while there are connections, though its record is released nevertheless; else the pool is
        drained, none of its entries being in use. */
    method SqlFreeEnv(g: Id) returns (ok: bool)
      requires Valid() && Good(W()) && g in pool && g in app
      modifies this, libs
      ensures Valid() && ok == (old(app)[g] == [])
      ensures W() == PoolSpec.SqlFreeEnv(old(W()), g)
    {
      ok := app[g] == [];
      if ok {
        PoolEntries(W(), g);
        OrphanPoolIsIdle(W(), g);
        DrainPool(g);
      }
      genv, app, pool, drivers := genv - {g}, app - {g}, pool - {g}, drivers - {g};
    }
  }
}
