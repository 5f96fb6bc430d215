/** Entering and leaving a call. Every gated entry point tests and sets its handle's call-in-progress flag
    under the global lock, runs without the lock or, where it asked to, with it, and clears the flag under
    the lock again; a driver that is not safe for threads is called under its own lock. A call that drops
    its handle does so on every way out, the rejected caller's included. Threads take these steps in any
    interleaving. */
module CallGate {
  import opened Codes
  import opened Diagnostics

  // The fields that a call works on; fields stands for all that have no role here.
  datatype Record = Record(rc: SqlReturn, errRec: int, insertedParams: nat, async: bool, fields: int)

  // A handle that is not valid has been freed; what its memory holds then means nothing.
  datatype Gate = Gate(valid: bool, driver: nat, cip: bool, errs: seq<Diag>, record: Record)

  datatype Driver = Driver(threadSafe: bool, lock: Option<nat>)

  /** How a call is made: hold says that it keeps the global lock, drops that it frees its handle at the end. */
  datatype Call = Call(hold: bool, drops: bool)

  /** Where a thread is; locked says that it has the global lock now. */
  datatype Place =
    | Idle
    | WaitEnter(h: nat, call: Call)
    | Testing(h: nat, call: Call)
    | Rejecting(h: nat, call: Call)
    | Setting(h: nat, call: Call)
    | Clearing(h: nat, call: Call)
    | Body(h: nat, call: Call, locked: bool)
    | WaitRelock(h: nat, call: Call)
    | WaitDriver(h: nat, call: Call, locked: bool)
    | InDriver(h: nat, call: Call, locked: bool)
    | Recording(h: nat, call: Call, locked: bool, rc: SqlReturn)
    | WaitLeave(h: nat, call: Call)
    | Leaving(h: nat, call: Call)
    | Closing(h: nat, call: Call)
    | WaitEnv
    | InEnv
  {
    predicate HasLock() {
      Testing? || Rejecting? || Setting? || Clearing? || Leaving? || Closing? || InEnv? || (MayHoldLock() && locked)
    }

    predicate MayHoldLock() {
      Body? || WaitDriver? || InDriver? || Recording?
    }

    predicate Sound() {
      (MayHoldLock() && locked ==> call.hold) && (WaitRelock? ==> call.hold)
    }

    // Between setting the flag of h and clearing it.
    predicate Owns(h: nat) {
      (Clearing? || MayHoldLock() || WaitRelock? || WaitLeave? || Leaving?) && this.h == h
    }

    predicate Inside() {
      InDriver? || Recording?
    }

    // In no call with a handle.
    predicate Apart() {
      Idle? || WaitEnv? || InEnv?
    }
  }

  datatype World = World(places: seq<Place>, lock: Option<nat>, gates: seq<Gate>, drivers: seq<Driver>)

  /** What a thread may do in the body of its call, and what a driver may answer. */
  datatype Action =
    | Enter(h: nat, call: Call) | EnterEnv | Go
    | Work(record: Record) | Post(d: Diag) | Unlock | Relock | CallDriver | Finish
    | Answer(rc: SqlReturn)

  const FUNCTION_SEQUENCE := Diag(1010, "")

  // CLEAR_ERRORS, and the parameters of a statement that is not in an asynchronous call.
  function Cleared(r: Record): Record {
    r.(rc := Success, errRec := 0, insertedParams := if r.async then r.insertedParams else 0)
  }

  // What happens at the label where a call ends, if it is one that drops its handle: nothing more to a freed one.
  function Dropped(g: Gate): Gate {
    if g.valid then g.(valid := false, errs := []) else g
  }

  ghost predicate WellFormed(w: World) {
    && (forall t :: 0 <= t < |w.places| ==> w.places[t].Apart() || w.places[t].h < |w.gates|)
    && (forall h :: 0 <= h < |w.gates| ==> w.gates[h].driver < |w.drivers|)
  }

  // What a step of a thread at a place can see and change: the global lock, and the gate and the driver of
  // the handle it is called with.
  datatype Local = Local(place: Place, lock: Option<nat>, gate: Gate, driver: Driver)

  /** One step of thread t in a call with a handle; None if the thread has to wait or the action is not one
      for its place. */
  function CallStep(t: nat, l: Local, a: Action): Option<Local>
    requires !l.place.Apart()
  {
    match l.place
    case WaitEnter(h, call) =>
      if l.lock.None? then Some(l.(lock := Some(t), place := Testing(h, call))) else None
    case Testing(h, call) =>
      Some(l.(place := if !l.gate.valid then Closing(h, call)
                       else if l.gate.cip then Rejecting(h, call) else Setting(h, call)))
    case Rejecting(h, call) =>
      Some(l.(gate := l.gate.(errs := Pushed(l.gate.errs, FUNCTION_SEQUENCE)), place := Closing(h, call)))
    case Setting(h, call) =>
      Some(l.(gate := l.gate.(cip := true), place := Clearing(h, call)))
    case Clearing(h, call) =>
      Some(l.(gate := l.gate.(errs := [], record := Cleared(l.gate.record)), lock := if call.hold then l.lock else None,
              place := Body(h, call, call.hold)))
    case Body(_, _, _) => BodyStep(l, a)
    case WaitRelock(h, call) =>
      if l.lock.None? then Some(l.(lock := Some(t), place := Body(h, call, true))) else None
    case WaitDriver(h, call, locked) =>
      if l.driver.threadSafe then Some(l.(place := InDriver(h, call, locked)))
      else if l.driver.lock.None? then
        Some(l.(driver := l.driver.(lock := Some(t)), place := InDriver(h, call, locked)))
      else None
    case InDriver(h, call, locked) =>
      if a.Answer? then Some(l.(place := Recording(h, call, locked, a.rc))) else None
    case Recording(h, call, locked, rc) =>
      Some(l.(gate := l.gate.(record := l.gate.record.(rc := rc)),
              driver := if l.driver.threadSafe then l.driver else l.driver.(lock := None),
              place := Body(h, call, locked)))
    case WaitLeave(h, call) =>
      if l.lock.None? then Some(l.(lock := Some(t), place := Leaving(h, call))) else None
    case Leaving(h, call) =>
      Some(l.(gate := l.gate.(cip := false), place := Closing(h, call)))
    case Closing(_, call) =>
      Some(l.(gate := if call.drops then Dropped(l.gate) else l.gate, lock := None, place := Idle))
  }

  function BodyStep(l: Local, a: Action): Option<Local>
    requires l.place.Body?
  {
    var Body(h, call, locked) := l.place;
    if a.Work? then Some(l.(gate := l.gate.(record := a.record)))
    else if a.Post? then Some(l.(gate := l.gate.(errs := Pushed(l.gate.errs, a.d))))
    else if a.Unlock? && locked then Some(l.(lock := None, place := Body(h, call, false)))
    else if a.Relock? && call.hold && !locked then Some(l.(place := WaitRelock(h, call)))
    else if a.CallDriver? then Some(l.(place := WaitDriver(h, call, locked)))
    else if a.Finish? && !call.hold then Some(l.(place := WaitLeave(h, call)))
    else if a.Finish? && locked then Some(l.(place := Leaving(h, call)))
    else None
  }

  // A step outside any handle: starting a call, an entry point that only takes the lock, giving the lock back.
  function ApartStep(t: nat, p: Place, lock: Option<nat>, handles: nat, a: Action): Option<(Place, Option<nat>)>
    requires p.Apart()
  {
    match p
    case Idle =>
      if a.Enter? && a.h < handles then Some((WaitEnter(a.h, a.call), lock))
      else if a.EnterEnv? then Some((WaitEnv, lock))
      else None
    case WaitEnv => if lock.None? then Some((InEnv, Some(t))) else None
    case InEnv => Some((Idle, None))
  }

  /** One step of thread t in the world. */
  function Step(w: World, t: nat, a: Action): Option<World>
    requires WellFormed(w) && t < |w.places|
  {
    var p := w.places[t];
    if p.Apart() then
      match ApartStep(t, p, w.lock, |w.gates|, a)
      case None => None
      case Some((place, lock)) => Some(w.(places := w.places[t := place], lock := lock))
    else
      var h := p.h;
      var d := w.gates[h].driver;
      match CallStep(t, Local(p, w.lock, w.gates[h], w.drivers[d]), a)
      case None => None
      case Some(l) => Some(World(w.places[t := l.place], l.lock, w.gates[h := l.gate], w.drivers[d := l.driver]))
  }

  // ---- Invariant ----

  // The thread recorded as holding the global lock is the one whose place says so.
  ghost predicate LockInv(w: World) {
    && (forall t :: 0 <= t < |w.places| && w.places[t].HasLock() ==> w.lock == Some(t))
    && (w.lock.Some? ==> w.lock.value < |w.places| && w.places[w.lock.value].HasLock())
  }

  // Only calls that hold the lock throughout have it in the body.
  ghost predicate HoldInv(w: World) {
    forall t :: 0 <= t < |w.places| ==> w.places[t].Sound()
  }

  // The flag of a handle is set exactly while one thread is between setting and clearing it, and a thread that
  // is about to set it has seen it clear.
  ghost predicate OneOwner(places: seq<Place>, h: nat, cip: bool) {
    && (forall t :: 0 <= t < |places| && places[t].Owns(h) ==> cip)
    && (cip ==> exists t :: 0 <= t < |places| && places[t].Owns(h))
    && (forall t, u {:trigger places[t].Owns(h), places[u].Owns(h)} ::
          0 <= t < |places| && 0 <= u < |places| && places[t].Owns(h) && places[u].Owns(h) ==> t == u)
    && (forall t :: 0 <= t < |places| && places[t].Setting? && places[t].h == h ==> !cip)
  }

  ghost predicate FlagInv(w: World) {
    forall h :: 0 <= h < |w.gates| ==> OneOwner(w.places, h, w.gates[h].cip)
  }

  // The lock of a driver that is not safe for threads is with the thread inside it.
  ghost predicate DriverInv(w: World) {
    forall d :: 0 <= d < |w.drivers| && !w.drivers[d].threadSafe ==> OneInside(w.places, w.gates, d, w.drivers[d].lock)
  }

  ghost predicate InsideOf(places: seq<Place>, gates: seq<Gate>, t: nat, d: nat)
    requires t < |places|
  {
    places[t].Inside() && places[t].h < |gates| && gates[places[t].h].driver == d
  }

  ghost predicate OneInside(places: seq<Place>, gates: seq<Gate>, d: nat, lock: Option<nat>) {
    && (forall t :: 0 <= t < |places| && InsideOf(places, gates, t, d) ==> lock == Some(t))
    && (lock.Some? ==> lock.value < |places| && InsideOf(places, gates, lock.value, d))
  }

  ghost predicate Inv(w: World) {
    WellFormed(w) && LockInv(w) && HoldInv(w) && FlagInv(w) && DriverInv(w)
  }

  ghost predicate Initial(w: World) {
    && WellFormed(w) && w.lock == None
    && (forall t :: 0 <= t < |w.places| ==> w.places[t] == Idle)
    && (forall h :: 0 <= h < |w.gates| ==> !w.gates[h].cip)
    && (forall d :: 0 <= d < |w.drivers| ==> w.drivers[d].lock == None)
  }

  // How a step moves a lock that is held exactly at the places of a kind.
  predicate LockMoves(t: nat, held: bool, lock: Option<nat>, held': bool, lock': Option<nat>) {
    || (held' == held && lock' == lock)
    || (!held && held' && lock == None && lock' == Some(t))
    || (held && !held' && lock' == None)
  }

  lemma CallStepLock(t: nat, l: Local, a: Action)
    requires !l.place.Apart() && l.place.Sound() && CallStep(t, l, a).Some?
    ensures var n := CallStep(t, l, a).value;
      n.place.Sound() && LockMoves(t, l.place.HasLock(), l.lock, n.place.HasLock(), n.lock)
  {
  }

  lemma CallStepDriver(t: nat, l: Local, a: Action)
    requires !l.place.Apart() && CallStep(t, l, a).Some?
    ensures var n := CallStep(t, l, a).value;
      && n.driver.threadSafe == l.driver.threadSafe && n.gate.driver == l.gate.driver
      && if l.driver.threadSafe then n.driver == l.driver
         else LockMoves(t, l.place.Inside(), l.driver.lock, n.place.Inside(), n.driver.lock)
  {
  }

  lemma CallStepFlag(t: nat, l: Local, a: Action)
    requires !l.place.Apart() && CallStep(t, l, a).Some?
    ensures var n := CallStep(t, l, a).value; var h := l.place.h;
      && (n.place.Apart() || n.place.h == h)
      && (n.gate.cip != l.gate.cip ==> l.place.HasLock() && n.gate.cip == n.place.Owns(h) != l.place.Owns(h))
      && (n.gate.cip == l.gate.cip ==> n.place.Owns(h) == l.place.Owns(h) || (l.place.Setting? && l.gate.cip) || (l.place.Leaving? && !l.gate.cip))
      && (n.place.Setting? ==> l.place.Testing? && !l.gate.cip)
  {
  }

  // The lock of a world after a step.
  lemma StepMovesLock(w: World, t: nat, a: Action)
    requires WellFormed(w) && t < |w.places| && w.places[t].Sound() && Step(w, t, a).Some?
    ensures var n := Step(w, t, a).value;
      && |n.places| == |w.places| && n.places == w.places[t := n.places[t]] && n.places[t].Sound()
      && LockMoves(t, w.places[t].HasLock(), w.lock, n.places[t].HasLock(), n.lock)
  {
    var p := w.places[t];
    if !p.Apart() {
      var g := w.gates[p.h];
      CallStepLock(t, Local(p, w.lock, g, w.drivers[g.driver]), a);
    }
  }

  lemma StepLockInv(w: World, t: nat, a: Action)
    requires WellFormed(w) && LockInv(w) && HoldInv(w) && t < |w.places| && Step(w, t, a).Some?
    ensures LockInv(Step(w, t, a).value) && HoldInv(Step(w, t, a).value)
  {
    var n := Step(w, t, a).value;
    StepMovesLock(w, t, a);
    LockInvMoves(w, n, t);
  }

  lemma LockInvMoves(w: World, n: World, t: nat)
    requires LockInv(w) && t < |w.places| == |n.places| && n.places == w.places[t := n.places[t]]
    requires LockMoves(t, w.places[t].HasLock(), w.lock, n.places[t].HasLock(), n.lock)
    ensures LockInv(n)
  {
  }

  // ---- The flags ----

  // A step of t that changes the flag of h from cip to cip'.
  predicate FlagMoves(p: Place, h: nat, cip: bool, p': Place, cip': bool) {
    && (cip' != cip ==> p.HasLock() && cip' == p'.Owns(h) != p.Owns(h))
    && (cip' == cip ==> p'.Owns(h) == p.Owns(h))
    && (p'.Setting? && p'.h == h ==> !cip')
  }

  lemma OneOwnerMoves(w: World, t: nat, p: Place, h: nat, cip: bool, cip': bool)
    requires LockInv(w) && t < |w.places| && OneOwner(w.places, h, cip)
    requires FlagMoves(w.places[t], h, cip, p, cip')
    ensures OneOwner(w.places[t := p], h, cip')
  {
    var places := w.places[t := p];
    if cip' && cip {
      var u :| 0 <= u < |w.places| && w.places[u].Owns(h);
      assert places[u].Owns(h);
    } else if cip' {
      assert places[t].Owns(h);
    }
  }

  lemma StepMovesFlag(w: World, t: nat, a: Action, h: nat)
    requires WellFormed(w) && FlagInv(w) && t < |w.places| && h < |w.gates| && Step(w, t, a).Some?
    ensures var n := Step(w, t, a).value;
      && |n.gates| == |w.gates| && |n.places| == |w.places| && n.places == w.places[t := n.places[t]]
      && FlagMoves(w.places[t], h, w.gates[h].cip, n.places[t], n.gates[h].cip)
  {
    var p := w.places[t];
    assert OneOwner(w.places, h, w.gates[h].cip);
    if !p.Apart() {
      var g := w.gates[p.h];
      CallStepFlag(t, Local(p, w.lock, g, w.drivers[g.driver]), a);
    }
  }

  lemma StepFlagInv(w: World, t: nat, a: Action)
    requires WellFormed(w) && LockInv(w) && FlagInv(w) && t < |w.places| && Step(w, t, a).Some?
    ensures FlagInv(Step(w, t, a).value)
  {
    var n := Step(w, t, a).value;
    forall h | 0 <= h < |n.gates| ensures OneOwner(n.places, h, n.gates[h].cip) {
      StepMovesFlag(w, t, a, h);
      OneOwnerMoves(w, t, n.places[t], h, w.gates[h].cip, n.gates[h].cip);
    }
  }

  // ---- The drivers ----

  // A step of t into or out of driver d.
  lemma StepMovesDriver(w: World, t: nat, a: Action, d: nat)
    requires WellFormed(w) && t < |w.places| && d < |w.drivers| && Step(w, t, a).Some?
    ensures var n := Step(w, t, a).value;
      && |n.drivers| == |w.drivers| && n.drivers[d].threadSafe == w.drivers[d].threadSafe
      && |n.places| == |w.places| && n.places == w.places[t := n.places[t]]
      && (!w.drivers[d].threadSafe ==>
            LockMoves(t, InsideOf(w.places, w.gates, t, d), w.drivers[d].lock,
                      InsideOf(n.places, n.gates, t, d), n.drivers[d].lock))
  {
    var p := w.places[t];
    if !p.Apart() {
      var g := w.gates[p.h];
      CallStepDriver(t, Local(p, w.lock, g, w.drivers[g.driver]), a);
      CallStepHandle(t, Local(p, w.lock, g, w.drivers[g.driver]), a);
    }
  }

  lemma CallStepHandle(t: nat, l: Local, a: Action)
    requires !l.place.Apart() && CallStep(t, l, a).Some?
    ensures var n := CallStep(t, l, a).value; n.place.Apart() || n.place.h == l.place.h
  {
  }

  lemma StepKeepsHandles(w: World, t: nat, a: Action)
    requires WellFormed(w) && t < |w.places| && Step(w, t, a).Some?
    ensures var n := Step(w, t, a).value;
      && |n.gates| == |w.gates| && (forall h :: 0 <= h < |w.gates| ==> n.gates[h].driver == w.gates[h].driver)
      && WellFormed(n)
  {
    var p := w.places[t];
    if !p.Apart() {
      var g := w.gates[p.h];
      CallStepDriver(t, Local(p, w.lock, g, w.drivers[g.driver]), a);
      CallStepHandle(t, Local(p, w.lock, g, w.drivers[g.driver]), a);
    }
  }

  lemma OneInsideMoves(w: World, n: World, t: nat, d: nat, lock: Option<nat>, lock': Option<nat>)
    requires t < |w.places| == |n.places| && n.places == w.places[t := n.places[t]]
    requires |n.gates| == |w.gates| && forall h :: 0 <= h < |w.gates| ==> n.gates[h].driver == w.gates[h].driver
    requires OneInside(w.places, w.gates, d, lock)
    requires LockMoves(t, InsideOf(w.places, w.gates, t, d), lock, InsideOf(n.places, n.gates, t, d), lock')
    ensures OneInside(n.places, n.gates, d, lock')
  {
    assert forall u :: 0 <= u < |w.places| && u != t ==>
      InsideOf(n.places, n.gates, u, d) == InsideOf(w.places, w.gates, u, d);
  }

  lemma StepDriverInv(w: World, t: nat, a: Action)
    requires WellFormed(w) && DriverInv(w) && t < |w.places| && Step(w, t, a).Some?
    ensures WellFormed(Step(w, t, a).value) && DriverInv(Step(w, t, a).value)
  {
    var n := Step(w, t, a).value;
    StepKeepsHandles(w, t, a);
    forall d | 0 <= d < |n.drivers| && !n.drivers[d].threadSafe
      ensures OneInside(n.places, n.gates, d, n.drivers[d].lock)
    {
      StepSameDrivers(w, t, a);
      StepMovesDriver(w, t, a, d);
      OneInsideMoves(w, n, t, d, w.drivers[d].lock, n.drivers[d].lock);
    }
  }

  lemma StepSameDrivers(w: World, t: nat, a: Action)
    requires WellFormed(w) && t < |w.places| && Step(w, t, a).Some?
    ensures |Step(w, t, a).value.drivers| == |w.drivers|
  {
  }

  // ---- Runs ----

  /** A run: who moves, and how. */
  type Move = (nat, Action)

  ghost predicate Runs(w: World, moves: seq<Move>, n: World)
    decreases |moves|
  {
    if moves == [] then n == w
    else
      && WellFormed(w) && moves[0].0 < |w.places| && Step(w, moves[0].0, moves[0].1).Some?
      && Runs(Step(w, moves[0].0, moves[0].1).value, moves[1..], n)
  }

  lemma StepInv(w: World, t: nat, a: Action)
    requires Inv(w) && t < |w.places| && Step(w, t, a).Some?
    ensures Inv(Step(w, t, a).value)
  {
    StepLockInv(w, t, a);
    StepFlagInv(w, t, a);
    StepDriverInv(w, t, a);
  }

  lemma {:induction false} RunInv(w: World, moves: seq<Move>, n: World)
    requires Inv(w) && Runs(w, moves, n)
    ensures Inv(n)
    decreases |moves|
  {
    if moves != [] {
      StepInv(w, moves[0].0, moves[0].1);
      RunInv(Step(w, moves[0].0, moves[0].1).value, moves[1..], n);
    }
  }

  /** However many threads take steps in whatever order, no two are inside calls on one handle, and no two
      are inside a driver that is not safe for threads. */
  lemma MutualExclusion(w: World, moves: seq<Move>, n: World, t: nat, u: nat)
    requires Initial(w) && Runs(w, moves, n) && t < |n.places| && u < |n.places| && t != u
    ensures forall h :: 0 <= h < |n.gates| && n.places[t].Owns(h) ==> !n.places[u].Owns(h)
    ensures forall d :: 0 <= d < |n.drivers| && !n.drivers[d].threadSafe && InsideOf(n.places, n.gates, t, d) ==>
              !InsideOf(n.places, n.gates, u, d)
    ensures n.places[t].HasLock() ==> !n.places[u].HasLock()
  {
    InitialInv(w);
    RunInv(w, moves, n);
    forall h | 0 <= h < |n.gates| && n.places[t].Owns(h) ensures !n.places[u].Owns(h) {
      assert OneOwner(n.places, h, n.gates[h].cip);
    }
    forall d | 0 <= d < |n.drivers| && !n.drivers[d].threadSafe && InsideOf(n.places, n.gates, t, d)
      ensures !InsideOf(n.places, n.gates, u, d)
    {
      assert OneInside(n.places, n.gates, d, n.drivers[d].lock);
    }
  }

  // ---- What others may do to a handle in a call ----

  predicate RejectsOn(p: Place, h: nat) {
    p.Rejecting? && p.h == h
  }

  predicate DropsOn(p: Place, h: nat) {
    p.Closing? && p.h == h && p.call.drops
  }

  // What a step from place p does to the gate of a handle that another thread is in a call on.
  function Disturbed(g: Gate, p: Place, h: nat): Gate {
    if RejectsOn(p, h) then g.(errs := Pushed(g.errs, FUNCTION_SEQUENCE))
    else if DropsOn(p, h) then Dropped(g)
    else g
  }

  // One step of another thread.
  lemma OthersStep(w: World, t: nat, u: nat, a: Action, h: nat)
    requires Inv(w) && t < |w.places| && u < |w.places| && t != u && h < |w.gates| && w.places[t].Owns(h)
    requires Step(w, u, a).Some?
    ensures var n := Step(w, u, a).value;
      && |n.places| == |w.places| && n.places[t] == w.places[t] && |n.gates| == |w.gates|
      && n.gates[h] == Disturbed(w.gates[h], w.places[u], h)
  {
    var p := w.places[u];
    assert OneOwner(w.places, h, w.gates[h].cip);
    assert !p.Owns(h);
    assert !(p.Setting? && p.h == h);
  }

  // How many of the moves are rejections on h.
  function Rejections(w: World, moves: seq<Move>, n: World, h: nat): nat
    requires Runs(w, moves, n)
    decreases |moves|
  {
    if moves == [] then 0
    else
      (if RejectsOn(w.places[moves[0].0], h) then 1 else 0)
      + Rejections(Step(w, moves[0].0, moves[0].1).value, moves[1..], n, h)
  }

  // Whether one of the moves ends a call on h that drops it.
  predicate SomeDrop(w: World, moves: seq<Move>, n: World, h: nat)
    requires Runs(w, moves, n)
    decreases |moves|
  {
    moves != [] &&
    (DropsOn(w.places[moves[0].0], h) || SomeDrop(Step(w, moves[0].0, moves[0].1).value, moves[1..], n, h))
  }

  function Copies(d: Diag, k: nat): (s: seq<Diag>)
    ensures |s| == k
  {
    if k == 0 then [] else [d] + Copies(d, k - 1)
  }

  // Once freed, a handle stays freed, and no call finds it any more.
  lemma {:induction false} FreedStays(w: World, moves: seq<Move>, n: World, t: nat, h: nat)
    requires Inv(w) && Runs(w, moves, n) && t < |w.places| && h < |w.gates| && w.places[t].Owns(h)
    requires !w.gates[h].valid && forall i :: 0 <= i < |moves| ==> moves[i].0 != t
    ensures t < |n.places| && n.places[t] == w.places[t] && h < |n.gates| && n.gates[h].cip && !n.gates[h].valid
    ensures n.gates[h].record == w.gates[h].record
    decreases |moves|
  {
    if moves == [] {
      assert OneOwner(w.places, h, w.gates[h].cip);
    } else {
      var (u, a) := moves[0];
      OthersStep(w, t, u, a, h);
      StepInv(w, u, a);
      FreedStays(Step(w, u, a).value, moves[1..], n, t, h);
    }
  }

  /** While a thread is in a call on a handle, whatever the others do leaves its place, the flag and the record alone.
      They leave the handle as it was, but for one function sequence error for each call they attempted on it,
      exactly if none of these calls was one that drops the handle; otherwise they have freed it. */
  lemma {:induction false} OthersOnlyPostErrorsIff(w: World, moves: seq<Move>, n: World, t: nat, h: nat)
    requires Inv(w) && Runs(w, moves, n) && t < |w.places| && h < |w.gates| && w.places[t].Owns(h)
    requires w.gates[h].valid && forall i :: 0 <= i < |moves| ==> moves[i].0 != t
    ensures t < |n.places| && n.places[t] == w.places[t] && h < |n.gates| && n.gates[h].cip
    ensures n.gates[h].record == w.gates[h].record
    ensures n.gates[h].valid <==> !SomeDrop(w, moves, n, h)
    ensures n.gates[h] ==
              w.gates[h].(errs := PushedAll(w.gates[h].errs, Copies(FUNCTION_SEQUENCE, Rejections(w, moves, n, h))))
            <==> !SomeDrop(w, moves, n, h)
    decreases |moves|
  {
    if moves == [] {
      assert OneOwner(w.places, h, w.gates[h].cip);
    } else {
      var (u, a) := moves[0];
      var m := Step(w, u, a).value;
      OthersStep(w, t, u, a, h);
      StepInv(w, u, a);
      if DropsOn(w.places[u], h) {
        FreedStays(m, moves[1..], n, t, h);
      } else {
        OthersOnlyPostErrorsIff(m, moves[1..], n, t, h);
        var k := Rejections(m, moves[1..], n, h);
        assert Copies(FUNCTION_SEQUENCE, k + 1)[1..] == Copies(FUNCTION_SEQUENCE, k);
      }
    }
  }

  // A dropping call from its start to its end.
  function DroppingCall(u: nat, h: nat, hold: bool): seq<Move> {
    [(u, Enter(h, Call(hold, true)))] + [(u, Go)] + [(u, Go)] + ([(u, Go)] + [(u, Go)])
  }

  // The thread is through, and has freed the handle.
  function Freed(w: World, u: nat, h: nat): World
    requires u < |w.places| && h < |w.gates|
  {
    World(w.places[u := Idle], None, w.gates[h := Dropped(w.gates[h])], w.drivers)
  }

  lemma SameUpdates(w: World, h: nat)
    requires WellFormed(w) && h < |w.gates|
    ensures w.gates[h := w.gates[h]] == w.gates
    ensures var d := w.gates[h].driver; w.drivers[d := w.drivers[d]] == w.drivers
  {
  }

  lemma FromRejecting(w: World, u: nat, h: nat, call: Call)
    requires WellFormed(w) && u < |w.places| && h < |w.gates| && w.places[u] == Rejecting(h, call)
    requires call.drops && w.gates[h].valid
    ensures Runs(w, [(u, Go)] + [(u, Go)], Freed(w, u, h))
  {
    var m := Step(w, u, Go).value;
    StepKeepsHandles(w, u, Go);
    SameUpdates(w, h);
    SameUpdates(m, h);
    assert m.places[u := Idle] == w.places[u := Idle];
    assert m.gates[h := Dropped(m.gates[h])] == w.gates[h := Dropped(w.gates[h])];
    OneMove(m, u, Go, Freed(w, u, h));
    MoveFirst(w, u, Go, m, [(u, Go)], Freed(w, u, h));
  }

  lemma FromTesting(w: World, u: nat, h: nat, call: Call)
    requires WellFormed(w) && u < |w.places| && h < |w.gates| && w.places[u] == Testing(h, call)
    requires call.drops && w.gates[h].valid && w.gates[h].cip
    ensures Runs(w, [(u, Go)] + ([(u, Go)] + [(u, Go)]), Freed(w, u, h))
  {
    var m := w.(places := w.places[u := Rejecting(h, call)]);
    SameUpdates(w, h);
    StepKeepsHandles(w, u, Go);
    FromRejecting(m, u, h, call);
    assert Freed(m, u, h) == Freed(w, u, h);
    MoveFirst(w, u, Go, m, [(u, Go)] + [(u, Go)], Freed(w, u, h));
  }

  lemma FromWaiting(w: World, u: nat, h: nat, call: Call)
    requires WellFormed(w) && u < |w.places| && h < |w.gates| && w.places[u] == WaitEnter(h, call)
    requires w.lock == None && call.drops && w.gates[h].valid && w.gates[h].cip
    ensures Runs(w, [(u, Go)] + ([(u, Go)] + ([(u, Go)] + [(u, Go)])), Freed(w, u, h))
  {
    var m := w.(places := w.places[u := Testing(h, call)], lock := Some(u));
    SameUpdates(w, h);
    StepKeepsHandles(w, u, Go);
    FromTesting(m, u, h, call);
    assert Freed(m, u, h) == Freed(w, u, h);
    MoveFirst(w, u, Go, m, [(u, Go)] + ([(u, Go)] + [(u, Go)]), Freed(w, u, h));
  }

  /** And this happens: whoever is in a call on a handle, another thread that is idle can free the handle under it, just
      by a dropping call that is rejected. */
  lemma RejectedDropFrees(w: World, t: nat, u: nat, h: nat, hold: bool)
    requires Inv(w) && t < |w.places| && h < |w.gates| && w.places[t].Owns(h) && w.gates[h].valid
    requires u < |w.places| && w.places[u] == Idle && w.lock == None
    ensures Runs(w, DroppingCall(u, h, hold), Freed(w, u, h))
    ensures Freed(w, u, h).places == w.places && !Freed(w, u, h).gates[h].valid
  {
    assert OneOwner(w.places, h, w.gates[h].cip);
    var call := Call(hold, true);
    var m := w.(places := w.places[u := WaitEnter(h, call)]);
    StepKeepsHandles(w, u, Enter(h, call));
    FromWaiting(m, u, h, call);
    assert Freed(m, u, h) == Freed(w, u, h);
    var rest := [(u, Go)] + ([(u, Go)] + ([(u, Go)] + [(u, Go)]));
    MoveFirst(w, u, Enter(h, call), m, rest, Freed(w, u, h));
    assert DroppingCall(u, h, hold) == [(u, Enter(h, call))] + rest;
  }

  lemma OneMove(w: World, u: nat, a: Action, n: World)
    requires WellFormed(w) && u < |w.places| && Step(w, u, a) == Some(n)
    ensures Runs(w, [(u, a)], n)
  {
    MoveFirst(w, u, a, n, [], n);
    assert [(u, a)] == [(u, a)] + [];
  }

  lemma MoveFirst(w: World, u: nat, a: Action, m: World, moves: seq<Move>, n: World)
    requires WellFormed(w) && u < |w.places| && Step(w, u, a) == Some(m) && Runs(m, moves, n)
    ensures Runs(w, [(u, a)] + moves, n)
  {
    assert ([(u, a)] + moves)[1..] == moves;
  }

  // ---- A call that nobody disturbs ----

  // What one thread does in one call, while the others stand still.
  function Through(t: nat, l: Local, actions: seq<Action>): Option<Local>
    decreases |actions|
  {
    if actions == [] then Some(l)
    else if l.place.Apart() then None
    else match CallStep(t, l, actions[0])
      case None => None
      case Some(n) => Through(t, n, actions[1..])
  }

  lemma ThroughOne(t: nat, l: Local, a: Action, rest: seq<Action>)
    requires !l.place.Apart() && CallStep(t, l, a).Some?
    ensures Through(t, l, [a] + rest) == Through(t, CallStep(t, l, a).value, rest)
  {
    assert ([a] + rest)[1..] == rest;
  }

  /** On its way in a call sets the flag, forgets the errors and the code of the one before, and frees the parameters of
      a statement that is not in an asynchronous call; it keeps the global lock only if it asked to. */
  lemma UndisturbedEntry(t: nat, h: nat, call: Call, g: Gate, d: Driver)
    requires g.valid && !g.cip
    ensures Through(t, Local(WaitEnter(h, call), None, g, d), [Go] + ([Go] + ([Go] + ([Go] + [])))) ==
            Some(Local(Body(h, call, call.hold), if call.hold then Some(t) else None,
                       Gate(true, g.driver, true, [],
                            Record(Success, 0, if g.record.async then g.record.insertedParams else 0, g.record.async,
                                   g.record.fields)),
                       d))
  {
    var l := Local(WaitEnter(h, call), None, g, d);
    var l1 := CallStep(t, l, Go).value;
    var l2 := CallStep(t, l1, Go).value;
    var l3 := CallStep(t, l2, Go).value;
    ThroughOne(t, l, Go, [Go] + ([Go] + ([Go] + [])));
    ThroughOne(t, l1, Go, [Go] + ([Go] + []));
    ThroughOne(t, l2, Go, [Go] + []);
    ThroughOne(t, l3, Go, []);
  }

  /** On its way into the driver it takes the driver's lock, if it has to ... */
  lemma UndisturbedDriverEntry(t: nat, h: nat, call: Call, locked: bool, lock: Option<nat>, g: Gate, d: Driver)
    requires d.lock == None
    ensures Through(t, Local(Body(h, call, locked), lock, g, d), [CallDriver] + ([Go] + [])) ==
            Some(Local(InDriver(h, call, locked), lock, g, Driver(d.threadSafe, if d.threadSafe then None else Some(t))))
  {
    var l := Local(Body(h, call, locked), lock, g, d);
    ThroughOne(t, l, CallDriver, [Go] + []);
    ThroughOne(t, CallStep(t, l, CallDriver).value, Go, []);
  }

  /** ... and gives it back, having kept the driver's code. */
  lemma UndisturbedDriverReturn(t: nat, h: nat, call: Call, locked: bool, lock: Option<nat>, g: Gate, safe: bool, rc: SqlReturn)
    ensures var d := Driver(safe, if safe then None else Some(t));
      Through(t, Local(InDriver(h, call, locked), lock, g, d), [Answer(rc)] + ([Go] + [])) ==
      Some(Local(Body(h, call, locked), lock,
                 Gate(g.valid, g.driver, g.cip, g.errs,
                      Record(rc, g.record.errRec, g.record.insertedParams, g.record.async, g.record.fields)),
                 Driver(safe, None)))
  {
    var l := Local(InDriver(h, call, locked), lock, g, Driver(safe, if safe then None else Some(t)));
    ThroughOne(t, l, Answer(rc), [Go] + []);
    ThroughOne(t, CallStep(t, l, Answer(rc)).value, Go, []);
  }

  // On its way out.
  function WayOut(hold: bool): seq<Action> {
    if hold then [Finish] + ([Go] + ([Go] + [])) else [Finish] + ([Go] + ([Go] + ([Go] + [])))
  }

  /** On its way out it clears the flag, drops the handle and its errors if it is such a call, and leaves both locks free. */
  lemma UndisturbedExit(t: nat, h: nat, call: Call, g: Gate, d: Driver)
    requires g.valid
    ensures Through(t, Local(Body(h, call, call.hold), if call.hold then Some(t) else None, g, d), WayOut(call.hold)) ==
            Some(Local(Idle, None,
                       Gate(!call.drops, g.driver, false, if call.drops then [] else g.errs, g.record),
                       d))
  {
    var l := Local(Body(h, call, call.hold), if call.hold then Some(t) else None, g, d);
    var l1 := CallStep(t, l, Finish).value;
    var l2 := CallStep(t, l1, Go).value;
    var l3 := CallStep(t, l2, Go).value;
    if call.hold {
      ThroughOne(t, l, Finish, [Go] + ([Go] + []));
      ThroughOne(t, l1, Go, [Go] + []);
      ThroughOne(t, l2, Go, []);
    } else {
      ThroughOne(t, l, Finish, [Go] + ([Go] + ([Go] + [])));
      ThroughOne(t, l1, Go, [Go] + ([Go] + []));
      ThroughOne(t, l2, Go, [Go] + []);
      ThroughOne(t, l3, Go, []);
    }
  }

  /** A caller that is turned away leaves one function sequence error; one that finds no handle leaves nothing. */
  lemma TurnedAway(t: nat, h: nat, hold: bool, g: Gate, d: Driver)
    requires g.valid ==> g.cip
    ensures var l := Local(WaitEnter(h, Call(hold, false)), None, g, d);
      if g.valid
      then Through(t, l, [Go] + ([Go] + ([Go] + ([Go] + [])))) ==
           Some(Local(Idle, None, Gate(true, g.driver, true, Pushed(g.errs, FUNCTION_SEQUENCE), g.record), d))
      else Through(t, l, [Go] + ([Go] + ([Go] + []))) == Some(Local(Idle, None, g, d))
  {
    var l := Local(WaitEnter(h, Call(hold, false)), None, g, d);
    var l1 := CallStep(t, l, Go).value;
    var l2 := CallStep(t, l1, Go).value;
    if g.valid {
      var l3 := CallStep(t, l2, Go).value;
      ThroughOne(t, l, Go, [Go] + ([Go] + ([Go] + [])));
      ThroughOne(t, l1, Go, [Go] + ([Go] + []));
      ThroughOne(t, l2, Go, [Go] + []);
      ThroughOne(t, l3, Go, []);
    } else {
      ThroughOne(t, l, Go, [Go] + ([Go] + []));
      ThroughOne(t, l1, Go, [Go] + []);
      ThroughOne(t, l2, Go, []);
    }
  }

  // ---- Progress ----

  // Some step that a thread at a place can take.
  function NextAction(p: Place): Action {
    if p.Idle? then EnterEnv else if p.Body? then CallDriver else if p.InDriver? then Answer(Success) else Go
  }

  predicate Waits(p: Place) {
    p.WaitEnter? || p.WaitEnv? || p.WaitRelock? || p.WaitLeave? || p.WaitDriver?
  }

  // The thread that the one at t is waiting for, or that thread itself.
  function WaitsFor(w: World, t: nat): nat
    requires WellFormed(w) && t < |w.places|
  {
    var p := w.places[t];
    if p.WaitDriver? then
      var d := w.drivers[w.gates[p.h].driver];
      if !d.threadSafe && d.lock.Some? then d.lock.value else t
    else if Waits(p) && w.lock.Some? then w.lock.value
    else t
  }

  lemma WaitIsShort(w: World, t: nat)
    requires Inv(w) && t < |w.places|
    ensures var u := WaitsFor(w, t); u < |w.places| && WaitsFor(w, u) < |w.places|
    ensures var v := WaitsFor(w, WaitsFor(w, t)); Step(w, v, NextAction(w.places[v])).Some?
  {
    var u := WaitsFor(w, t);
    WaitedFor(w, t);
    var v := WaitsFor(w, u);
    WaitedFor(w, u);
  }

  lemma WaitedFor(w: World, t: nat)
    requires Inv(w) && t < |w.places|
    ensures var u := WaitsFor(w, t);
      && u < |w.places|
      && (u == t ==> Step(w, t, NextAction(w.places[t])).Some?)
      && (u != t ==> w.places[u].HasLock() || w.places[u].Inside())
      && (u != t && w.places[t].WaitDriver? ==> w.places[u].Inside())
  {
    var p := w.places[t];
    if p.WaitDriver? {
      var d := w.gates[p.h].driver;
      if !w.drivers[d].threadSafe {
        assert OneInside(w.places, w.gates, d, w.drivers[d].lock);
      }
    }
  }

  /** No reachable state is stuck: every thread can move, or the one it waits for can, or the one which that
      one waits for; and who is waited for is in a call. */
  lemma NeverStuck(w: World, moves: seq<Move>, n: World, t: nat)
    requires Initial(w) && Runs(w, moves, n) && t < |n.places|
    ensures WellFormed(n) && WaitsFor(n, t) < |n.places|
    ensures var v := WaitsFor(n, WaitsFor(n, t));
      v < |n.places| && Step(n, v, NextAction(n.places[v])).Some? && (v == t || !n.places[v].Idle?)
  {
    InitialInv(w);
    RunInv(w, moves, n);
    WaitIsShort(n, t);
    WaitedFor(n, t);
    WaitedFor(n, WaitsFor(n, t));
  }

  /** A caller that finds a valid handle is turned away exactly when another thread is in a call on it. */
  lemma RejectedIffInCall(w: World, moves: seq<Move>, n: World, t: nat, a: Action)
    requires Initial(w) && Runs(w, moves, n) && t < |n.places| && n.places[t].Testing?
    ensures var h := n.places[t].h;
      && WellFormed(n) && h < |n.gates| && Step(n, t, a).Some?
      && (Step(n, t, a).value.places[t].Rejecting? <==>
          n.gates[h].valid && exists u :: 0 <= u < |n.places| && u != t && n.places[u].Owns(h))
  {
    InitialInv(w);
    RunInv(w, moves, n);
    var h := n.places[t].h;
    assert OneOwner(n.places, h, n.gates[h].cip);
    assert !n.places[t].Owns(h);
  }

  lemma InitialInv(w: World)
    requires Initial(w)
    ensures Inv(w)
  {
  }
}
