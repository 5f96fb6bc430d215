/** The diagnostic records of a handle: a linked list, newest first, whose nodes carry their index and
    which holds at most 64 records. SQLError reads it from the top and removes what it reads;
    SQLGetDiagRec reads it by number. Both go on to the records of the driver. */
module Diagnostics {
  import opened Codes

  datatype Diag = Diag(code: nat, message: string)

  const MAX_RECORDS: nat := 64

  // ---- Specification ----

  /** What a push makes of a stack, newest first. */
  function Pushed(s: seq<Diag>, d: Diag): seq<Diag> {
    if |s| == MAX_RECORDS then [d] + s[1..] else [d] + s
  }

  function PushedAll(s: seq<Diag>, ds: seq<Diag>): seq<Diag>
    decreases |ds|
  {
    if ds == [] then s else PushedAll(Pushed(s, ds[0]), ds[1..])
  }

  function OldestFirst(s: seq<Diag>): (r: seq<Diag>)
    ensures |r| == |s|
  {
    if s == [] then [] else OldestFirst(s[1..]) + [s[0]]
  }

  /** What is kept of pushes onto an empty stack: the first 64, the last of them overwritten by the latest. */
  function Kept(ds: seq<Diag>): seq<Diag> {
    if |ds| <= MAX_RECORDS then ds else ds[..MAX_RECORDS - 1] + [ds[|ds| - 1]]
  }

  lemma {:induction false} OldestFirstAt(s: seq<Diag>, k: nat)
    requires k < |s|
    ensures OldestFirst(s)[k] == s[|s| - 1 - k]
  {
    if k < |s| - 1 {
      OldestFirstAt(s[1..], k);
    }
  }

  lemma PushedKeeps(ds: seq<Diag>, s: seq<Diag>, d: Diag)
    requires OldestFirst(s) == Kept(ds)
    ensures OldestFirst(Pushed(s, d)) == Kept(ds + [d])
  {
    var r := Pushed(s, d);
    assert r[0] == d;
    if |s| == MAX_RECORDS {
      assert r[1..] == s[1..];
      assert OldestFirst(r) == OldestFirst(s[1..]) + [d];
      assert OldestFirst(s[1..]) == OldestFirst(s)[..MAX_RECORDS - 1];
    } else {
      assert r[1..] == s;
    }
  }

  lemma {:induction false} PushedAllSnoc(s: seq<Diag>, ds: seq<Diag>, d: Diag)
    ensures PushedAll(s, ds + [d]) == Pushed(PushedAll(s, ds), d)
    decreases |ds|
  {
    if ds == [] {
      assert ds + [d] == [d] && PushedAll(Pushed(s, d), [d][1..]) == Pushed(s, d);
    } else {
      assert (ds + [d])[1..] == ds[1..] + [d];
      PushedAllSnoc(Pushed(s, ds[0]), ds[1..], d);
    }
  }

  /** After any pushes onto an empty stack, the records, oldest first, are those that are kept. */
  lemma {:induction false} PushesKeepFirstAndLast(ds: seq<Diag>)
    ensures OldestFirst(PushedAll([], ds)) == Kept(ds)
    decreases |ds|
  {
    if ds != [] {
      var n := |ds| - 1;
      assert ds == ds[..n] + [ds[n]];
      PushesKeepFirstAndLast(ds[..n]);
      PushedAllSnoc([], ds[..n], ds[n]);
      PushedKeeps(ds[..n], PushedAll([], ds[..n]), ds[n]);
    }
  }

  // ---- Reading ----

  datatype Kind = EnvHandle | DbcHandle | StmtHandle | DescHandle

  /** What a read sees beside the records: the connection of the handle, if it has one, and which entry
      points and versions that connection's driver has. */
  datatype Peer = Peer(
    kind: Kind,
    connected: bool,
    attached: bool,
    appIsOdbc2: bool,
    driverIsOdbc2: bool,
    driverIsOdbc3: bool,
    hasError: bool,
    hasGetDiagRec: bool)
  {
    predicate UsesGetDiagRec() {
      hasGetDiagRec && !(appIsOdbc2 && (driverIsOdbc2 || (driverIsOdbc3 && hasError)))
    }
  }

  /** Where a read is answered from. */
  datatype Reading = Own(diag: Diag) | DriverRecord(number: int) | DriverError | Refused(code: SqlReturn)

  datatype Records = Records(errs: seq<Diag>, errRec: int)

  // The value that a signed short takes.
  function Short(n: int): (r: int)
    ensures -0x8000 <= r <= 0x7FFF && (-0x8000 <= n <= 0x7FFF ==> r == n)
  {
    (n + 0x8000) % 0x1_0000 - 0x8000
  }

  function SqlErrorReads(r: Records, p: Peer, badLength: bool, delete: bool): (Records, Reading) {
    if p.kind == DescHandle then (r, Refused(InvalidHandle))
    else if p.kind == StmtHandle && !p.connected then (r, Refused(InvalidHandle))
    else if r.errs == [] && (p.kind == EnvHandle || (p.kind == DbcHandle && !p.attached)) then (r, Refused(NoData))
    else if badLength then (r, Refused(Error))
    else if r.errs != [] then (r.(errs := if delete then r.errs[1..] else r.errs), Own(r.errs[0]))
    else if p.UsesGetDiagRec() then (r.(errRec := Short(r.errRec + 1)), DriverRecord(Short(r.errRec + 1)))
    else (r, if p.hasError then DriverError else Refused(NoData))
  }

  function DiagRecReads(errs: seq<Diag>, p: Peer, number: int, badLength: bool): Reading {
    if number < 1 || badLength then Refused(Error)
    else if number <= |errs| then Own(errs[|errs| - number])
    else if p.kind == EnvHandle || !p.connected then Refused(NoData)
    else if p.UsesGetDiagRec() then DriverRecord(number - |errs|)
    else if !p.hasError then Refused(Error)
    else if number - |errs| > 1 || p.kind == DescHandle then Refused(NoData)
    else DriverError
  }

  /** A driver is asked by SQLGetDiagRec if it has it, but for an ODBC 2 application only if it is a driver of neither
      version, or one of version 3 without SQLError. */
  lemma DriverChoice(p: Peer)
    ensures !p.hasGetDiagRec ==> !p.UsesGetDiagRec()
    ensures p.hasGetDiagRec && !p.appIsOdbc2 ==> p.UsesGetDiagRec()
    ensures p.hasGetDiagRec && p.appIsOdbc2 && p.driverIsOdbc2 ==> !p.UsesGetDiagRec()
    ensures p.hasGetDiagRec && p.appIsOdbc2 && !p.driverIsOdbc2 ==> (p.UsesGetDiagRec() <==> !p.driverIsOdbc3 || !p.hasError)
  {
  }

  /** Which numbers SQLGetDiagRec answers how: the driver manager's own records first, then the driver's; a driver that can
      only be asked by SQLError has just one more. */
  lemma DiagRecAnswers(errs: seq<Diag>, p: Peer, number: int, badLength: bool)
    ensures var r, n := DiagRecReads(errs, p, number, badLength), |errs|;
      var legal, theirs := number >= 1 && !badLength, p.kind != EnvHandle && p.connected;
      && (legal && number <= n <==> r.Own?) && (r.Own? ==> r.diag == errs[n - number])
      && (r.DriverRecord? <==> legal && number > n && theirs && p.UsesGetDiagRec())
      && (r.DriverRecord? ==> r.number == number - n)
      && (r == DriverError <==>
            legal && number == n + 1 && theirs && !p.UsesGetDiagRec() && p.hasError && p.kind != DescHandle)
      && (r == Refused(Error) <==> !legal || (number > n && theirs && !p.UsesGetDiagRec() && !p.hasError))
      && (r == Refused(NoData) <==>
            legal && number > n &&
            (!theirs || (!p.UsesGetDiagRec() && p.hasError && (number > n + 1 || p.kind == DescHandle))))
  {
  }

  /** How SQLError answers, and what it leaves: its own newest record, which it takes away if it is to; without one, the
      driver's next; and neither for what is no handle or has no driver. */
  lemma SqlErrorAnswers(r: Records, p: Peer, badLength: bool, delete: bool)
    ensures var (s, reading) := SqlErrorReads(r, p, badLength, delete);
      var handle := p.kind == EnvHandle || p.kind == DbcHandle || (p.kind == StmtHandle && p.connected);
      var driven := p.kind == StmtHandle || (p.kind == DbcHandle && p.attached);
      && (reading == Refused(InvalidHandle) <==> !handle)
      && (reading.Own? <==> handle && r.errs != [] && !badLength) && (reading.Own? ==> reading.diag == r.errs[0])
      && (reading == Refused(Error) <==> handle && badLength && (r.errs != [] || driven))
      && (reading.DriverRecord? <==> handle && r.errs == [] && driven && !badLength && p.UsesGetDiagRec())
      && (reading.DriverRecord? ==> reading.number == Short(r.errRec + 1))
      && (reading == DriverError <==> handle && r.errs == [] && driven && !badLength && !p.UsesGetDiagRec() && p.hasError)
      && (reading == Refused(NoData) <==>
            handle && r.errs == [] && (!driven || (!badLength && !p.UsesGetDiagRec() && !p.hasError)))
      && s.errs == (if reading.Own? && delete then r.errs[1..] else r.errs)
      && s.errRec == (if reading.DriverRecord? then Short(r.errRec + 1) else r.errRec)
  {
  }

  /** The readings of k calls of SQLError in a row. */
  function Drained(r: Records, p: Peer, k: nat): (rs: seq<Reading>)
    ensures |rs| == k
    decreases k
  {
    if k == 0 then []
    else
      var (next, reading) := SqlErrorReads(r, p, false, true);
      [reading] + Drained(next, p, k - 1)
  }

  predicate HasDriver(p: Peer) {
    p.kind in {DbcHandle, StmtHandle} && p.connected && p.attached
  }

  lemma ShortAgain(m: int, k: int)
    ensures Short(Short(m) + k) == Short(m + k)
  {
    assert (Short(m) + k + 0x8000) - (m + k + 0x8000) == ((m + 0x8000) % 0x1_0000) - (m + 0x8000);
  }

  // One read of SQLError, with a driver behind it.
  lemma ReadsOne(r: Records, p: Peer)
    requires HasDriver(p)
    ensures SqlErrorReads(r, p, false, true) ==
      if r.errs != [] then (r.(errs := r.errs[1..]), Own(r.errs[0]))
      else if p.UsesGetDiagRec() then (r.(errRec := Short(r.errRec + 1)), DriverRecord(Short(r.errRec + 1)))
      else (r, if p.hasError then DriverError else Refused(NoData))
  {
  }

  lemma {:induction false} DrainedAt(r: Records, p: Peer, k: nat, i: nat)
    requires i < k && HasDriver(p)
    ensures var n := |r.errs|;
      Drained(r, p, k)[i] ==
        if i < n then Own(r.errs[i])
        else if p.UsesGetDiagRec() then DriverRecord(Short(r.errRec + i - n + 1))
        else if p.hasError then DriverError
        else Refused(NoData)
    decreases k
  {
    ReadsOne(r, p);
    if i > 0 {
      var next := SqlErrorReads(r, p, false, true).0;
      DrainedAt(next, p, k - 1, i - 1);
      assert Drained(r, p, k)[i] == Drained(next, p, k - 1)[i - 1];
      ShortAgain(r.errRec + 1, i);
    }
  }

  // A handle that SQLError reads.
  predicate Readable(p: Peer) {
    p.kind != DescHandle && (p.kind == StmtHandle ==> p.connected)
  }

  lemma {:induction false} DrainedOwn(r: Records, p: Peer, k: nat, i: nat)
    requires i < k && i < |r.errs| && Readable(p)
    ensures Drained(r, p, k)[i] == Own(r.errs[i])
    decreases k
  {
    if i > 0 {
      DrainedOwn(r.(errs := r.errs[1..]), p, k - 1, i - 1);
    }
  }

  /** Draining the records with SQLError gives what SQLGetDiagRec gives for the numbers n down to 1; the numbered
      reads give the oldest first. */
  lemma DrainReversesDiagRecs(r: Records, p: Peer, k: nat, i: nat)
    requires i < k && i < |r.errs| && Readable(p)
    ensures Drained(r, p, k)[i] == DiagRecReads(r.errs, p, |r.errs| - i, false)
    ensures DiagRecReads(r.errs, p, i + 1, false) == Own(OldestFirst(r.errs)[i])
  {
    DrainedOwn(r, p, k, i);
    OldestFirstAt(r.errs, i);
  }

  /** After the records of the driver manager, both give the driver's records 1, 2 and so on, until SQLError's
      counter, a signed short, wraps. */
  lemma BothContinueWithDriver(errs: seq<Diag>, p: Peer, k: nat, i: nat)
    requires |errs| <= i < k && HasDriver(p) && p.UsesGetDiagRec()
    ensures DiagRecReads(errs, p, i + 1, false) == DriverRecord(i + 1 - |errs|)
    ensures Drained(Records(errs, 0), p, k)[i] == DiagRecReads(errs, p, i + 1, false) <==> i + 1 - |errs| <= 0x7FFF
  {
    DrainedAt(Records(errs, 0), p, k, i);
  }

  // ---- The list ----

  class SqlErr {
    var diag: Diag
    var idx: int
    var next: SqlErr?
    ghost var repr: set<object>
    ghost var contents: seq<Diag>

    ghost predicate Valid()
      reads this, repr
    {
      && this in repr && |contents| > 0 && contents[0] == diag && idx == |contents| - 1
      && (next == null ==> |contents| == 1)
      && (next != null ==>
            && next in repr && next.repr <= repr && this !in next.repr && next.Valid()
            && contents[1..] == next.contents)
    }

    constructor (diag: Diag, idx: int, next: SqlErr?)
      requires next != null ==> next.Valid()
      requires idx == if next == null then 0 else next.idx + 1
      ensures Valid() && this.diag == diag && this.idx == idx && this.next == next
      ensures contents == [diag] + if next == null then [] else next.contents
      ensures repr == {this} + if next == null then {} else next.repr
    {
      this.diag, this.idx, this.next := diag, idx, next;
      repr := {this} + if next == null then {} else next.repr;
      contents := [diag] + if next == null then [] else next.contents;
    }

    /** Replaces the record that a node holds. */
    method Overwrite(d: Diag)
      requires Valid()
      modifies this
      ensures Valid() && contents == [d] + old(contents)[1..] && repr == old(repr) && next == old(next)
    {
      diag := d;
      contents := [d] + contents[1..];
    }
  }

  ghost function Contents(herr: SqlErr?): seq<Diag>
    reads herr
  {
    if herr == null then [] else herr.contents
  }

  /** A handle, as far as diagnostics go. */
  class Diagnosed {
    var herr: SqlErr?
    var rc: SqlReturn
    var errRec: int

    ghost predicate Valid()
      reads this, herr, if herr == null then {} else herr.repr
    {
      && (herr != null ==> herr.Valid() && this !in herr.repr)
      && |Contents(herr)| <= MAX_RECORDS
    }

    ghost function State(): Records
      reads this, herr
    {
      Records(Contents(herr), errRec)
    }

    constructor ()
      ensures Valid() && State() == Records([], 0)
    {
      herr, rc, errRec := null, Success, 0;
    }

    method Push(d: Diag)
      requires Valid()
      modifies this, herr
      ensures Valid() && State() == Records(Pushed(old(State()).errs, d), old(errRec)) && rc == old(rc)
    {
      var idx := 0;
      if herr != null {
        idx := herr.idx + 1;
      }
      if idx == 64 {
        herr.Overwrite(d);
        return;
      }
      herr := new SqlErr(d, idx, herr);
    }

    method Pop()
      requires Valid()
      modifies this
      ensures Valid() && errRec == old(errRec) && rc == old(rc)
      ensures State().errs == if old(herr) == null then [] else old(State()).errs[1..]
    {
      if herr == null {
        return;
      }
      herr := herr.next;
    }

    /** CLEAR_ERRORS. */
    method Clear()
      requires Valid()
      modifies this
      ensures Valid() && State() == Records([], 0) && rc == Success
    {
      while herr != null
        invariant Valid()
        decreases |Contents(herr)|
      {
        Pop();
      }
      rc, errRec := Success, 0;
    }

    method RecCount() returns (n: int)
      requires Valid()
      ensures n == |State().errs|
    {
      n := if herr != null then herr.idx + 1 else 0;
    }

    /** The record whose index is n. */
    method GetNth(n: int) returns (err: SqlErr?)
      requires Valid()
      ensures err == null <==> !(0 <= n < |State().errs|)
      ensures err != null ==> err.diag == State().errs[|State().errs| - 1 - n]
    {
      err := herr;
      ghost var all, j := Contents(herr), 0;
      while err != null && err.idx != n
        invariant j <= |all| && all[j..] == Contents(err) && (err != null ==> err.Valid())
        invariant n < |all| ==> n < |all| - j || n < 0
        decreases |all| - j
      {
        err := err.next;
        j := j + 1;
      }
    }

    method SqlError(p: Peer, badLength: bool, delete: bool) returns (reading: Reading)
      requires Valid()
      modifies this
      ensures Valid() && rc == old(rc)
      ensures (State(), reading) == SqlErrorReads(old(State()), p, badLength, delete)
    {
      var list := herr;
      if p.kind == StmtHandle {
        if !p.connected {
          return Refused(InvalidHandle);
        }
      } else if p.kind == DbcHandle {
        if list == null && !p.attached {
          return Refused(NoData);
        }
      } else if p.kind == EnvHandle {
        if list == null {
          return Refused(NoData);
        }
      } else {
        return Refused(InvalidHandle);
      }
      if badLength {
        return Refused(Error);
      }
      if list == null {
        if p.UsesGetDiagRec() {
          errRec := Short(errRec + 1);
          return DriverRecord(errRec);
        }
        if !p.hasError {
          return Refused(NoData);
        }
        return DriverError;
      }
      reading := Own(list.diag);
      if delete {
        Pop();
      }
    }

    method SqlGetDiagRec(p: Peer, number: int, badLength: bool) returns (reading: Reading)
      requires Valid()
      ensures reading == DiagRecReads(State().errs, p, number, badLength)
    {
      if number < 1 {
        return Refused(Error);
      }
      if badLength {
        return Refused(Error);
      }
      var nRecs := RecCount();
      if nRecs >= number {
        var err := GetNth(number - 1);
        if err == null {
          return Refused(NoData);
        }
        return Own(err.diag);
      }
      if p.kind == EnvHandle || !p.connected {
        return Refused(NoData);
      }
      var left := number - nRecs;
      if p.UsesGetDiagRec() {
        return DriverRecord(left);
      }
      if !p.hasError {
        return Refused(Error);
      }
      if left > 1 || p.kind == DescHandle {
        return Refused(NoData);
      }
      return DriverError;
    }
  }
}
