/** Merging the entries of a file data source into those of a connection string, and the connection string
    that the merge emits. */
module FileDsn {
  import opened Codes
  import opened Names
  import opened ConnString
  import opened Splitter
  import opened ConfigText
  import opened ConfigPrint

  // ---- Entries by name ----

  // The position of the first entry of that name, or the length.
  function Find(es: seq<Entry>, id: string): (n: nat)
    ensures n <= |es|
  {
    if es == [] || SameName(es[0].key, id) then 0 else 1 + Find(es[1..], id)
  }

  function Lookup(es: seq<Entry>, id: string): Option<string> {
    var n := Find(es, id);
    if n < |es| then Some(es[n].value) else None
  }

  function Written(es: seq<Entry>, id: string, value: string): seq<Entry> {
    var n := Find(es, id);
    if n < |es| then es[n := es[n].(value := value)] else es + [Entry(id, value)]
  }

  function Deleted(es: seq<Entry>, id: string): seq<Entry> {
    var n := Find(es, id);
    if n < |es| then es[..n] + es[n + 1..] else es
  }

  ghost predicate Unique(es: seq<Entry>) {
    forall i, j :: 0 <= i < j < |es| ==> !SameName(es[i].key, es[j].key)
  }

  lemma {:induction false} FindIs(es: seq<Entry>, id: string, n: nat)
    requires n <= |es| && forall i :: 0 <= i < n ==> !SameName(es[i].key, id)
    requires n < |es| ==> SameName(es[n].key, id)
    ensures Find(es, id) == n
  {
    if n > 0 {
      FindIs(es[1..], id, n - 1);
    }
  }

  lemma {:induction false} FindFinds(es: seq<Entry>, id: string)
    ensures var n := Find(es, id);
      && (forall i :: 0 <= i < n ==> !SameName(es[i].key, id)) && (n < |es| ==> SameName(es[n].key, id))
  {
    if es != [] && !SameName(es[0].key, id) {
      FindFinds(es[1..], id);
      forall i | 0 <= i < Find(es, id) ensures !SameName(es[i].key, id) {
        if i > 0 {
          assert es[i] == es[1..][i - 1];
        }
      }
    }
  }

  lemma LookupWritten(es: seq<Entry>, id: string, value: string, k: string)
    ensures Lookup(Written(es, id, value), k) == if SameName(k, id) then Some(value) else Lookup(es, k)
  {
    var r, n, m := Written(es, id, value), Find(es, id), Find(es, k);
    FindFinds(es, id);
    FindFinds(es, k);
    if SameName(k, id) {
      FindIs(r, k, n);
    } else if m < |es| || n < |es| {
      FindIs(r, k, m);
    } else {
      FindIs(r, k, m + 1);
    }
  }

  lemma UniqueWritten(es: seq<Entry>, id: string, value: string)
    requires Unique(es)
    ensures Unique(Written(es, id, value))
  {
    FindFinds(es, id);
  }

  lemma LookupDeleted(es: seq<Entry>, id: string, k: string)
    requires Unique(es)
    ensures Unique(Deleted(es, id))
    ensures Lookup(Deleted(es, id), k) == if SameName(k, id) then None else Lookup(es, k)
  {
    FindFinds(es, id);
    FindFinds(es, k);
    if Find(es, id) < |es| {
      LookupRemoved(es, Find(es, id), k);
    }
  }

  lemma LookupRemoved(es: seq<Entry>, n: nat, k: string)
    requires Unique(es) && n < |es|
    ensures var r := es[..n] + es[n + 1..];
      Unique(r) && Lookup(r, k) == if SameName(k, es[n].key) then None else Lookup(es, k)
  {
    var r, m := es[..n] + es[n + 1..], Find(es, k);
    RemovedAt(es, n);
    FindFinds(es, k);
    if SameName(k, es[n].key) {
      forall i | 0 <= i < |r| ensures !SameName(r[i].key, k) {
        var j := if i < n then i else i + 1;
        assert r[i] == es[j] && !SameName(es[j].key, es[n].key);
      }
      FindIs(r, k, |r|);
    } else {
      FindIs(r, k, if n < m then m - 1 else m);
    }
  }

  lemma RemovedAt(es: seq<Entry>, n: nat)
    requires Unique(es) && n < |es|
    ensures var r := es[..n] + es[n + 1..];
      Unique(r) && forall i :: 0 <= i < |r| ==> r[i] == es[if i < n then i else i + 1]
  {
  }

  // ---- The merge ----

  /** Whether the entries of the connection string go before those of the file: if the file names no driver,
      or the same one. */
  predicate Override(conn: seq<Entry>, file: seq<Entry>) {
    var driver := Lookup(file, "DRIVER");
    driver in {None, Some("")} ||
    (Lookup(conn, "DRIVER").Some? && SameName(driver.value, Lookup(conn, "DRIVER").value))
  }

  function Added(es: seq<Entry>, e: Entry, override: bool): seq<Entry> {
    if (override || SameName(e.key, "DRIVER")) && Lookup(es, e.key).Some? then es else Written(es, e.key, e.value)
  }

  // What the file says of a key is what its first entry of that name says.
  function ReadFile(file: seq<Entry>, id: string): string {
    var value := Lookup(file, id);
    if value.Some? then value.value else ""
  }

  // The first n keys of the file's list have been added.
  function AddedUpTo(es: seq<Entry>, file: seq<Entry>, n: nat, override: bool): seq<Entry>
    requires n <= |file|
  {
    if n == 0 then es
    else
      var id := file[n - 1].key;
      Added(AddedUpTo(es, file, n - 1, override), Entry(id, ReadFile(file, id)), override)
  }

  function AddedAll(es: seq<Entry>, file: seq<Entry>, override: bool): seq<Entry> {
    AddedUpTo(es, file, |file|, override)
  }

  /** The merged entries, the driver still among them. */
  function Merged(conn: seq<Entry>, file: seq<Entry>): seq<Entry> {
    Deleted(AddedAll(Deleted(conn, "DSN"), file, Override(conn, file)), "FILEDSN")
  }

  function DriverOf(es: seq<Entry>): string {
    var driver := Lookup(es, "DRIVER");
    if driver.Some? then driver.value else ""
  }

  /** The connection string that is emitted: the driver first. */
  function Emitted(es: seq<Entry>): string {
    "DRIVER=" + DriverOf(es) + ";" + Print(Deleted(es, "DRIVER"))
  }

  // Whether one of the first n keys of the file is of that name.
  predicate Listed(file: seq<Entry>, n: nat, k: string)
    requires n <= |file|
  {
    exists i :: 0 <= i < n && SameName(file[i].key, k)
  }

  lemma {:induction false} AddedUpToUnique(es: seq<Entry>, file: seq<Entry>, n: nat, override: bool)
    requires Unique(es) && n <= |file|
    ensures Unique(AddedUpTo(es, file, n, override))
  {
    if n > 0 {
      AddedUpToUnique(es, file, n - 1, override);
      UniqueWritten(AddedUpTo(es, file, n - 1, override), file[n - 1].key, ReadFile(file, file[n - 1].key));
    }
  }

  lemma {:induction false} AddedUpToLooks(es: seq<Entry>, file: seq<Entry>, n: nat, override: bool, k: string)
    requires n <= |file|
    ensures Lookup(AddedUpTo(es, file, n, override), k) ==
            if !Listed(file, n, k) then Lookup(es, k)
            else if (override || SameName(k, "DRIVER")) && Lookup(es, k).Some? then Lookup(es, k)
            else Some(ReadFile(file, k))
  {
    if n > 0 {
      var before, id := AddedUpTo(es, file, n - 1, override), file[n - 1].key;
      AddedUpToLooks(es, file, n - 1, override, k);
      AddedUpToLooks(es, file, n - 1, override, id);
      SameLooks(es, id, k);
      AddedLooks(before, Entry(id, ReadFile(file, id)), override, k);
      if SameName(id, k) {
        assert Listed(file, n, k);
        SameLooks(file, id, k);
      } else {
        ListedBefore(file, n, k);
      }
    }
  }

  lemma AddedLooks(es: seq<Entry>, e: Entry, override: bool, k: string)
    ensures Lookup(Added(es, e, override), k) ==
            if !SameName(e.key, k) || ((override || SameName(k, "DRIVER")) && Lookup(es, k).Some?) then Lookup(es, k)
            else Some(e.value)
  {
    LookupWritten(es, e.key, e.value, k);
    SameLooks(es, e.key, k);
  }

  lemma ListedBefore(file: seq<Entry>, n: nat, k: string)
    requires 0 < n <= |file| && !SameName(file[n - 1].key, k)
    ensures Listed(file, n, k) <==> Listed(file, n - 1, k)
  {
  }

  lemma ListedIsFound(file: seq<Entry>, k: string)
    ensures Listed(file, |file|, k) <==> Lookup(file, k).Some?
  {
    FindFinds(file, k);
  }

  lemma {:induction false} SameLooks(es: seq<Entry>, j: string, k: string)
    ensures SameName(j, k) ==> Lookup(es, j) == Lookup(es, k)
  {
    FindFinds(es, j);
    if SameName(j, k) {
      FindIs(es, k, Find(es, j));
    }
  }

  /** What every key of the merge means: FILEDSN is gone, and so is the connection string's DSN; a driver in the
      connection string wins; for any other key in both the connection string wins exactly if the file names no driver,
      or an empty one, or the connection string's, up to case. */
  lemma MergedLooks(conn: seq<Entry>, file: seq<Entry>, k: string)
    requires Unique(conn)
    ensures Unique(Merged(conn, file))
    ensures var c := if SameName(k, "DSN") then None else Lookup(conn, k);
      Lookup(Merged(conn, file), k) ==
        if SameName(k, "FILEDSN") then None
        else if Lookup(file, k).None? then c
        else if c.None? then Lookup(file, k)
        else if SameName(k, "DRIVER") then c
        else
          var ours, theirs := Lookup(conn, "DRIVER"), Lookup(file, "DRIVER");
          if theirs == None || theirs.value == "" || (ours.Some? && SameName(ours.value, theirs.value)) then c
          else Lookup(file, k)
  {
    var es := Deleted(conn, "DSN");
    LookupDeleted(conn, "DSN", k);
    AddedUpToUnique(es, file, |file|, Override(conn, file));
    AddedUpToLooks(es, file, |file|, Override(conn, file), k);
    ListedIsFound(file, k);
    LookupDeleted(AddedAll(es, file, Override(conn, file)), "FILEDSN", k);
  }

  /** A merge changes values in place, and keeps the order: first what the connection string had, then what only the file
      has, in the file's order. */
  lemma WrittenInPlace(es: seq<Entry>, id: string, value: string)
    ensures var r, n := Written(es, id, value), Find(es, id);
      && |r| == (if n < |es| then |es| else |es| + 1)
      && (forall i :: 0 <= i < |es| && i != n ==> r[i] == es[i])
      && r[n] == Entry(if n < |es| then es[n].key else id, value)
  {
  }

  lemma DeletedInPlace(es: seq<Entry>, id: string)
    ensures var r, n := Deleted(es, id), Find(es, id);
      && (n == |es| ==> r == es)
      && (n < |es| ==> |r| == |es| - 1 && r[..n] == es[..n] && forall i :: n <= i < |r| ==> r[i] == es[i + 1])
  {
  }

  // ---- The emitted string ----

  predicate IsPlain(e: Entry) {
    '=' !in e.key && ';' !in e.key && '{' !in e.key && Whole(e.value)
  }

  predicate AllPlain(es: seq<Entry>) {
    forall i :: 0 <= i < |es| ==> IsPlain(es[i])
  }

  lemma WrittenPlain(es: seq<Entry>, e: Entry)
    requires AllPlain(es) && IsPlain(e)
    ensures AllPlain(Written(es, e.key, e.value))
  {
    var r, n := Written(es, e.key, e.value), Find(es, e.key);
    forall i | 0 <= i < |r| ensures IsPlain(r[i]) {
      if i < |es| && i != n {
        assert r[i] == es[i];
      } else if n < |es| {
        assert IsPlain(es[n]);
      }
    }
  }

  lemma {:induction false} AddedUpToPlain(es: seq<Entry>, file: seq<Entry>, n: nat, override: bool)
    requires AllPlain(es) && AllPlain(file) && n <= |file|
    ensures AllPlain(AddedUpTo(es, file, n, override))
  {
    if n > 0 {
      AddedUpToPlain(es, file, n - 1, override);
      var id := file[n - 1].key;
      var i := Find(file, id);
      assert i < |file| ==> IsPlain(file[i]);
      assert IsPlain(file[n - 1]);
      EmptyIsWhole();
      WrittenPlain(AddedUpTo(es, file, n - 1, override), Entry(id, ReadFile(file, id)));
    }
  }

  lemma MergedPlain(conn: seq<Entry>, file: seq<Entry>)
    requires AllPlain(conn) && AllPlain(file)
    ensures AllPlain(Merged(conn, file))
  {
    AddedUpToPlain(Deleted(conn, "DSN"), file, |file|, Override(conn, file));
  }

  lemma EmptyIsWhole()
    ensures Whole("")
  {
  }

  // The driver, as the emitted string has it.
  lemma DriverPlain(es: seq<Entry>)
    requires AllPlain(es)
    ensures IsPlain(Entry("DRIVER", DriverOf(es)))
  {
    EmptyIsWhole();
  }

  lemma ParseEmitted(es: seq<Entry>)
    requires AllPlain(es)
    ensures Parse(Emitted(es)) == [Entry("DRIVER", DriverOf(es))] + Deleted(es, "DRIVER")
  {
    var driver, rest := Entry("DRIVER", DriverOf(es)), Deleted(es, "DRIVER");
    DriverPlain(es);
    assert Emitted(es) == Text(driver) + ";" + Print(rest);
    ParseLed(driver, rest);
  }

  lemma ParseLed(driver: Entry, rest: seq<Entry>)
    requires IsPlain(driver) && AllPlain(rest)
    ensures Parse(Text(driver) + ";" + Print(rest)) == [driver] + rest
  {
    var all := [driver] + rest;
    if rest == [] {
      assert Text(driver) + ";" + Print(rest) == Text(driver) + ";" && all == [driver];
      LoneToken(Text(driver), driver);
    } else {
      assert Print(all) == Text(driver) + ";" + Print(rest) by {
        assert all[1..] == rest;
        TextsLength(rest);
      }
      PlainKeysSurvive(all);
    }
  }

  lemma LoneToken(t: string, e: Entry)
    requires t == Text(e) && IsPlain(e)
    ensures Parse(t + ";") == [e]
  {
    PlainIsWhole(e.key + "=");
    WholePrefix(e.key + "=", e.value);
    WholePrefix(t, ";");
    var s := t + ";";
    assert s[..|t|] == t && s[|t| + 1..] == "";
    assert Tokens(s) == [t] + Tokens("");
    EntryOfText(e, true);
    assert Entries([t], true) == EntryOf(t, true) + Entries([], false);
  }

  lemma DriverFirst(es: seq<Entry>, k: string)
    requires Unique(es)
    ensures var r := [Entry("DRIVER", DriverOf(es))] + Deleted(es, "DRIVER");
      Lookup(r, k) == if SameName(k, "DRIVER") then Some(DriverOf(es)) else Lookup(es, k)
  {
    var rest := Deleted(es, "DRIVER");
    var r := [Entry("DRIVER", DriverOf(es))] + rest;
    if SameName(k, "DRIVER") {
      FindIs(r, k, 0);
    } else {
      LookupDeleted(es, "DRIVER", k);
      FindFinds(rest, k);
      FindIs(r, k, 1 + Find(rest, k));
    }
  }

  /** Parsing what is emitted gives the merge back: every key means what it meant, and the driver is there even
      if it is empty. */
  lemma EmittedMeansMerged(conn: seq<Entry>, file: seq<Entry>, k: string)
    requires Unique(conn) && AllPlain(conn) && AllPlain(file)
    ensures var es := Merged(conn, file);
      Lookup(Parse(Emitted(es)), k) == if SameName(k, "DRIVER") then Some(DriverOf(es)) else Lookup(es, k)
  {
    var es := Merged(conn, file);
    MergedLooks(conn, file, k);
    MergedPlain(conn, file);
    ParseEmitted(es);
    DriverFirst(es, k);
  }

  /** A driver that MergeFileDsn, given a buffer of eight, takes out and does not put back. */
  lemma DriverCanBeLost()
    ensures var es := Merged([Entry("DRIVER", "x")], []);
      DriverOf(es) == "x" && |Print(Deleted(es, "DRIVER"))| < 8 <= |Emitted(es)|
  {
    var es := [Entry("DRIVER", "x")];
    assert |Lower("DRIVER")| == 6 && |Lower("DSN")| == 3 && |Lower("FILEDSN")| == 7;
    FindIs(es, "DSN", 1);
    FindIs(es, "FILEDSN", 1);
    FindIs(es, "DRIVER", 0);
    assert Merged(es, []) == es;
    assert Deleted(es, "DRIVER") == [];
  }

  // ---- The configuration ----

  predicate IsTexts(es: seq<Entry>) {
    forall i :: 0 <= i < |es| ==> IsText(Define(es[i]))
  }

  lemma {:induction false} AddedUpToTexts(es: seq<Entry>, file: seq<Entry>, n: nat, override: bool)
    requires IsTexts(es) && IsTexts(file) && n <= |file|
    ensures IsTexts(AddedUpTo(es, file, n, override))
  {
    if n > 0 {
      AddedUpToTexts(es, file, n - 1, override);
      var i := Find(file, file[n - 1].key);
      assert i < |file| ==> IsText(Define(file[i]));
      assert IsText(Define(file[n - 1]));
    }
  }

  lemma MergedTexts(conn: seq<Entry>, file: seq<Entry>)
    requires IsTexts(conn) && IsTexts(file)
    ensures IsTexts(Merged(conn, file)) && IsTexts(Deleted(Merged(conn, file), "DRIVER"))
  {
    var es := Deleted(conn, "DSN");
    assert IsTexts(es);
    AddedUpToTexts(es, file, |file|, Override(conn, file));
  }

  lemma DriverIsText(es: seq<Entry>)
    requires IsTexts(es)
    ensures NUL !in DriverOf(es)
  {
    var n := Find(es, "DRIVER");
    assert n < |es| ==> IsText(Define(es[n]));
  }

  // strncpy: fills the buffer up with NULs, and leaves it without one if there is no room.
  method CopyPadded(a: array<char>, src: string)
    requires a.Length > 0 && NUL !in src
    modifies a
    ensures if |src| < a.Length then Holds(a[..], 0, src, a.Length) && Length(a[..]) == |src| && a[..|src|] == src
            else Length(a[..]) == a.Length
  {
    var i := 0;
    while i < a.Length
      invariant i <= a.Length && forall k :: 0 <= k < i ==> a[k] == if k < |src| then src[k] else NUL
    {
      a[i] := if i < |src| then src[i] else NUL;
      i := i + 1;
    }
    assert forall k :: 0 <= k < |src| ==> src[k] in src;
    if |src| < a.Length {
      assert a[..|src|] == src;
      LengthIs(a[..], |src|);
    } else {
      LengthOfAll(a[..]);
    }
  }

  /** The section ODBC of a configuration, whose entries are written and deleted in place. */
  class OdbcSection {
    var entries: seq<Entry>

    constructor (es: seq<Entry>)
      ensures entries == es
    {
      entries := es;
    }

    method CfgFind(id: string) returns (i: nat)
      ensures i == Find(entries, id)
    {
      i := 0;
      while i < |entries| && !SameName(entries[i].key, id)
        invariant i <= |entries| && forall j :: 0 <= j < i ==> !SameName(entries[j].key, id)
      {
        i := i + 1;
      }
      FindIs(entries, id, i);
    }

    /** Updates the entry of that name or adds one at the end; without a value, deletes it. */
    method CfgWrite(id: string, value: Option<string>)
      modifies this
      ensures entries == if value.Some? then Written(old(entries), id, value.value) else Deleted(old(entries), id)
    {
      var i := CfgFind(id);
      if value.Some? {
        if i < |entries| {
          entries := entries[i := entries[i].(value := value.value)];
        } else {
          entries := entries + [Entry(id, value.value)];
        }
      } else if i < |entries| {
        entries := entries[..i] + entries[i + 1..];
      }
    }

    /** Merges the entries of a file into the section and writes the connection string to a buffer; fails if the file
        cannot be read or the string does not fit. The driver is taken out to be printed first; it is put back at the
        end, unless the other entries fit and the whole did not. */
    method MergeFileDsn(file: Option<seq<Entry>>, a: array<char>) returns (ok: bool)
      requires a.Length > 0 && IsTexts(entries) && (file.Some? ==> IsTexts(file.value))
      modifies this, a
      ensures file.None? ==> !ok && a[..] == old(a[..]) && entries == old(entries)
      ensures file.Some? ==>
        var es := Merged(old(entries), file.value);
        var rest := Deleted(es, "DRIVER");
        && ok == (|Emitted(es)| < a.Length)
        && (ok ==> Holds(a[..], 0, Emitted(es), a.Length))
        && entries == if DriverOf(es) != "" && (|Print(rest)| >= a.Length || ok) then Written(rest, "DRIVER", DriverOf(es))
                      else rest
    {
      if file.None? {
        return false;
      }
      MergeEntries(file.value);
      ghost var merged := entries;
      MergedTexts(old(entries), file.value);
      var driver := TakeDriver();
      DriverIsText(merged);
      ok := PrintRest(a);
      if ok {
        ok := PrependDriver(driver, a, Print(entries));
        if !ok {
          return;
        }
      }
      if driver != "" {
        CfgWrite("DRIVER", Some(driver));
      }
    }

    method MergeEntries(file: seq<Entry>)
      modifies this
      ensures entries == Merged(old(entries), file)
    {
      var override := Decide(file);
      CfgWrite("DSN", None);
      AddFile(file, override);
      CfgWrite("FILEDSN", None);
    }

    method TakeDriver() returns (driver: string)
      modifies this
      ensures driver == DriverOf(old(entries)) && entries == Deleted(old(entries), "DRIVER")
    {
      driver := "";
      var i := CfgFind("DRIVER");
      if i < |entries| {
        driver := entries[i].value;
      }
      CfgWrite("DRIVER", None);
    }

    // Which side goes first.
    method Decide(file: seq<Entry>) returns (override: bool)
      ensures override == Override(entries, file)
    {
      var driver := Lookup(file, "DRIVER");
      if driver.Some? && |driver.value| > 0 {
        var i := CfgFind("DRIVER");
        override := i < |entries| && SameName(driver.value, entries[i].value);
      } else {
        override := true;
      }
    }

    method AddFile(file: seq<Entry>, override: bool)
      modifies this
      ensures entries == AddedAll(old(entries), file, override)
    {
      var n := 0;
      while n < |file|
        invariant n <= |file| && entries == AddedUpTo(old(entries), file, n, override)
      {
        AddKey(file, file[n].key, override);
        n := n + 1;
      }
    }

    // One key of the file's list, with the value that the file is read for.
    method AddKey(file: seq<Entry>, p: string, override: bool)
      modifies this
      ensures entries == Added(old(entries), Entry(p, ReadFile(file, p)), override)
    {
      if override || SameName(p, "DRIVER") {
        var i := CfgFind(p);
        if i < |entries| {
          return;
        }
      }
      CfgWrite(p, Some(ReadFile(file, p)));
    }

    method PrintRest(a: array<char>) returns (ok: bool)
      requires a.Length > 0 && IsTexts(entries)
      modifies a
      ensures ok == (|Print(entries)| < a.Length) && (ok ==> Holds(a[..], 0, Print(entries), a.Length))
    {
      var items := ParsedItems(entries);
      assert items[1..] == Defines(entries);
      DefinitionsOf(entries);
      ok := ToString(true, items, "ODBC", a);
    }
  }

  // Writes the driver, and behind it what the buffer held.
  method PrependDriver(driver: string, a: array<char>, ghost rest: string) returns (ok: bool)
    requires a.Length > 0 && NUL !in driver && Holds(a[..], 0, rest, a.Length)
    modifies a
    ensures var text := "DRIVER=" + driver + ";" + rest;
      ok == (|text| < a.Length) && (ok ==> Holds(a[..], 0, text, a.Length))
  {
    HeldIs(a[..], 0, rest, a.Length);
    var tmp := CStr(a[..], 0);
    ghost var text := "DRIVER=" + driver + ";" + rest;
    var lead := "DRIVER=";
    CopyPadded(a, lead);
    PartOf(lead + driver, ";" + rest, text, text);
    PartOf(lead + driver + ";", rest, text, text);
    var r := StrLcat(a, driver);
    ok := r < a.Length;
    if ok {
      HeldIs(a[..], 0, lead + driver, a.Length);
      ok := CatBuf(a, ";", lead + driver, text);
    }
    if ok {
      ok := CatBuf(a, tmp, lead + driver + ";", text);
    }
  }
}
