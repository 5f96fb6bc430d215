/** The list of loaded libraries, and a driver's table of entry points. */
module Loader {
  import opened Codes
  import opened PoolSpec

  datatype Library = Library(path: string, dll: Dll)

  predicate DistinctPaths(list: seq<Library>) {
    forall i, j :: 0 <= i < j < |list| ==> list[i].path != list[j].path
  }

  function Table(list: seq<Library>): map<string, Dll> {
    if list == [] then map[] else Table(list[1..])[list[0].path := list[0].dll]
  }

  lemma {:induction false} TableHas(list: seq<Library>, path: string)
    ensures path in Table(list) <==> exists i :: 0 <= i < |list| && list[i].path == path
  {
    if list != [] {
      TableHas(list[1..], path);
      if i :| 0 <= i < |list| && list[i].path == path {
        assert i > 0 ==> list[1..][i - 1] == list[i];
      }
    }
  }

  lemma {:induction false} TableAt(list: seq<Library>, i: nat)
    requires DistinctPaths(list) && i < |list|
    ensures list[i].path in Table(list) && Table(list)[list[i].path] == list[i].dll
  {
    if i > 0 {
      assert list[1..][i - 1] == list[i];
      TableAt(list[1..], i - 1);
    }
  }

  lemma Commute(table: map<string, Dll>, p: string, x: Dll, q: string, y: Dll)
    requires p != q
    ensures table[p := x][q := y] == table[q := y][p := x]
  {
  }

  lemma {:induction false} TableSet(list: seq<Library>, i: nat, dll: Dll)
    requires DistinctPaths(list) && i < |list|
    ensures Table(list[i := list[i].(dll := dll)]) == Table(list)[list[i].path := dll]
  {
    var next := list[i := list[i].(dll := dll)];
    if i == 0 {
      assert next[1..] == list[1..];
    } else {
      assert list[1..][i - 1] == list[i];
      assert next[1..] == list[1..][i - 1 := list[i].(dll := dll)];
      TableSet(list[1..], i - 1, dll);
      Commute(Table(list[1..]), list[0].path, list[0].dll, list[i].path, dll);
    }
  }

  class LibraryList {
    var list: seq<Library>    // newest first; entries are never removed

    ghost predicate Valid()
      reads this
    {
      DistinctPaths(list)
    }

    ghost function Dlls(): map<string, Dll>
      reads this
    {
      Table(list)
    }

    constructor ()
      ensures Valid() && Dlls() == map[]
    {
      list := [];
    }

    method Find(path: string) returns (i: nat)
      ensures i <= |list|
      ensures if i < |list| then list[i].path == path else path !in Dlls()
    {
      i := 0;
      while i < |list|
        invariant i <= |list| && forall j :: 0 <= j < i ==> list[j].path != path
      {
        if list[i].path == path {
          return;
        }
        i := i + 1;
      }
      TableHas(list, path);
    }

    method Open(path: string)
      requires Valid()
      modifies this
      ensures Valid() && Dlls() == DllOpen(old(Dlls()), path)
    {
      var i := Find(path);
      if i < |list| {
        var d := list[i].dll;
        TableAt(list, i);
        TableSet(list, i, d.(refcount := d.refcount + 1, loaded := true));
        list := list[i := list[i].(dll := d.(refcount := d.refcount + 1, loaded := true))];
        return;
      }
      ghost var was := list;
      TableHas(list, path);
      list := [Library(path, Dll(1, true, false))] + list;
      assert list[1..] == was;
    }

    // The library is looked for by its handle: an entry that is not in memory has none.
    method Close(path: string)
      requires Valid()
      modifies this
      ensures Valid() && Dlls() == DllClose(old(Dlls()), path)
    {
      var i := Find(path);
      if i < |list| {
        TableAt(list, i);
      }
      if i == |list| || !list[i].dll.loaded {
        return;
      }
      var d := list[i].dll.(refcount := list[i].dll.refcount - 1);
      if d.refcount == 0 && d.safe {
        d := d.(loaded := false);
      }
      TableSet(list, i, d);
      list := list[i := list[i].(dll := d)];
    }

    method MarkSafe(path: string)
      requires Valid()
      modifies this
      ensures Valid() && Dlls() == SafeUnload(old(Dlls()), path)
    {
      var i := Find(path);
      if i < |list| {
        TableAt(list, i);
      }
      if i == |list| || !list[i].dll.loaded {
        return;
      }
      TableSet(list, i, list[i].dll.(safe := true));
      list := list[i := list[i].(dll := list[i].dll.(safe := true))];
    }
  }

  type Proc = nat    // an entry point

  /** A driver's table of entry points, filled on demand from its library. */
  class ProcTable {
    const symbols: map<nat, Proc>    // what a symbol lookup in the library finds, by function index
    const tab: array<Option<Proc>>

    /** A cached entry point is the one a lookup finds. */
    ghost predicate Valid()
      reads tab
    {
      forall i :: 0 <= i < tab.Length && tab[i].Some? ==> i in symbols && tab[i] == Some(symbols[i])
    }

    function Lookup(idx: int): Option<Proc> {
      if idx in symbols then Some(symbols[idx]) else None
    }

    constructor (symbols: map<nat, Proc>, size: nat)
      ensures Valid() && this.symbols == symbols && tab.Length == size && fresh(tab)
    {
      this.symbols := symbols;
      tab := new Option<Proc>[size](_ => None);
    }

    /** _iodbcdm_getproc agrees with a direct lookup for every index of a function, and finds nothing for
        any other; the index 0 names no function. */
    method GetProc(idx: int) returns (p: Option<Proc>)
      requires Valid()
      modifies tab
      ensures Valid() && p == if 0 < idx < tab.Length && idx in symbols then Some(symbols[idx]) else None
    {
      if idx <= 0 || tab.Length <= idx {
        return None;
      }
      if tab[idx].None? {
        tab[idx] := Lookup(idx);
      }
      return tab[idx];
    }
  }
}
