/** Connection options that are set before a connection exists: the driver manager remembers some of them
    and sends them to the driver when it connects. */
module Options {
  import opened Codes
  import Handles

  datatype Value = Number(n: nat) | Text(s: string)

  datatype Setting = Setting(option: nat, value: Value)

  const ACCESS_MODE := 101
  const AUTOCOMMIT := 102
  const LOGIN_TIMEOUT := 103
  const TRACE := 104
  const TRACE_FILE := 105
  const TRANSLATE_DLL := 106
  const TRANSLATE_OPTION := 107
  const TXN_ISOLATION := 108
  const CURRENT_QUALIFIER := 109
  const ODBC_CURSORS := 110
  const QUIET_MODE := 111
  const PACKET_SIZE := 112
  const DRIVER_START := 1000

  /** Attributes of ODBC 3 that a driver called through SQLSetConnectAttr is not given as options. */
  const ODBC3_ONLY: set<nat> := {4, 113, 1209, 10001, 10014}

  // ---- What is remembered ----

  /** The standard options of a connection, and the driver's own, newest first. */
  datatype Saved = Saved(
    accessMode: Value,
    autocommit: Value,
    currentQualifier: Value,
    loginTimeout: Value,
    odbcCursors: Value,
    packetSize: Value,
    quietMode: Value,
    txnIsolation: Value,
    drvopt: seq<Setting>)

  const DEFAULTS := Saved(Number(0), Number(1), Number(0), Number(0), Number(2), Number(0), Number(0), Number(1), [])

  const DELAYED: seq<nat> := [ACCESS_MODE, AUTOCOMMIT, CURRENT_QUALIFIER, PACKET_SIZE, QUIET_MODE, TXN_ISOLATION]

  // What is remembered of a standard option.
  function Kept(s: Saved, option: nat): Value {
    if option == ACCESS_MODE then s.accessMode
    else if option == AUTOCOMMIT then s.autocommit
    else if option == CURRENT_QUALIFIER then s.currentQualifier
    else if option == LOGIN_TIMEOUT then s.loginTimeout
    else if option == ODBC_CURSORS then s.odbcCursors
    else if option == PACKET_SIZE then s.packetSize
    else if option == QUIET_MODE then s.quietMode
    else s.txnIsolation
  }

  function Updated(l: seq<Setting>, x: Setting): seq<Setting> {
    if l == [] then []
    else if l[0].option == x.option then [x] + l[1..]
    else [l[0]] + Updated(l[1..], x)
  }

  predicate Has(l: seq<Setting>, option: nat) {
    exists i :: 0 <= i < |l| && l[i].option == option
  }

  function Store(l: seq<Setting>, x: Setting): seq<Setting> {
    if Has(l, x.option) then Updated(l, x) else [x] + l
  }

  /** The effect of setting an option on a connection that is only allocated; attached says that a driver is
      loaded all the same, as after a connection attempt that failed, or after disconnecting. */
  function Remember(s: Saved, attached: bool, x: Setting): Saved {
    var Setting(o, v) := x;
    if o == ACCESS_MODE then s.(accessMode := v)
    else if o == AUTOCOMMIT then s.(autocommit := v)
    else if o == CURRENT_QUALIFIER then s.(currentQualifier := v)
    else if o == LOGIN_TIMEOUT then s.(loginTimeout := v)
    else if o == ODBC_CURSORS then s.(odbcCursors := v)
    else if o == PACKET_SIZE then s.(packetSize := v)
    else if o == QUIET_MODE then s.(quietMode := v)
    else if o == TXN_ISOLATION then s.(txnIsolation := v)
    else if o >= DRIVER_START && !attached then s.(drvopt := Store(s.drvopt, x))
    else s
  }

  function RememberAll(s: Saved, xs: seq<Setting>): Saved {
    if xs == [] then s else Remember(RememberAll(s, xs[..|xs| - 1]), false, xs[|xs| - 1])
  }

  // ---- The driver ----

  type Options = map<nat, Value>

  // A driver takes an option unless it answers with a code that is not a success.
  function Code(codes: map<nat, SqlReturn>, option: nat): SqlReturn {
    if option in codes then codes[option] else Success
  }

  function Send(d: Options, codes: map<nat, SqlReturn>, x: Setting): Options {
    if Code(codes, x.option).Succeeded() then d[x.option := x.value] else d
  }

  function SendAll(d: Options, codes: map<nat, SqlReturn>, xs: seq<Setting>): Options {
    if xs == [] then d else Send(SendAll(d, codes, xs[..|xs| - 1]), codes, xs[|xs| - 1])
  }

  /** Which options reach the driver of a connected handle. */
  predicate Reaches(option: nat, usesAttr: bool) {
    option !in {TRACE, TRACE_FILE, ODBC_CURSORS} && (usesAttr ==> option !in ODBC3_ONLY)
  }

  function Immediate(d: Options, codes: map<nat, SqlReturn>, usesAttr: bool, xs: seq<Setting>): Options {
    if xs == [] then d
    else
      var before, x := Immediate(d, codes, usesAttr, xs[..|xs| - 1]), xs[|xs| - 1];
      if Reaches(x.option, usesAttr) then Send(before, codes, x) else before
  }

  // ---- What is sent when the connection is made ----

  function Timeout(s: Saved): seq<Setting> {
    if s.loginTimeout != Number(0) then [Setting(LOGIN_TIMEOUT, s.loginTimeout)] else []
  }

  // The driver's own options are skipped if it answers the login timeout with an error.
  function Own(s: Saved, codes: map<nat, SqlReturn>): seq<Setting> {
    if Timeout(s) != [] && Code(codes, LOGIN_TIMEOUT) == Error then [] else s.drvopt
  }

  function NonDefault(s: Saved, options: seq<nat>): seq<Setting> {
    if options == [] then []
    else
      var init, o := options[..|options| - 1], options[|options| - 1];
      NonDefault(s, init) + if Kept(s, o) != Kept(DEFAULTS, o) then [Setting(o, Kept(s, o))] else []
  }

  function Sends(s: Saved, codes: map<nat, SqlReturn>): seq<Setting> {
    Timeout(s) + Own(s, codes) + NonDefault(s, DELAYED)
  }

  // ---- Last values ----

  /** The last value that each option was set to. */
  function LastOf(xs: seq<Setting>): Options {
    if xs == [] then map[] else LastOf(xs[..|xs| - 1])[xs[|xs| - 1].option := xs[|xs| - 1].value]
  }

  predicate DistinctOptions(l: seq<Setting>) {
    forall i, j :: 0 <= i < j < |l| ==> l[i].option != l[j].option
  }

  lemma {:induction false} LastOfConcat(a: seq<Setting>, b: seq<Setting>)
    ensures LastOf(a + b) == LastOf(a) + LastOf(b)
    decreases |b|
  {
    if b == [] {
      assert a + b == a;
    } else {
      assert (a + b)[..|a + b| - 1] == a + b[..|b| - 1];
      LastOfConcat(a, b[..|b| - 1]);
    }
  }

  lemma {:induction false} LastOfKeys(l: seq<Setting>, o: nat)
    ensures o in LastOf(l) <==> Has(l, o)
    ensures o in LastOf(l) ==> Setting(o, LastOf(l)[o]) in l
  {
    if l != [] {
      var n := |l| - 1;
      LastOfKeys(l[..n], o);
      assert l == l[..n] + [l[n]];
      if Has(l, o) && l[n].option != o {
        var i :| 0 <= i < |l| && l[i].option == o;
        assert l[..n][i].option == o;
      }
      if Has(l[..n], o) {
        var i :| 0 <= i < n && l[..n][i].option == o;
        assert l[i].option == o;
      }
    }
  }

  /** The order of a list in which no option occurs twice does not matter. */
  lemma OrderIrrelevant(l: seq<Setting>, m: seq<Setting>)
    requires DistinctOptions(l) && forall x :: x in m <==> x in l
    ensures LastOf(l) == LastOf(m)
  {
    forall o ensures o in LastOf(l) <==> o in LastOf(m)
             ensures o in LastOf(l) && o in LastOf(m) ==> LastOf(l)[o] == LastOf(m)[o]
    {
      LastOfKeys(l, o);
      LastOfKeys(m, o);
      if Has(l, o) {
        assert Setting(o, LastOf(l)[o]) in m;
      }
      if Has(m, o) {
        assert Setting(o, LastOf(m)[o]) in l;
      }
    }
  }

  lemma {:induction false} SendAllLooks(d: Options, codes: map<nat, SqlReturn>, xs: seq<Setting>, o: nat)
    ensures var r := SendAll(d, codes, xs);
      if o in LastOf(xs) && Code(codes, o).Succeeded() then o in r && r[o] == LastOf(xs)[o]
      else (o in r <==> o in d) && (o in d ==> r[o] == d[o])
  {
    if xs != [] {
      SendAllLooks(d, codes, xs[..|xs| - 1], o);
    }
  }

  lemma {:induction false} ImmediateLooks(d: Options, codes: map<nat, SqlReturn>, usesAttr: bool, xs: seq<Setting>, o: nat)
    ensures var r := Immediate(d, codes, usesAttr, xs);
      if o in LastOf(xs) && Reaches(o, usesAttr) && Code(codes, o).Succeeded() then o in r && r[o] == LastOf(xs)[o]
      else (o in r <==> o in d) && (o in d ==> r[o] == d[o])
  {
    if xs != [] {
      ImmediateLooks(d, codes, usesAttr, xs[..|xs| - 1], o);
    }
  }

  // ---- What is remembered, in terms of the last values ----

  const STANDARD: set<nat> :=
    {ACCESS_MODE, AUTOCOMMIT, CURRENT_QUALIFIER, LOGIN_TIMEOUT, ODBC_CURSORS, PACKET_SIZE, QUIET_MODE, TXN_ISOLATION}

  lemma {:induction false} UpdatedAt(l: seq<Setting>, x: Setting)
    requires DistinctOptions(l)
    ensures var r := Updated(l, x);
      |r| == |l| && forall i :: 0 <= i < |l| ==> r[i] == if l[i].option == x.option then x else l[i]
  {
    if l != [] {
      assert forall i :: 0 < i < |l| ==> l[0].option != l[i].option;
      UpdatedAt(l[1..], x);
    }
  }

  // The list holds the last value of each of the driver's own options.
  ghost predicate Holds(l: seq<Setting>, last: Options) {
    && DistinctOptions(l)
    && (forall i :: 0 <= i < |l| ==> IsLast(l[i], last))
    && (forall o :: o in last && o >= DRIVER_START ==> Has(l, o))
  }

  ghost predicate IsLast(x: Setting, last: Options) {
    x.option >= DRIVER_START && x.option in last && last[x.option] == x.value
  }

  lemma StoreHolds(l: seq<Setting>, last: Options, x: Setting)
    requires Holds(l, last) && x.option >= DRIVER_START
    ensures Holds(Store(l, x), last[x.option := x.value])
  {
    if Has(l, x.option) {
      UpdateHolds(l, last, x);
    } else {
      PrependHolds(l, last, x);
    }
  }

  lemma UpdateHolds(l: seq<Setting>, last: Options, x: Setting)
    requires Holds(l, last) && x.option >= DRIVER_START && Has(l, x.option)
    ensures Holds(Updated(l, x), last[x.option := x.value])
  {
    var r, next := Updated(l, x), last[x.option := x.value];
    UpdatedAt(l, x);
    forall i | 0 <= i < |r| ensures IsLast(r[i], next) && r[i].option == l[i].option {
      assert IsLast(l[i], last);
    }
    forall o | o in next && o >= DRIVER_START ensures Has(r, o) {
      assert Has(l, o);
      var i :| 0 <= i < |l| && l[i].option == o;
      assert r[i].option == o;
    }
  }

  lemma PrependHolds(l: seq<Setting>, last: Options, x: Setting)
    requires Holds(l, last) && x.option >= DRIVER_START && !Has(l, x.option)
    ensures Holds([x] + l, last[x.option := x.value])
  {
    var r, next := [x] + l, last[x.option := x.value];
    forall i | 0 < i < |r| ensures IsLast(r[i], next) && r[i].option != x.option {
      assert r[i] == l[i - 1] && IsLast(l[i - 1], last);
    }
    forall o | o in next && o >= DRIVER_START ensures Has(r, o) {
      if o == x.option {
        assert r[0].option == o;
      } else {
        assert Has(l, o);
        var i :| 0 <= i < |l| && l[i].option == o;
        assert r[i + 1].option == o;
      }
    }
  }

  lemma HoldsOther(l: seq<Setting>, last: Options, x: Setting)
    requires Holds(l, last) && x.option < DRIVER_START
    ensures Holds(l, last[x.option := x.value])
  {
  }

  // What is remembered of a standard option is its last value, or else its default.
  ghost predicate KeepsLast(s: Saved, last: Options) {
    forall o :: o in STANDARD ==> Kept(s, o) == if o in last then last[o] else Kept(DEFAULTS, o)
  }

  lemma {:induction false} RemembersLast(xs: seq<Setting>)
    ensures var s := RememberAll(DEFAULTS, xs); KeepsLast(s, LastOf(xs)) && Holds(s.drvopt, LastOf(xs))
  {
    if xs != [] {
      var init, x := xs[..|xs| - 1], xs[|xs| - 1];
      RemembersLast(init);
      var s := RememberAll(DEFAULTS, init);
      RememberKeeps(s, LastOf(init), x);
      if x.option >= DRIVER_START {
        StoreHolds(s.drvopt, LastOf(init), x);
      } else {
        HoldsOther(s.drvopt, LastOf(init), x);
      }
    }
  }

  lemma RememberKeeps(s: Saved, last: Options, x: Setting)
    requires KeepsLast(s, last)
    ensures KeepsLast(Remember(s, false, x), last[x.option := x.value])
  {
    forall o | o in STANDARD
      ensures Kept(Remember(s, false, x), o) == if o == x.option then x.value else Kept(s, o)
    {
      RememberKept(s, x, o);
    }
  }

  lemma RememberKept(s: Saved, x: Setting, o: nat)
    requires o in STANDARD
    ensures Kept(Remember(s, false, x), o) == if o == x.option then x.value else Kept(s, o)
  {
  }

  // ---- Delayed against immediate ----

  lemma {:induction false} NonDefaultLast(s: Saved, options: seq<nat>, o: nat)
    ensures var r := LastOf(NonDefault(s, options));
      && (o in r <==> o in options && Kept(s, o) != Kept(DEFAULTS, o))
      && (o in r ==> r[o] == Kept(s, o))
  {
    if options != [] {
      var n := |options| - 1;
      var more := if Kept(s, options[n]) != Kept(DEFAULTS, options[n]) then [Setting(options[n], Kept(s, options[n]))] else [];
      NonDefaultLast(s, options[..n], o);
      LastOfConcat(NonDefault(s, options[..n]), more);
      assert options == options[..n] + [options[n]];
      LastOfOne(more);
    }
  }

  lemma LastOfOne(l: seq<Setting>)
    requires |l| <= 1
    ensures LastOf(l) == if l == [] then map[] else map[l[0].option := l[0].value]
  {
    if l != [] {
      assert l[..0] == [];
    }
  }

  /** Which of the options set before are sent when the connection is made: the standard ones whose last value
      is not the default, and the driver's own unless the driver rejects the login timeout. */
  ghost predicate Sent(last: Options, codes: map<nat, SqlReturn>, o: nat)
    requires o in last
  {
    if o == LOGIN_TIMEOUT || o in DELAYED then last[o] != Kept(DEFAULTS, o)
    else
      o >= DRIVER_START
      && !(LOGIN_TIMEOUT in last && last[LOGIN_TIMEOUT] != Number(0) && Code(codes, LOGIN_TIMEOUT) == Error)
  }

  /** Each option that is sent is sent with its last value. */
  lemma SendsLast(xs: seq<Setting>, codes: map<nat, SqlReturn>, o: nat)
    ensures var last, sends := LastOf(xs), Sends(RememberAll(DEFAULTS, xs), codes);
      && (o in LastOf(sends) <==> o in last && Sent(last, codes, o))
      && (o in LastOf(sends) ==> LastOf(sends)[o] == last[o])
  {
    var s, last := RememberAll(DEFAULTS, xs), LastOf(xs);
    RemembersLast(xs);
    assert LastOf(Sends(s, codes)) == LastOf(Timeout(s)) + LastOf(Own(s, codes)) + LastOf(NonDefault(s, DELAYED)) by {
      LastOfConcat(Timeout(s) + Own(s, codes), NonDefault(s, DELAYED));
      LastOfConcat(Timeout(s), Own(s, codes));
    }
    TimeoutLast(s, last, o);
    OwnIsSent(s, codes, last, o);
    DelayedLast(s, last, o);
  }

  /** In the numbers of the interface: what is sent when the connection is made. */
  lemma SentInNumbers(xs: seq<Setting>, codes: map<nat, SqlReturn>, o: nat)
    ensures var last, sends := LastOf(xs), LastOf(Sends(RememberAll(DEFAULTS, xs), codes));
      o in sends <==>
        o in last &&
        (|| (o in {101, 103, 109, 111, 112} && last[o] != Number(0))
         || (o in {102, 108} && last[o] != Number(1))
         || (o >= 1000 && (103 in last && last[103] != Number(0) ==> Code(codes, 103) != Error)))
  {
    SendsLast(xs, codes, o);
  }

  /** And what reaches the driver of a connected handle: not the tracing options and the cursor library's, and not the
      attributes that only ODBC 3 knows if they would go through SQLSetConnectAttr. */
  lemma ReachesInNumbers(o: nat, usesAttr: bool)
    ensures Reaches(o, usesAttr) <==> o !in {104, 105, 110} && !(usesAttr && o in {4, 113, 1209, 10001, 10014})
  {
  }

  /** The login timeout comes first, the driver's own options next, newest first, and then the standard ones. */
  lemma SendOrder(s: Saved, codes: map<nat, SqlReturn>)
    requires s.loginTimeout != Number(0)
    ensures Sends(s, codes)[..1] == [Setting(103, s.loginTimeout)]
    ensures Code(codes, 103) != Error ==> s.drvopt == Sends(s, codes)[1..][..|s.drvopt|]
  {
  }

  lemma TimeoutLast(s: Saved, last: Options, o: nat)
    requires KeepsLast(s, last)
    ensures var r := LastOf(Timeout(s));
      && (o in r <==> o == LOGIN_TIMEOUT && o in last && last[o] != Number(0))
      && (o in r ==> r[o] == last[o])
  {
    assert LOGIN_TIMEOUT in STANDARD;
    LastOfOne(Timeout(s));
  }

  lemma DelayedLast(s: Saved, last: Options, o: nat)
    requires KeepsLast(s, last)
    ensures var r := LastOf(NonDefault(s, DELAYED));
      && (o in r <==> o in DELAYED && o in last && last[o] != Kept(DEFAULTS, o))
      && (o in r ==> r[o] == last[o])
  {
    NonDefaultLast(s, DELAYED, o);
    assert o in DELAYED ==> o in STANDARD;
  }

  lemma OwnIsSent(s: Saved, codes: map<nat, SqlReturn>, last: Options, o: nat)
    requires KeepsLast(s, last) && Holds(s.drvopt, last)
    ensures var r := LastOf(Own(s, codes));
      && (o in r <==> o in last && o >= DRIVER_START && Sent(last, codes, o))
      && (o in r ==> r[o] == last[o])
  {
    OwnLast(s, codes, last, o);
    assert LOGIN_TIMEOUT in STANDARD && (o in DELAYED ==> o < DRIVER_START);
  }

  lemma OwnLast(s: Saved, codes: map<nat, SqlReturn>, last: Options, o: nat)
    requires Holds(s.drvopt, last)
    ensures var r := LastOf(Own(s, codes));
      && (o in r <==> o in last && o >= DRIVER_START && Own(s, codes) == s.drvopt)
      && (o in r ==> r[o] == last[o])
  {
    LastOfKeys(Own(s, codes), o);
    assert forall x :: x in s.drvopt ==> IsLast(x, last);
    if Own(s, codes) == s.drvopt && Has(s.drvopt, o) {
      var i :| 0 <= i < |s.drvopt| && s.drvopt[i].option == o;
      assert IsLast(s.drvopt[i], last);
    }
  }

  lemma {:induction false} NonDefaultDistinct(s: Saved, options: seq<nat>)
    requires forall i, j :: 0 <= i < j < |options| ==> options[i] != options[j]
    ensures var r := NonDefault(s, options);
      DistinctOptions(r) && forall i :: 0 <= i < |r| ==> r[i].option in options
  {
    if options != [] {
      var n := |options| - 1;
      NonDefaultDistinct(s, options[..n]);
      assert options[n] !in options[..n];
    }
  }

  /** No option is sent twice. */
  lemma SentOnce(xs: seq<Setting>, codes: map<nat, SqlReturn>)
    ensures DistinctOptions(Sends(RememberAll(DEFAULTS, xs), codes))
  {
    var s := RememberAll(DEFAULTS, xs);
    RemembersLast(xs);
    var a, b, c := Timeout(s), Own(s, codes), NonDefault(s, DELAYED);
    OwnDistinct(s, codes, LastOf(xs));
    DelayedDistinct(s);
    DistinctConcat(a, b);
    DistinctConcat(a + b, c);
  }

  lemma OwnDistinct(s: Saved, codes: map<nat, SqlReturn>, last: Options)
    requires Holds(s.drvopt, last)
    ensures var b := Own(s, codes); DistinctOptions(b) && forall i :: 0 <= i < |b| ==> b[i].option >= DRIVER_START
  {
    assert forall i :: 0 <= i < |s.drvopt| ==> IsLast(s.drvopt[i], last);
  }

  lemma DelayedDistinct(s: Saved)
    ensures var c := NonDefault(s, DELAYED);
      DistinctOptions(c) && forall i :: 0 <= i < |c| ==> c[i].option < DRIVER_START && c[i].option != LOGIN_TIMEOUT
  {
    var c := NonDefault(s, DELAYED);
    NonDefaultDistinct(s, DELAYED);
    assert forall d :: d in DELAYED ==> d < DRIVER_START && d != LOGIN_TIMEOUT;
    assert forall i :: 0 <= i < |c| ==> c[i].option in DELAYED;
  }

  lemma DistinctConcat(a: seq<Setting>, b: seq<Setting>)
    requires DistinctOptions(a) && DistinctOptions(b)
    requires forall i, j :: 0 <= i < |a| && 0 <= j < |b| ==> a[i].option != b[j].option
    ensures DistinctOptions(a + b)
  {
  }

  // The option agrees in the end: it is sent in both ways, in neither, or the driver had the value anyway.
  ghost predicate Agrees(last: Options, d: Options, codes: map<nat, SqlReturn>, usesAttr: bool, o: nat)
    requires o in last
  {
    (Sent(last, codes, o) <==> Reaches(o, usesAttr)) || (o in d && d[o] == last[o])
  }

  /** Setting options before connecting leaves the driver as setting them after connecting does, exactly if every
      option that the driver takes is sent either way, in neither, or has the value already. */
  lemma DelayedIsImmediateIff(xs: seq<Setting>, d: Options, codes: map<nat, SqlReturn>, usesAttr: bool)
    ensures SendAll(d, codes, Sends(RememberAll(DEFAULTS, xs), codes)) == Immediate(d, codes, usesAttr, xs) <==>
            forall o :: o in LastOf(xs) && Code(codes, o).Succeeded() ==> Agrees(LastOf(xs), d, codes, usesAttr, o)
  {
    var last, sends := LastOf(xs), Sends(RememberAll(DEFAULTS, xs), codes);
    var delayed, immediate := SendAll(d, codes, sends), Immediate(d, codes, usesAttr, xs);
    forall o
      ensures Same(delayed, immediate, o) <==>
              (o in last && Code(codes, o).Succeeded() ==> Agrees(last, d, codes, usesAttr, o))
    {
      SendsLast(xs, codes, o);
      SendAllLooks(d, codes, sends, o);
      ImmediateLooks(d, codes, usesAttr, xs, o);
    }
    SameOptions(delayed, immediate);
  }

  ghost predicate Same(a: Options, b: Options, o: nat) {
    (o in a <==> o in b) && (o in a && o in b ==> a[o] == b[o])
  }

  lemma SameOptions(a: Options, b: Options)
    ensures a == b <==> forall o: nat :: Same(a, b, o)
  {
    if forall o: nat :: Same(a, b, o) {
      assert forall o :: o in a ==> Same(a, b, o);
      assert forall o :: o in b ==> Same(a, b, o);
      assert a == b;
    }
  }

  /** In particular for a driver that starts from the defaults and does not reject the login timeout, as long
      as only remembered options are set. */
  lemma DelayedIsImmediateFromDefaults(xs: seq<Setting>, d: Options, codes: map<nat, SqlReturn>, usesAttr: bool)
    requires forall o :: o in STANDARD ==> o in d && d[o] == Kept(DEFAULTS, o)
    requires forall i :: 0 <= i < |xs| ==>
               (xs[i].option in STANDARD && xs[i].option != ODBC_CURSORS)
               || (xs[i].option >= DRIVER_START && Reaches(xs[i].option, usesAttr))
    requires Code(codes, LOGIN_TIMEOUT) != Error
    ensures SendAll(d, codes, Sends(RememberAll(DEFAULTS, xs), codes)) == Immediate(d, codes, usesAttr, xs)
  {
    forall o | o in LastOf(xs) ensures Agrees(LastOf(xs), d, codes, usesAttr, o) {
      LastOfKeys(xs, o);
      var i :| 0 <= i < |xs| && xs[i].option == o;
      assert o in STANDARD ==> o == LOGIN_TIMEOUT || o in DELAYED || o == ODBC_CURSORS;
    }
    DelayedIsImmediateIff(xs, d, codes, usesAttr);
  }

  /** With a driver left loaded, after a failed attempt or after disconnecting, one of the driver's own options is
      remembered only if the list already had it with that value. */
  lemma AttachedForgets(s: Saved, x: Setting)
    requires DistinctOptions(s.drvopt)
    ensures Remember(s, true, x).drvopt == s.drvopt
    ensures Remember(s, true, x) == Remember(s, false, x) <==> x.option < DRIVER_START || x in s.drvopt
  {
    StoresNothingIff(s.drvopt, x);
    assert x.option >= DRIVER_START ==> x.option !in STANDARD;
  }

  lemma StoresNothingIff(l: seq<Setting>, x: Setting)
    requires DistinctOptions(l)
    ensures Store(l, x) == l <==> x in l
  {
    UpdatedAt(l, x);
    StoreHas(l, x);
    if x in l {
      assert Has(l, x.option);
      assert Updated(l, x) == l;
    }
  }

  lemma {:induction false} StoreHas(l: seq<Setting>, x: Setting)
    ensures x in Store(l, x)
  {
    if Has(l, x.option) && l[0].option != x.option {
      var i :| 0 <= i < |l| && l[i].option == x.option;
      assert l[1..][i - 1].option == x.option;
      StoreHas(l[1..], x);
    }
  }

  // ---- The connection ----

  /** A driver, as far as its options go: it answers each option with a code of its own. */
  class Driver {
    var options: Options
    const codes: map<nat, SqlReturn>

    constructor (options: Options, codes: map<nat, SqlReturn>)
      ensures this.options == options && this.codes == codes
    {
      this.options, this.codes := options, codes;
    }

    method SetOption(x: Setting) returns (rc: SqlReturn)
      modifies this
      ensures options == Send(old(options), codes, x) && rc == Code(codes, x.option)
    {
      rc := if x.option in codes then codes[x.option] else Success;
      if rc.Succeeded() {
        options := options[x.option := x.value];
      }
    }
  }

  datatype ConnState = Allocated | Negotiating | Connected | HasStatements

  /** How setting an option ends: with a code, or with an error that it posts. */
  datatype SetOutcome = Answered(rc: SqlReturn) | Posted(state: SqlState)

  lemma {:induction false} SendAllConcat(d: Options, codes: map<nat, SqlReturn>, a: seq<Setting>, b: seq<Setting>)
    ensures SendAll(d, codes, a + b) == SendAll(SendAll(d, codes, a), codes, b)
    decreases |b|
  {
    if b == [] {
      assert a + b == a;
    } else {
      assert (a + b)[..|a + b| - 1] == a + b[..|b| - 1];
      SendAllConcat(d, codes, a, b[..|b| - 1]);
    }
  }

  // The codes that the driver answers these with.
  function CodesOf(codes: map<nat, SqlReturn>, xs: seq<Setting>): seq<SqlReturn> {
    seq(|xs|, i requires 0 <= i < |xs| => Code(codes, xs[i].option))
  }

  lemma OrAllSnoc(rcs: seq<SqlReturn>, rc: SqlReturn)
    ensures Handles.OrAll(rcs + [rc]) == Handles.OrAll(rcs) | rc.Bits()
  {
    assert (rcs + [rc])[..|rcs|] == rcs;
  }

  lemma OrIsZero(a: bv16, b: bv16)
    ensures a | b == 0 <==> a == 0 && b == 0
  {
  }

  lemma PlainCode(rc: SqlReturn)
    requires rc.Canonical()
    ensures rc.Bits() == 0 <==> rc == Success
  {
  }

  ghost predicate AllPlain(rcs: seq<SqlReturn>) {
    forall i :: 0 <= i < |rcs| ==> rcs[i] == Success
  }

  /** The or of the codes is zero exactly when each is a plain success. */
  lemma {:induction false} OrAllPlain(rcs: seq<SqlReturn>)
    requires forall i :: 0 <= i < |rcs| ==> rcs[i].Canonical()
    ensures Handles.OrAll(rcs) == 0 <==> AllPlain(rcs)
  {
    if rcs != [] {
      var n := |rcs| - 1;
      var before, last := Handles.OrAll(rcs[..n]), rcs[n].Bits();
      assert AllPlain(rcs) <==> AllPlain(rcs[..n]) && rcs[n] == Success;
      OrAllPlain(rcs[..n]);
      PlainCode(rcs[n]);
      OrIsZero(before, last);
    }
  }

  /** What the or of these codes comes to: one failure fails it, and only plain successes are one. */
  lemma FoldedMeans(rcs: seq<SqlReturn>)
    requires forall i :: 0 <= i < |rcs| ==> rcs[i].Canonical()
    ensures var rc := Handles.Folded(Handles.OrAll(rcs));
      (rc.Succeeded() <==> Handles.AllSucceeded(rcs)) && (rc == Success <==> AllPlain(rcs))
  {
    Handles.OrAllSucceeds(rcs);
    OrAllPlain(rcs);
  }

  // The codes that end up in the result of the delayed setting.
  function DelayCodes(codes: map<nat, SqlReturn>, m: Saved, commit: SqlReturn, rollback: SqlReturn): seq<SqlReturn> {
    CodesOf(codes, NonDefault(m, DELAYED)) + [commit] + [rollback]
  }

  lemma DelayCodesOr(codes: map<nat, SqlReturn>, m: Saved, commit: SqlReturn, rollback: SqlReturn, bits: bv16)
    requires bits == Handles.OrAll(CodesOf(codes, NonDefault(m, DELAYED)))
    ensures bits | commit.Bits() | rollback.Bits() == Handles.OrAll(DelayCodes(codes, m, commit, rollback))
  {
    OrAllSnoc(CodesOf(codes, NonDefault(m, DELAYED)), commit);
    OrAllSnoc(CodesOf(codes, NonDefault(m, DELAYED)) + [commit], rollback);
  }

  lemma DelayCodesCanonical(codes: map<nat, SqlReturn>, m: Saved, commit: SqlReturn, rollback: SqlReturn)
    requires (forall o :: o in codes ==> codes[o].Canonical()) && commit.Canonical() && rollback.Canonical()
    ensures var rcs := DelayCodes(codes, m, commit, rollback); forall i :: 0 <= i < |rcs| ==> rcs[i].Canonical()
  {
  }

  // The standard options among these have been sent, and bits is the or of the answers.
  ghost predicate SentSoFar(
      d: Options, codes: map<nat, SqlReturn>, m: Saved, done: seq<nat>, now: Options, bits: bv16)
  {
    && now == SendAll(d, codes, NonDefault(m, done))
    && bits == Handles.OrAll(CodesOf(codes, NonDefault(m, done)))
  }

  lemma SentOneMore(
      d: Options, codes: map<nat, SqlReturn>, m: Saved, done: seq<nat>, now: Options, bits: bv16, o: nat)
    requires SentSoFar(d, codes, m, done, now, bits) && Kept(m, o) != Kept(DEFAULTS, o)
    ensures SentSoFar(d, codes, m, done + [o], Send(now, codes, Setting(o, Kept(m, o))), bits | Code(codes, o).Bits())
  {
    var sent, x := NonDefault(m, done), Setting(o, Kept(m, o));
    assert NonDefault(m, done + [o]) == sent + [x] by {
      assert (done + [o])[..|done + [o]| - 1] == done;
    }
    assert SendAll(d, codes, sent + [x]) == Send(now, codes, x) by {
      SendAllConcat(d, codes, sent, [x]);
      SendOne(now, codes, x);
    }
    assert CodesOf(codes, sent + [x]) == CodesOf(codes, sent) + [Code(codes, o)];
    OrAllSnoc(CodesOf(codes, sent), Code(codes, o));
  }

  lemma SkippedOne(
      d: Options, codes: map<nat, SqlReturn>, m: Saved, done: seq<nat>, now: Options, bits: bv16, o: nat)
    requires SentSoFar(d, codes, m, done, now, bits) && Kept(m, o) == Kept(DEFAULTS, o)
    ensures SentSoFar(d, codes, m, done + [o], now, bits)
  {
    assert (done + [o])[..|done + [o]| - 1] == done;
    assert NonDefault(m, done) + [] == NonDefault(m, done);
  }

  ghost predicate OwnOptions(l: seq<Setting>) {
    DistinctOptions(l) && forall i :: 0 <= i < |l| ==> l[i].option >= DRIVER_START
  }

  class Connection {
    var state: ConnState
    var accessMode: Value
    var autocommit: Value
    var currentQualifier: Value
    var loginTimeout: Value
    var odbcCursors: Value
    var packetSize: Value
    var quietMode: Value
    var txnIsolation: Value
    var drvopt: seq<Setting>
    var driver: Driver?

    function Memory(): Saved
      reads this
    {
      Saved(accessMode, autocommit, currentQualifier, loginTimeout, odbcCursors, packetSize, quietMode, txnIsolation, drvopt)
    }

    ghost predicate Valid()
      reads this
    {
      && (state != Allocated ==> driver != null) && OwnOptions(drvopt)
      && (driver != null ==> forall o :: o in driver.codes ==> driver.codes[o].Canonical())
    }

    constructor ()
      ensures Valid() && state == Allocated && driver == null && Memory() == DEFAULTS
    {
      state, driver, drvopt := Allocated, null, [];
      accessMode, autocommit, currentQualifier := Number(0), Number(1), Number(0);
      loginTimeout, odbcCursors, packetSize := Number(0), Number(2), Number(0);
      quietMode, txnIsolation := Number(0), Number(1);
    }

    /** Updates the entry of an option in place, or puts a new one in front. */
    method DrvOptStore(x: Setting)
      requires DistinctOptions(drvopt)
      modifies this`drvopt
      ensures drvopt == Store(old(drvopt), x)
    {
      var i := 0;
      while i < |drvopt| && drvopt[i].option != x.option
        invariant i <= |drvopt| && forall j :: 0 <= j < i ==> drvopt[j].option != x.option
      {
        i := i + 1;
      }
      UpdatedAt(drvopt, x);
      if i == |drvopt| {
        drvopt := [x] + drvopt;
      } else {
        drvopt := drvopt[i := x];
        assert drvopt == Updated(old(drvopt), x);
      }
    }

    // The flags that are kept in every state.
    method FlipFlags(x: Setting)
      modifies this`accessMode, this`autocommit
      ensures accessMode == if x.option == ACCESS_MODE then x.value else old(accessMode)
      ensures autocommit == if x.option == AUTOCOMMIT then x.value else old(autocommit)
    {
      if x.option == ACCESS_MODE {
        accessMode := x.value;
      } else if x.option == AUTOCOMMIT {
        autocommit := x.value;
      }
    }

    // Saves a standard option for later.
    method SaveOption(x: Setting)
      modifies this`currentQualifier, this`loginTimeout, this`odbcCursors, this`packetSize, this`quietMode, this`txnIsolation
      ensures x.option !in {ACCESS_MODE, AUTOCOMMIT} && x.option < DRIVER_START ==>
                Memory() == Remember(old(Memory()), true, x)
      ensures x.option in {ACCESS_MODE, AUTOCOMMIT} || x.option >= DRIVER_START ==> Memory() == old(Memory())
    {
      var o := x.option;
      if o == CURRENT_QUALIFIER {
        currentQualifier := x.value;
      } else if o == LOGIN_TIMEOUT {
        loginTimeout := x.value;
      } else if o == ODBC_CURSORS {
        odbcCursors := x.value;
      } else if o == PACKET_SIZE {
        packetSize := x.value;
      } else if o == QUIET_MODE {
        quietMode := x.value;
      } else if o == TXN_ISOLATION {
        txnIsolation := x.value;
      }
    }

    /** Setting an option before there is a connection; trace is the answer of the tracing part. */
    method SetAllocated(x: Setting, trace: SqlReturn) returns (r: SetOutcome)
      requires Valid() && state == Allocated
      modifies this
      ensures Valid() && state == old(state) && driver == old(driver)
      ensures Memory() == (if x.option in {TRANSLATE_DLL, TRANSLATE_OPTION, TRACE, TRACE_FILE} then old(Memory())
                           else Remember(old(Memory()), driver != null, x))
      ensures r == (if x.option in {TRANSLATE_DLL, TRANSLATE_OPTION} then Posted(E08003)
                    else if x.option in {TRACE, TRACE_FILE} then Answered(trace)
                    else Answered(Success))
    {
      var o := x.option;
      if o == TRANSLATE_DLL || o == TRANSLATE_OPTION {
        return Posted(E08003);
      }
      if o >= DRIVER_START && driver == null {
        UpdatedAt(drvopt, x);
        DrvOptStore(x);
      }
      if o == TRACE || o == TRACE_FILE {
        return Answered(trace);
      }
      FlipFlags(x);
      SaveOption(x);
      return Answered(Success);
    }

    /** Setting an option on a connection; busy says that a statement is in data-at-execution or asynchronous,
        usesAttr that the driver is called through SQLSetConnectAttr, present that it has either function. */
    method SetConnected(x: Setting, busy: bool, usesAttr: bool, present: bool, trace: SqlReturn) returns (r: SetOutcome)
      requires Valid() && state != Allocated
      modifies this, driver
      ensures Valid() && state == old(state) && driver == old(driver) && drvopt == old(drvopt)
      ensures r == if state == Negotiating then Posted(S1010)
                   else if x.option == ODBC_CURSORS then Posted(E08002)
                   else if busy then Posted(S1010)
                   else if x.option in {TRACE, TRACE_FILE} then Answered(trace)
                   else if !present || !Reaches(x.option, usesAttr) then Posted(IM001)
                   else Answered(Code(driver.codes, x.option))
      ensures var calls := state != Negotiating && !busy && present && Reaches(x.option, usesAttr);
        && driver.options == (if calls then Send(old(driver.options), driver.codes, x) else old(driver.options))
        && Memory() == if calls && r.rc.Succeeded() && x.option in {ACCESS_MODE, AUTOCOMMIT}
                       then Remember(old(Memory()), true, x) else old(Memory())
    {
      var o := x.option;
      if state == Negotiating {
        return Posted(S1010);
      }
      if o == ODBC_CURSORS {
        return Posted(E08002);
      }
      if busy {
        return Posted(S1010);
      }
      if o == TRACE || o == TRACE_FILE {
        return Answered(trace);
      }
      if !present || (usesAttr && o in ODBC3_ONLY) {
        return Posted(IM001);
      }
      var rc := driver.SetOption(x);
      if rc.Succeeded() {
        FlipFlags(x);
      }
      return Answered(rc);
    }

    // Gives the driver an option; no error for its own ones.
    method SetInit(x: Setting) returns (rc: SqlReturn)
      requires driver != null
      modifies driver
      ensures driver.options == Send(old(driver.options), driver.codes, x)
      ensures rc == if x.option >= DRIVER_START && Code(driver.codes, x.option) != Success then SuccessWithInfo
                    else Code(driver.codes, x.option)
    {
      rc := driver.SetOption(x);
      if rc != Success && x.option >= DRIVER_START {
        rc := SuccessWithInfo;
      }
    }

    /** What loading the driver sends: the login timeout, which comes before the connection, and the driver's own. */
    method SendOwn() returns (rc: SqlReturn)
      requires Valid() && driver != null
      modifies driver
      ensures driver.options == SendAll(old(driver.options), driver.codes, Timeout(Memory()) + Own(Memory(), driver.codes))
      ensures rc == if Timeout(Memory()) != [] && Code(driver.codes, LOGIN_TIMEOUT) == Error then SuccessWithInfo else Success
    {
      ghost var before, timeout := driver.options, Timeout(Memory());
      if loginTimeout != Number(0) {
        rc := SetInit(Setting(LOGIN_TIMEOUT, loginTimeout));
        SendOne(before, driver.codes, Setting(LOGIN_TIMEOUT, loginTimeout));
        if rc == Error {
          assert timeout + [] == timeout;
          return SuccessWithInfo;
        }
      }
      ghost var d := driver.options;
      assert d == SendAll(before, driver.codes, timeout);
      var i := 0;
      while i < |drvopt|
        invariant i <= |drvopt| && driver.options == SendAll(d, driver.codes, drvopt[..i])
      {
        assert drvopt[..i + 1][..i] == drvopt[..i];
        rc := SetInit(drvopt[i]);
        if rc == Error {
          return SuccessWithInfo;
        }
        i := i + 1;
      }
      assert drvopt[..i] == drvopt;
      SendAllConcat(before, driver.codes, timeout, drvopt);
      return Success;
    }

    // Sends a standard option unless it has its default, and collects the code.
    method SendIfSet(o: nat, bits: bv16, ghost d: Options, ghost done: seq<nat>) returns (r: bv16)
      requires Valid() && driver != null && o < DRIVER_START
      requires SentSoFar(d, driver.codes, Memory(), done, driver.options, bits)
      modifies driver
      ensures SentSoFar(d, driver.codes, Memory(), done + [o], driver.options, r)
    {
      ghost var m, now := Memory(), driver.options;
      var v := Kept(Memory(), o);
      if v == Kept(DEFAULTS, o) {
        SkippedOne(d, driver.codes, m, done, now, bits, o);
        return bits;
      }
      var rc := SetInit(Setting(o, v));
      SentOneMore(d, driver.codes, m, done, now, bits, o);
      return bits | rc.Bits();
    }

    /** Sends the standard options that are not at their defaults, once the driver is connected, and asks for its cursor
        behaviour, which it answers with two codes. One failure fails it, and only plain successes are one. */
    method DbcDelaySet(commit: SqlReturn, rollback: SqlReturn) returns (rc: SqlReturn)
      requires Valid() && driver != null && commit.Canonical() && rollback.Canonical()
      modifies driver
      ensures driver.options == SendAll(old(driver.options), driver.codes, NonDefault(Memory(), DELAYED))
      ensures var rcs := DelayCodes(driver.codes, Memory(), commit, rollback);
        && rc == Handles.Folded(Handles.OrAll(rcs))
        && (rc.Succeeded() <==> Handles.AllSucceeded(rcs)) && (rc == Success <==> AllPlain(rcs))
    {
      ghost var d := driver.options;
      var all := DELAYED;
      assert forall o :: o in all ==> o < DRIVER_START;
      var bits: bv16 := 0;
      var i := 0;
      while i < |all|
        invariant i <= |all| && SentSoFar(d, driver.codes, Memory(), all[..i], driver.options, bits)
      {
        assert all[i] in all;
        bits := SendIfSet(all[i], bits, d, all[..i]);
        assert all[..i] + [all[i]] == all[..i + 1];
        i := i + 1;
      }
      assert all[..i] == all;
      DelayCodesOr(driver.codes, Memory(), commit, rollback, bits);
      DelayCodesCanonical(driver.codes, Memory(), commit, rollback);
      FoldedMeans(DelayCodes(driver.codes, Memory(), commit, rollback));
      rc := Handles.Folded(bits | commit.Bits() | rollback.Bits());
    }

    /** Disconnecting leaves the driver loaded and what is remembered as it is. */
    method Disconnect(rc: SqlReturn)
      requires Valid() && state != Allocated
      modifies this`state
      ensures Valid() && state == if rc.Succeeded() then Allocated else old(state)
    {
      if rc.Succeeded() {
        state := Allocated;
      }
    }

    /** Connecting: what is remembered is sent around the driver's own connect function, which answers rc. If that fails
        the driver stays loaded. That the login timeout was rejected is not reported. */
    method Connect(d: Driver, rc: SqlReturn, commit: SqlReturn, rollback: SqlReturn) returns (r: SqlReturn)
      requires Valid() && state == Allocated && (driver == null || driver == d) && commit.Canonical() && rollback.Canonical()
      requires forall o :: o in d.codes ==> d.codes[o].Canonical()
      modifies this`driver, this`state, d
      ensures Valid() && driver == d && Memory() == old(Memory())
      ensures state == if rc.Succeeded() then Connected else Allocated
      ensures d.options ==
              SendAll(old(d.options), d.codes,
                      if rc.Succeeded() then Sends(Memory(), d.codes) else Timeout(Memory()) + Own(Memory(), d.codes))
      ensures r == ConnectCode(rc, Handles.Folded(Handles.OrAll(DelayCodes(d.codes, Memory(), commit, rollback))))
      ensures r == if !rc.Succeeded() || AllPlain(DelayCodes(d.codes, Memory(), commit, rollback)) then rc
                   else SuccessWithInfo
    {
      driver := d;
      ghost var first := Timeout(Memory()) + Own(Memory(), d.codes);
      var _ := SendOwn();
      assert d.options == SendAll(old(d.options), d.codes, first);
      if !rc.Succeeded() {
        return rc;
      }
      state := Connected;
      SendAllConcat(old(d.options), d.codes, first, NonDefault(Memory(), DELAYED));
      var delayed := DbcDelaySet(commit, rollback);
      assert d.options == SendAll(old(d.options), d.codes, Sends(Memory(), d.codes));
      r := ConnectCode(rc, delayed);
    }
  }

  lemma SendOne(d: Options, codes: map<nat, SqlReturn>, x: Setting)
    ensures SendAll(d, codes, [x]) == Send(d, codes, x)
  {
    assert [x][..0] == [];
  }
}
