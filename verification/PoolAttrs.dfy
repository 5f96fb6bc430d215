/** What taking a connection out of the pool tells its driver: the attributes in which the application's
    request and the entry's record differ, each sent once, whatever the driver answers. */
module PoolAttrs {
  import opened Codes
  import opened PoolSpec
  import Handles
  import O = Options

  type Options = O.Options

  // The attributes that can be set on a connection, in the order in which they are sent.
  const ATTRIBUTES: nat := 5

  function Attribute(k: nat): nat
    requires k < ATTRIBUTES
  {
    match k
    case 0 => O.ACCESS_MODE
    case 1 => O.AUTOCOMMIT
    case 2 => O.CURRENT_QUALIFIER
    case 3 => O.QUIET_MODE
    case _ => O.TXN_ISOLATION
  }

  const RESETTABLE: set<nat> := {O.ACCESS_MODE, O.AUTOCOMMIT, O.CURRENT_QUALIFIER, O.QUIET_MODE, O.TXN_ISOLATION}

  // What a record says of such an attribute, as an option value.
  function Asked(a: Attrs, o: nat): O.Value {
    if o == O.ACCESS_MODE then O.Number(a.accessMode)
    else if o == O.AUTOCOMMIT then O.Number(a.autocommit)
    else if o == O.CURRENT_QUALIFIER then (if a.qualifier.Some? then O.Text(a.qualifier.value) else O.Number(0))
    else if o == O.QUIET_MODE then O.Number(a.quietMode)
    else O.Number(a.txnIsolation)
  }

  /** Whether an attribute is sent: where the records differ; a qualifier whenever one was asked for. */
  predicate Resent(a: Attrs, p: Attrs, o: nat) {
    o in RESETTABLE && if o == O.CURRENT_QUALIFIER then a.qualifier.Some? else Asked(a, o) != Asked(p, o)
  }

  function OneOf(a: Attrs, p: Attrs, o: nat): seq<O.Setting> {
    if Resent(a, p, o) then [O.Setting(o, Asked(a, o))] else []
  }

  // The settings for the first k attributes.
  function Collected(a: Attrs, p: Attrs, k: nat): seq<O.Setting>
    requires k <= ATTRIBUTES
  {
    if k == 0 then [] else Collected(a, p, k - 1) + OneOf(a, p, Attribute(k - 1))
  }

  /** What _iodbcdm_pool_reset_conn_attrs sends for a request a and an entry p. */
  function ResetSettings(a: Attrs, p: Attrs): seq<O.Setting> {
    Collected(a, p, ATTRIBUTES)
  }

  /** And the code with which the connection is handed out. */
  function ResetCode(bits: bv16): SqlReturn {
    if bits == 0 then Success else SuccessWithInfo
  }

  // The driver's connection holds what a record says of every such attribute.
  ghost predicate Agrees(d: Options, a: Attrs) {
    forall o <- RESETTABLE :: AgreesOn(d, a, o)
  }

  predicate AgreesOn(d: Options, a: Attrs, o: nat) {
    o in d && d[o] == Asked(a, o)
  }

  // A record with one attribute of another.
  function WithAttr(q: Attrs, a: Attrs, o: nat): Attrs {
    if o == O.ACCESS_MODE then q.(accessMode := a.accessMode)
    else if o == O.AUTOCOMMIT then q.(autocommit := a.autocommit)
    else if o == O.CURRENT_QUALIFIER then q.(qualifier := a.qualifier)
    else if o == O.QUIET_MODE then q.(quietMode := a.quietMode)
    else q.(txnIsolation := a.txnIsolation)
  }

  function Taking(q: Attrs, a: Attrs, p: Attrs, o: nat): Attrs {
    if Resent(a, p, o) then WithAttr(q, a, o) else q
  }

  // The record of the entry after the first k of the attributes.
  function TakenUpTo(a: Attrs, p: Attrs, k: nat): Attrs
    requires k <= ATTRIBUTES
  {
    if k == 0 then p else Taking(TakenUpTo(a, p, k - 1), a, p, Attribute(k - 1))
  }

  lemma TakenAll(a: Attrs, p: Attrs)
    ensures TakenUpTo(a, p, ATTRIBUTES) == ResetAttrs(a, p)
  {
    var q2 := p.(accessMode := a.accessMode, autocommit := a.autocommit);
    assert TakenUpTo(a, p, 1) == p.(accessMode := a.accessMode);
    assert TakenUpTo(a, p, 2) == q2;
    var q3 := q2.(qualifier := if a.qualifier.Some? then a.qualifier else p.qualifier);
    assert TakenUpTo(a, p, 3) == q3;
    assert TakenUpTo(a, p, 4) == q3.(quietMode := a.quietMode);
  }

  // Whether an option is one of the first k attributes.
  predicate Among(k: nat, o: nat)
    requires k <= ATTRIBUTES
  {
    k > 0 && (Attribute(k - 1) == o || Among(k - 1, o))
  }

  lemma {:induction false} CollectedLast(a: Attrs, p: Attrs, k: nat, o: nat)
    requires k <= ATTRIBUTES
    ensures var r := O.LastOf(Collected(a, p, k));
      (o in r <==> Among(k, o) && Resent(a, p, o)) && (o in r ==> r[o] == Asked(a, o))
  {
    if k > 0 {
      var before, here := Collected(a, p, k - 1), OneOf(a, p, Attribute(k - 1));
      CollectedLast(a, p, k - 1, o);
      O.LastOfConcat(before, here);
      O.LastOfOne(here);
    }
  }

  lemma AmongAll(o: nat)
    ensures Among(ATTRIBUTES, o) <==> o in RESETTABLE
  {
    assert Among(1, o) <==> o == O.ACCESS_MODE;
    assert Among(2, o) <==> o in {O.ACCESS_MODE, O.AUTOCOMMIT};
    assert Among(3, o) <==> o in {O.ACCESS_MODE, O.AUTOCOMMIT, O.CURRENT_QUALIFIER};
    assert Among(4, o) <==> o in {O.ACCESS_MODE, O.AUTOCOMMIT, O.CURRENT_QUALIFIER, O.QUIET_MODE};
  }

  lemma SentIsResent(a: Attrs, p: Attrs, o: nat)
    ensures var r := O.LastOf(ResetSettings(a, p));
      (o in r <==> Resent(a, p, o)) && (o in r ==> r[o] == Asked(a, o))
  {
    CollectedLast(a, p, ATTRIBUTES, o);
    AmongAll(o);
  }

  // The record that goes out names the attributes that were asked for, sent or not, accepted or not.
  lemma RecordNamesAsked(strict: bool, a: Attrs, p: Attrs, o: nat)
    requires AttrsMatch(strict, a, p) && o in RESETTABLE
    ensures Asked(ResetAttrs(a, p), o) == Asked(a, o)
    ensures !Resent(a, p, o) ==> Asked(p, o) == Asked(a, o)
  {
  }

  /** The driver of a connection taken from the pool holds what was asked for exactly if it accepts each attribute
      that it does not hold already. */
  lemma TakenDriverAgreesIff(strict: bool, a: Attrs, p: Attrs, d: Options, codes: map<nat, SqlReturn>)
    requires AttrsMatch(strict, a, p)
    ensures Agrees(O.SendAll(d, codes, ResetSettings(a, p)), ResetAttrs(a, p)) <==>
            forall o <- RESETTABLE :: AgreesOn(d, a, o) || (Resent(a, p, o) && O.Code(codes, o).Succeeded())
  {
    var r := O.SendAll(d, codes, ResetSettings(a, p));
    forall o <- RESETTABLE
      ensures AgreesOn(r, ResetAttrs(a, p), o) <==>
              AgreesOn(d, a, o) || (Resent(a, p, o) && O.Code(codes, o).Succeeded())
    {
      SentIsResent(a, p, o);
      O.SendAllLooks(d, codes, ResetSettings(a, p), o);
      RecordNamesAsked(strict, a, p, o);
    }
  }

  /** So if the pool entry's record was true of its driver, exactly if the driver accepts each attribute in which the
      request differs from it. */
  lemma TakenFromTrueEntryIff(strict: bool, a: Attrs, p: Attrs, d: Options, codes: map<nat, SqlReturn>)
    requires AttrsMatch(strict, a, p) && Agrees(d, p)
    ensures Agrees(O.SendAll(d, codes, ResetSettings(a, p)), ResetAttrs(a, p)) <==>
            forall o <- RESETTABLE :: Asked(a, o) != Asked(p, o) ==> O.Code(codes, o).Succeeded()
  {
    TakenDriverAgreesIff(strict, a, p, d, codes);
    forall o <- RESETTABLE
      ensures (AgreesOn(d, a, o) || (Resent(a, p, o) && O.Code(codes, o).Succeeded())) <==>
              (Asked(a, o) != Asked(p, o) ==> O.Code(codes, o).Succeeded())
    {
      assert AgreesOn(d, p, o);
      RecordNamesAsked(strict, a, p, o);
    }
  }

  /** The connection is handed out with a plain success exactly if every attribute sent got one. */
  lemma ResetCodePlainIff(a: Attrs, p: Attrs, codes: map<nat, SqlReturn>)
    requires forall o :: o in codes ==> codes[o].Canonical()
    ensures ResetCode(Handles.OrAll(O.CodesOf(codes, ResetSettings(a, p)))) == Success <==>
            forall o <- RESETTABLE :: Resent(a, p, o) ==> O.Code(codes, o) == Success
  {
    var xs := ResetSettings(a, p);
    var rcs := O.CodesOf(codes, xs);
    O.OrAllPlain(rcs);
    forall o ensures Resent(a, p, o) <==> O.Has(xs, o) {
      SentIsResent(a, p, o);
      O.LastOfKeys(xs, o);
    }
    if forall o <- RESETTABLE :: Resent(a, p, o) ==> O.Code(codes, o) == Success {
      forall i | 0 <= i < |xs| ensures rcs[i] == Success {
        assert O.Has(xs, xs[i].option);
      }
    } else {
      var o :| o in RESETTABLE && Resent(a, p, o) && O.Code(codes, o) != Success;
      var i :| 0 <= i < |xs| && xs[i].option == o;
      assert rcs[i] != Success;
    }
  }

  // These have been sent to a driver that held d, which now holds this; bits is the or of its answers.
  ghost predicate Told(d: Options, codes: map<nat, SqlReturn>, sent: seq<O.Setting>, now: Options, bits: bv16) {
    now == O.SendAll(d, codes, sent) && bits == Handles.OrAll(O.CodesOf(codes, sent))
  }

  lemma ToldNothing(d: Options, codes: map<nat, SqlReturn>)
    ensures Told(d, codes, [], d, 0)
  {
  }

  lemma ToldOne(d: Options, codes: map<nat, SqlReturn>, sent: seq<O.Setting>, now: Options, bits: bv16, x: O.Setting)
    requires Told(d, codes, sent, now, bits)
    ensures Told(d, codes, sent + [x], O.Send(now, codes, x), bits | O.Code(codes, x.option).Bits())
  {
    O.SendAllConcat(d, codes, sent, [x]);
    O.SendOne(now, codes, x);
    assert O.CodesOf(codes, sent + [x]) == O.CodesOf(codes, sent) + [O.Code(codes, x.option)];
    O.OrAllSnoc(O.CodesOf(codes, sent), O.Code(codes, x.option));
  }

  // The first k attributes have been dealt with.
  ghost predicate ToldUpTo(
      d: Options, codes: map<nat, SqlReturn>, a: Attrs, p: Attrs, k: nat, now: Options, bits: bv16)
  {
    k <= ATTRIBUTES && Told(d, codes, Collected(a, p, k), now, bits)
  }

  // One more: it has been sent, or did not have to be.
  lemma ToldNext(d: Options, codes: map<nat, SqlReturn>, a: Attrs, p: Attrs, k: nat, now: Options, bits: bv16)
    requires k < ATTRIBUTES && ToldUpTo(d, codes, a, p, k, now, bits)
    ensures var o := Attribute(k);
      if Resent(a, p, o)
      then ToldUpTo(d, codes, a, p, k + 1, O.Send(now, codes, O.Setting(o, Asked(a, o))), bits | O.Code(codes, o).Bits())
      else ToldUpTo(d, codes, a, p, k + 1, now, bits)
  {
    var o, sent := Attribute(k), Collected(a, p, k);
    assert Collected(a, p, k + 1) == sent + OneOf(a, p, o);
    if Resent(a, p, o) {
      ToldOne(d, codes, sent, now, bits, O.Setting(o, Asked(a, o)));
    } else {
      NothingMore(sent);
    }
  }

  lemma NothingMore(sent: seq<O.Setting>)
    ensures sent + [] == sent
  {
  }

  // ---- From the pool or anew ----

  // What a connection with these attributes remembers for a driver that it connects to anew.
  function SavedFor(a: Attrs): O.Saved {
    O.Saved(O.Number(a.accessMode), O.Number(a.autocommit),
            if a.qualifier.Some? then O.Text(a.qualifier.value) else O.Number(0),
            O.Number(0), O.Number(a.odbcCursors), O.Number(a.packetSize), O.Number(a.quietMode), O.Number(a.txnIsolation), [])
  }

  lemma AskedIsKept(a: Attrs, o: nat)
    requires o in RESETTABLE
    ensures Asked(a, o) == O.Kept(SavedFor(a), o)
    ensures Asked(DEFAULT_ATTRS, o) == O.Kept(O.DEFAULTS, o)
    ensures o in O.DELAYED
  {
  }

  /** A driver that accepts everything holds the attributes that were asked for whether it is taken from the pool, with a
      record that is true of it, or connected to anew, from the defaults. */
  lemma PooledOrAnew(strict: bool, a: Attrs, p: Attrs, pooled: Options, unused: Options, codes: map<nat, SqlReturn>)
    requires AttrsMatch(strict, a, p) && Agrees(pooled, p) && Agrees(unused, DEFAULT_ATTRS)
    requires forall o <- RESETTABLE :: O.Code(codes, o).Succeeded()
    ensures Agrees(O.SendAll(pooled, codes, ResetSettings(a, p)), a)
    ensures Agrees(O.SendAll(unused, codes, O.NonDefault(SavedFor(a), O.DELAYED)), a)
  {
    TakenFromTrueEntryIff(strict, a, p, pooled, codes);
    var taken, anew := O.SendAll(pooled, codes, ResetSettings(a, p)), O.NonDefault(SavedFor(a), O.DELAYED);
    forall o <- RESETTABLE ensures AgreesOn(taken, a, o) && AgreesOn(O.SendAll(unused, codes, anew), a, o) {
      RecordNamesAsked(strict, a, p, o);
      assert AgreesOn(taken, ResetAttrs(a, p), o);
      AskedIsKept(a, o);
      assert AgreesOn(unused, DEFAULT_ATTRS, o);
      O.NonDefaultLast(SavedFor(a), O.DELAYED, o);
      O.SendAllLooks(unused, codes, anew, o);
    }
  }
}
