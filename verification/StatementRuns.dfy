/** Whole runs of one statement, over every sequence of calls and every driver. */
module StatementRuns {
  import opened Codes
  import opened StatementSpec
  import Polling

  datatype Event =
    | ApiCall(p: Api, arg: Option<SqlState>, a: Answer)
    // A transaction's end on the connection, all of whose other statements are idle.
    | EndTran(driverAgrees: bool, onCommit: CursorBehaviour, onRollback: CursorBehaviour)

  function Step(r: StmtRec, e: Event): StmtRec {
    match e
    case ApiCall(p, arg, a) => Call(p, arg, r, a).after
    case EndTran(agrees, onCommit, onRollback) =>
      if agrees && r.Idle() then Transacted(r, onCommit, onRollback) else r
  }

  // The record after each of the events in turn, from a freshly allocated statement.
  function Run(es: seq<Event>): StmtRec {
    if es == [] then FRESH else Step(Run(es[..|es| - 1]), es[|es| - 1])
  }

  // The same from any record.
  function RunOn(r: StmtRec, es: seq<Event>): StmtRec {
    if es == [] then r else Step(RunOn(r, es[..|es| - 1]), es[|es| - 1])
  }

  predicate Reaches(r: StmtRec, e: Event) {
    e.ApiCall? && Call(e.p, e.arg, r, e.a).reached
  }

  // ---- What becomes of a pending call ----

  /** The driver ends the pending call with one of its own codes. */
  predicate EndsPending(r: StmtRec, e: Event) {
    Reaches(r, e) && e.p == r.asynOn && Ends(e.p, e.a.rc)
  }

  /** SQLDescribeCol, which no gate keeps out, is left executing in its place. */
  predicate ReplacesPending(r: StmtRec, e: Event) {
    Reaches(r, e) && e.p == DescribeCol && r.asynOn != DescribeCol && e.a.rc == StillExecuting &&
    (r.state.Prepared? || r.state.CursorOpen? || r.state.Fetched? || r.state.XFetched?)
  }

  lemma CallKeepsPending(p: Api, arg: Option<SqlState>, r: StmtRec, a: Answer)
    requires r.asynOn.Pollable()
    ensures var e := ApiCall(p, arg, a);
      Call(p, arg, r, a).after.asynOn == r.asynOn <==> !EndsPending(r, e) && !ReplacesPending(r, e)
  {
    if p == r.asynOn && Call(p, arg, r, a).reached && Ends(p, a.rc) {
      Polling.EndedIsOver(p, r.(asynOn := NullProc), a.rc, a.cols);
    }
  }

  /** A pending call stays pending exactly until one of these two happens. */
  lemma PendingEndsIff(r: StmtRec, e: Event)
    requires r.asynOn.Pollable()
    ensures Step(r, e).asynOn == r.asynOn <==> !EndsPending(r, e) && !ReplacesPending(r, e)
  {
    if e.ApiCall? {
      CallKeepsPending(e.p, e.arg, r, e.a);
    }
  }

  /** So nothing but SQLDescribeCol takes the place of a pending SQLNumParams or SQLDescribeParam, which no code ends. */
  lemma {:induction false} ParameterInfoStaysPending(r: StmtRec, es: seq<Event>)
    requires r.asynOn == NumParams || r.asynOn == DescribeParam
    requires forall i :: 0 <= i < |es| && es[i].ApiCall? ==> es[i].p != DescribeCol
    ensures RunOn(r, es).asynOn == r.asynOn
  {
    if es != [] {
      ParameterInfoStaysPending(r, es[..|es| - 1]);
      PendingEndsIff(RunOn(r, es[..|es| - 1]), es[|es| - 1]);
    }
  }

  /** SQLDescribeCol, left executing and then ended, makes it forgotten. */
  lemma DescribeColForgetsPending(r: StmtRec)
    requires r.asynOn != NullProc && r.asynOn != DescribeCol && r.state.Prepared?
    ensures var busy, done := Answering(DescribeCol, StillExecuting), Answering(DescribeCol, Success);
      RunOn(r, [busy] + [done]) == r.(asynOn := NullProc)
  {
    var busy, done := Answering(DescribeCol, StillExecuting), Answering(DescribeCol, Success);
    assert ([busy] + [done])[..1] == [busy] && [busy][..0] == [];
    assert RunOn(r, [busy]) == Step(r, busy) == r.(asynOn := DescribeCol);
  }

  // ---- When SQLExecute reaches the driver ----

  /** A preparation the driver agreed to. */
  predicate Grants(r: StmtRec, e: Event) {
    Reaches(r, e) && (e.p == Prepare || e.p == ExecDirect) && e.a.rc.Succeeded()
  }

  /** A failed direct execution or catalog call on a statement without an open cursor; the same for
      SQLPrepare, unless it was polled or the statement is merely allocated; or a transaction that
      deletes plans, unless the statement is merely allocated. */
  predicate Revokes(r: StmtRec, e: Event) {
    match e
    case ApiCall(p, arg, a) =>
      Reaches(r, e) && a.rc == Error && r.state.AtMostExecuted() &&
      (p == ExecDirect || p.Catalog? || (p == Prepare && r.asynOn == NullProc && !r.state.Allocated?))
    case EndTran(agrees, onCommit, onRollback) =>
      agrees && r.Idle() && !r.state.Allocated? && (onCommit.Delete? || onRollback.Delete?)
  }

  // SQLMoreResults answered on an allocated statement without a plan, unless it stays pending: the one call
  // that makes a statement prepared without one.
  predicate Conjures(r: StmtRec, e: Event) {
    Reaches(r, e) && e.p == MoreResults && r.state.Allocated? && !r.prep &&
    (r.asynOn == NullProc || Ends(MoreResults, e.a.rc))
  }

  function GrantedAt(es: seq<Event>): nat -> bool {
    (i: nat) => i < |es| && Grants(Run(es[..i]), es[i])
  }

  function RevokedAt(es: seq<Event>): nat -> bool {
    (i: nat) => i < |es| && Revokes(Run(es[..i]), es[i])
  }

  /** Some event before the nth granted a plan that no event since has revoked. */
  ghost predicate HasPlan(es: seq<Event>, n: nat) {
    Lasts(GrantedAt(es), RevokedAt(es), n)
  }

  ghost predicate Lasts(granted: nat -> bool, revoked: nat -> bool, n: nat) {
    exists i: nat :: i < n && granted(i) && forall j: nat :: i < j < n ==> !revoked(j)
  }

  lemma LastsOn(granted: nat -> bool, revoked: nat -> bool, n: nat)
    requires Lasts(granted, revoked, n) && !revoked(n)
    ensures Lasts(granted, revoked, n + 1)
  {
    var i: nat :| i < n && granted(i) && forall j: nat :: i < j < n ==> !revoked(j);
    assert i < n + 1;
  }

  lemma LastsFrom(granted: nat -> bool, revoked: nat -> bool, n: nat)
    requires granted(n)
    ensures Lasts(granted, revoked, n + 1)
  {
    assert n < n + 1;
  }

  predicate PlanInv(r: StmtRec) {
    && (r.state.Prepared? ==> r.prep)
    && (r.needOn == Execute ==> r.prep && r.state.AwaitsData())
    && (r.asynOn == Execute ==> r.prep)
  }

  /** A step keeps the invariant exactly if it is not that call. */
  lemma PlanInvStep(r: StmtRec, e: Event)
    requires PlanInv(r)
    ensures PlanInv(Step(r, e)) <==> !Conjures(r, e)
  {
    match e
    case EndTran(_, _, _) =>
    case ApiCall(p, arg, a) =>
      if p == MoreResults && r.state.Allocated? {
        MoreResultsKeepsPlan(r, arg, a);
      } else if Call(p, arg, r, a).reached {
        var g := Admitted(p, r, a.cols);
        assert PlanInv(g) && PlanInv(Ended(p, g));
        if p == Execute {
          assert r.prep;
          ExecuteKeepsPlan(Ended(p, g), a.rc, a.cols);
        } else if p != Prepare || r.asynOn == NullProc {
          SettleKeepsPlan(p, Ended(p, g), a.rc, a.cols);
        }
      }
  }

  lemma MoreResultsKeepsPlan(r: StmtRec, arg: Option<SqlState>, a: Answer)
    requires PlanInv(r) && r.state.Allocated?
    ensures PlanInv(Call(MoreResults, arg, r, a).after) <==> !Conjures(r, ApiCall(MoreResults, arg, a))
  {
  }

  lemma ExecuteKeepsPlan(u: StmtRec, rc: SqlReturn, c: ColsAnswer)
    requires PlanInv(u) && u.prep
    ensures PlanInv(Settle(Execute, u, rc, c))
  {
  }

  lemma SettleKeepsPlan(p: Api, u: StmtRec, rc: SqlReturn, c: ColsAnswer)
    requires PlanInv(u) && p != Execute && !(p == MoreResults && u.state.Allocated?)
    requires p == Cancel || p == DescribeCol || u.asynOn != Execute
    requires p == Prepare ==> !u.state.AwaitsData()
    ensures PlanInv(Settle(p, u, rc, c))
  {
  }

  // Without a grant no step arms an unarmed statement, and only a revocation disarms it.
  lemma PlanStep(r: StmtRec, e: Event)
    requires Step(r, e).prep
    ensures Grants(r, e) || (r.prep && !Revokes(r, e))
  {
    match e
    case EndTran(_, _, _) =>
    case ApiCall(p, arg, a) =>
      if Call(p, arg, r, a).reached {
        SettlePrep(p, Ended(p, Admitted(p, r, a.cols)), a.rc, a.cols);
      }
  }

  lemma SettlePrep(p: Api, u: StmtRec, rc: SqlReturn, c: ColsAnswer)
    ensures Settle(p, u, rc, c).prep ==
            if (p == Prepare || p == ExecDirect) && rc.Succeeded() && (p == Prepare || u.state.AtMostExecuted()) then true
            else if (p == ExecDirect || p.Catalog?) && rc == Error && u.state.AtMostExecuted() then false
            else if p == Prepare && rc == Error && u.state.AtMostExecuted() && !u.state.Allocated? then false
            else u.prep
  {
  }

  lemma PlanGranted(es: seq<Event>, n: nat)
    requires GrantedAt(es)(n)
    ensures HasPlan(es, n + 1)
  {
    LastsFrom(GrantedAt(es), RevokedAt(es), n);
  }

  lemma PlanKept(es: seq<Event>, n: nat)
    requires HasPlan(es, n) && !RevokedAt(es)(n)
    ensures HasPlan(es, n + 1)
  {
    LastsOn(GrantedAt(es), RevokedAt(es), n);
  }

  lemma {:induction false} ArmedHasPlan(es: seq<Event>, n: nat)
    requires n <= |es| && Run(es[..n]).prep
    ensures HasPlan(es, n)
  {
    if n > 0 {
      assert es[..n][..n - 1] == es[..n - 1];
      var before := Run(es[..n - 1]);
      PlanStep(before, es[n - 1]);
      if Grants(before, es[n - 1]) {
        PlanGranted(es, n - 1);
      } else {
        ArmedHasPlan(es, n - 1);
        PlanKept(es, n - 1);
      }
    }
  }

  function ConjuredAt(es: seq<Event>): nat -> bool {
    (i: nat) => i < |es| && Conjures(Run(es[..i]), es[i])
  }

  function MendedAt(es: seq<Event>): nat -> bool {
    (i: nat) => i < |es| && PlanInv(Run(es[..i + 1]))
  }

  // The invariant holds, or it was broken by that call and has not been mended since.
  lemma {:induction false} PlanInvOrConjured(es: seq<Event>, n: nat)
    requires n <= |es|
    ensures PlanInv(Run(es[..n])) || Lasts(ConjuredAt(es), MendedAt(es), n)
  {
    if n > 0 {
      assert es[..n][..n - 1] == es[..n - 1];
      PlanInvOrConjured(es, n - 1);
      if PlanInv(Run(es[..n - 1])) {
        PlanInvStep(Run(es[..n - 1]), es[n - 1]);
        if Conjures(Run(es[..n - 1]), es[n - 1]) {
          LastsFrom(ConjuredAt(es), MendedAt(es), n - 1);
        }
      } else if !PlanInv(Run(es[..n])) {
        LastsOn(ConjuredAt(es), MendedAt(es), n - 1);
      }
    }
  }

  lemma ExecuteNeedsPlan(r: StmtRec, arg: Option<SqlState>, a: Answer)
    requires PlanInv(r) && Call(Execute, arg, r, a).reached
    ensures r.prep
  {
  }

  /** Over every run and every driver: when SQLExecute reaches the driver, an earlier SQLPrepare or
      SQLExecDirect had succeeded and nothing has revoked its plan since - or else SQLMoreResults had
      made the statement prepared without one, and nothing has mended that since. */
  lemma ExecuteReachesDriverOnlyWithPlan(es: seq<Event>, arg: Option<SqlState>, a: Answer)
    requires Call(Execute, arg, Run(es), a).reached
    ensures HasPlan(es, |es|) || Lasts(ConjuredAt(es), MendedAt(es), |es|)
  {
    assert es[..|es|] == es;
    PlanInvOrConjured(es, |es|);
    if PlanInv(Run(es)) {
      ExecuteNeedsPlan(Run(es), arg, a);
      ArmedHasPlan(es, |es|);
    }
  }

  const NO_COLS: ColsAnswer := ColsAnswer(true, Error, 0)

  function Answering(p: Api, rc: SqlReturn): Event {
    ApiCall(p, None, Answer(true, rc, NO_COLS))
  }

  lemma {:induction false} RunFrom(es: seq<Event>, e: Event)
    ensures Run(es + [e]) == Step(Run(es), e)
  {
    assert (es + [e])[..|es|] == es;
  }

  /** The exception is real: SQLMoreResults on a fresh statement lets SQLExecute through unprepared. */
  lemma MoreResultsConjuresPlan(a: Answer)
    requires a.present
    ensures var es := [Answering(MoreResults, Success)];
            Call(Execute, None, Run(es), a).reached && !HasPlan(es, |es|)
  {
    var e := Answering(MoreResults, Success);
    assert Run([e]) == FRESH.(state := Prepared) by {
      RunFrom([], e);
      assert [] + [e] == [e];
      ConjuredStep();
    }
    ConjuredReaches(a);
    NothingGranted(e);
  }

  lemma ConjuredStep()
    ensures Step(FRESH, Answering(MoreResults, Success)) == FRESH.(state := Prepared)
  {
  }

  lemma ConjuredReaches(a: Answer)
    requires a.present
    ensures Call(Execute, None, FRESH.(state := Prepared), a).reached
  {
  }

  lemma NothingGranted(e: Event)
    requires e.ApiCall? && e.p == MoreResults
    ensures !HasPlan([e], 1)
  {
    assert !Grants(Run([e][..0]), e);
    assert forall i: nat :: i < 1 ==> !GrantedAt([e])(i);
  }

  // A cancelled SQLExecDirect hides a prepared plan ...
  const HIDING: seq<Event> :=
    [] + [Answering(Prepare, Success)] + [Answering(ExecDirect, NeedData)] + [Answering(Cancel, Success)]

  // ... a transaction deletes the plans of the connection, and a catalog call brings it back.
  const DELETING: Event := EndTran(true, Delete, Delete)
  const SURVIVING: seq<Event> := HIDING + [DELETING] + [Answering(Catalog(0), Success)]

  /** A deleting transaction leaves an idle statement its plan exactly if the statement is merely allocated. */
  lemma PlanSurvivesDeletionIff(r: StmtRec, onCommit: CursorBehaviour, onRollback: CursorBehaviour)
    requires r.Idle() && (onCommit.Delete? || onRollback.Delete?)
    ensures Step(r, EndTran(true, onCommit, onRollback)).prep <==> r.prep && r.state.Allocated?
  {
  }

  /** And a run can come to that: a deleted plan is executed again. */
  lemma DeletedPlanSurvives(a: Answer)
    requires a.present
    ensures Call(Execute, None, Run(SURVIVING), a).reached
  {
    HiddenPlan();
    var es := HIDING;
    RunFrom(es, DELETING);
    RunFrom(es + [DELETING], Answering(Catalog(0), Success));
    ShownPlan(a);
  }

  lemma ShownPlan(a: Answer)
    requires a.present
    ensures Call(Execute, None, Step(HIDDEN, Answering(Catalog(0), Success)), a).reached
  {
    assert Step(HIDDEN, Answering(Catalog(0), Success)) == HIDDEN.(state := CursorOpen);
  }

  lemma HiddenPlan()
    ensures Run(HIDING) == HIDDEN && Step(HIDDEN, DELETING) == HIDDEN
  {
    RunFrom([], Answering(Prepare, Success));
    RunFrom([] + [Answering(Prepare, Success)], Answering(ExecDirect, NeedData));
    RunFrom([] + [Answering(Prepare, Success)] + [Answering(ExecDirect, NeedData)], Answering(Cancel, Success));
    SurvivingSteps();
  }

  // A plan that sits out a transaction in the allocated state.
  const HIDDEN: StmtRec := StmtRec(Allocated, NoCursor, true, NullProc, NullProc)

  lemma SurvivingSteps()
    ensures var s := Step(FRESH, Answering(Prepare, Success));
            Step(Step(s, Answering(ExecDirect, NeedData)), Answering(Cancel, Success)) == HIDDEN
  {
    assert Step(FRESH, Answering(Prepare, Success)) == StmtRec(Prepared, NoCursor, true, NullProc, NullProc);
    DirectCancelled(StmtRec(Prepared, NoCursor, true, NullProc, NullProc));
  }

  lemma DirectCancelled(r: StmtRec)
    requires r.state.Prepared? && r.asynOn == NullProc
    ensures Step(Step(r, Answering(ExecDirect, NeedData)), Answering(Cancel, Success)) ==
            r.(state := Allocated, needOn := NullProc)
  {
    assert Step(r, Answering(ExecDirect, NeedData)) == r.(state := NeedsData, needOn := ExecDirect);
  }
}
