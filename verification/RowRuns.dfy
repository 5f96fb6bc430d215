/** Whole runs of one statement: a row is read or positioned on only after a fetch. */
module RowRuns {
  import opened Codes
  import opened StatementSpec
  import opened StatementRuns

  /** On a row, or waiting for the data of a row it is on. */
  predicate OnRow(r: StmtRec) {
    r.state.Fetched? || r.state.XFetched? || (r.state.AwaitsData() && r.needOn == SetPos)
  }

  /** A fetch that the driver answered with a row or with the end of the data. */
  predicate Fetches(r: StmtRec, e: Event) {
    Reaches(r, e) && (e.p == Fetch || e.p == ExtendedFetch || e.p == FetchScroll) &&
    (e.a.rc.Succeeded() || e.a.rc == NoData)
  }

  /** A positioning call that was pending when the row was left, by a cancel, and then asks for data. */
  predicate Regains(r: StmtRec, e: Event) {
    Reaches(r, e) && e.p == SetPos && e.a.rc == NeedData && !OnRow(r)
  }

  function PutOnRowAt(es: seq<Event>): nat -> bool {
    (i: nat) =>
      i < |es| && (Fetches(Run(es[..i]), es[i]) || Regains(Run(es[..i]), es[i])) && OnRow(Run(es[..i + 1]))
  }

  function LeftRowAt(es: seq<Event>): nat -> bool {
    (i: nat) => i < |es| && !OnRow(Run(es[..i + 1]))
  }

  // A cancelled SQLPutData that is still pending has forgotten who asked for its data.
  predicate Forgot(r: StmtRec) {
    r.asynOn == PutData && !r.state.AwaitsData() ==> r.needOn != SetPos
  }

  lemma SettleForgets(p: Api, u: StmtRec, rc: SqlReturn, c: ColsAnswer)
    requires Forgot(u) && (u.asynOn == PutData ==> p == Cancel || p == DescribeCol)
    requires p == PutData && !u.state.AwaitsData() ==> u.needOn != SetPos
    ensures Forgot(Settle(p, u, rc, c))
  {
  }

  lemma SettleOnRow(p: Api, u: StmtRec, rc: SqlReturn, c: ColsAnswer)
    requires p == PutData && !u.state.AwaitsData() ==> u.needOn != SetPos
    requires OnRow(Settle(p, u, rc, c))
    ensures OnRow(u) || (p == SetPos && rc == NeedData) ||
            ((p == Fetch || p == ExtendedFetch || p == FetchScroll) && (rc.Succeeded() || rc == NoData))
  {
  }

  // What passes the gate of a call, in terms of the record that its transition starts from.
  lemma Admission(p: Api, arg: Option<SqlState>, r: StmtRec, a: Answer)
    requires Forgot(r) && Call(p, arg, r, a).reached
    ensures var u := Ended(p, Admitted(p, r, a.cols));
      && Forgot(u) && (OnRow(u) ==> OnRow(r)) && (u.asynOn == PutData ==> p == Cancel || p == DescribeCol)
      && (p == PutData && !u.state.AwaitsData() ==> u.needOn != SetPos)
  {
  }

  lemma CallForgets(p: Api, arg: Option<SqlState>, r: StmtRec, a: Answer)
    requires Forgot(r)
    ensures Forgot(Call(p, arg, r, a).after)
  {
    if Call(p, arg, r, a).reached {
      Admission(p, arg, r, a);
      SettleForgets(p, Ended(p, Admitted(p, r, a.cols)), a.rc, a.cols);
    }
  }

  lemma CallOnRow(p: Api, arg: Option<SqlState>, r: StmtRec, a: Answer)
    requires Forgot(r) && OnRow(Call(p, arg, r, a).after)
    ensures OnRow(r) || Fetches(r, ApiCall(p, arg, a)) || Regains(r, ApiCall(p, arg, a))
  {
    if Call(p, arg, r, a).reached {
      Admission(p, arg, r, a);
      var u := Ended(p, Admitted(p, r, a.cols));
      if Call(p, arg, r, a).after == Settle(p, u, a.rc, a.cols) {
        SettleOnRow(p, u, a.rc, a.cols);
      }
    }
  }

  lemma TransactedOffRow(r: StmtRec, onCommit: CursorBehaviour, onRollback: CursorBehaviour)
    ensures var s := Transacted(r, onCommit, onRollback); (OnRow(s) ==> OnRow(r)) && (Forgot(r) ==> Forgot(s))
  {
  }

  lemma StepForgets(r: StmtRec, e: Event)
    requires Forgot(r)
    ensures Forgot(Step(r, e))
  {
    match e
    case ApiCall(p, arg, a) => CallForgets(p, arg, r, a);
    case EndTran(_, onCommit, onRollback) => TransactedOffRow(r, onCommit, onRollback);
  }

  lemma StepOnRow(r: StmtRec, e: Event)
    requires Forgot(r) && OnRow(Step(r, e))
    ensures OnRow(r) || Fetches(r, e) || Regains(r, e)
  {
    match e
    case ApiCall(p, arg, a) => CallOnRow(p, arg, r, a);
    case EndTran(_, onCommit, onRollback) => TransactedOffRow(r, onCommit, onRollback);
  }

  lemma {:induction false} RunForgets(es: seq<Event>)
    ensures Forgot(Run(es))
    decreases |es|
  {
    if es != [] {
      RunForgets(es[..|es| - 1]);
      StepForgets(Run(es[..|es| - 1]), es[|es| - 1]);
    }
  }

  lemma {:induction false} OnRowSince(es: seq<Event>, n: nat)
    requires n <= |es| && OnRow(Run(es[..n]))
    ensures Lasts(PutOnRowAt(es), LeftRowAt(es), n)
  {
    if n > 0 {
      var before, e := Run(es[..n - 1]), es[n - 1];
      assert es[..n][..n - 1] == es[..n - 1];
      RunForgets(es[..n - 1]);
      StepOnRow(before, e);
      if Fetches(before, e) || Regains(before, e) {
        LastsFrom(PutOnRowAt(es), LeftRowAt(es), n - 1);
      } else {
        OnRowSince(es, n - 1);
        LastsOn(PutOnRowAt(es), LeftRowAt(es), n - 1);
      }
    }
  }

  lemma RowGate(p: Api, arg: Option<SqlState>, r: StmtRec, a: Answer)
    requires (p == GetData || p == SetPos) && Call(p, arg, r, a).reached
    ensures r.asynOn == p || OnRow(r)
  {
  }

  /** Over every run and every driver: when SQLGetData or SQLSetPos reaches the driver, and is not the continuation of
      a pending one, a fetch has put the statement on a row, or a positioning call that a cancel had overtaken has
      asked for data, and nothing since has taken it off. */
  lemma RowCallsNeedFetch(es: seq<Event>, p: Api, arg: Option<SqlState>, a: Answer)
    requires (p == GetData || p == SetPos) && Call(p, arg, Run(es), a).reached && Run(es).asynOn != p
    ensures Lasts(PutOnRowAt(es), LeftRowAt(es), |es|)
  {
    RowGate(p, arg, Run(es), a);
    assert es[..|es|] == es;
    OnRowSince(es, |es|);
  }

  const ON_FIRST_ROW: StmtRec := StmtRec(XFetched, CursorXFetched, true, NullProc, NullProc)

  // Executed with a cursor, and fetched.
  const FETCHING: seq<Event> :=
    [] + [ApiCall(ExecDirect, None, Answer(true, Success, ColsAnswer(true, Success, 1)))]
    + [Answering(ExtendedFetch, Success)]

  // Then positioning, pending and cancelled.
  const OVERTAKEN: seq<Event> := FETCHING + [Answering(SetPos, StillExecuting)] + [Answering(Cancel, Success)]

  lemma Executing(a: Answer)
    requires a == Answer(true, Success, ColsAnswer(true, Success, 1))
    ensures Step(FRESH, ApiCall(ExecDirect, None, a)) == StmtRec(CursorOpen, Opened, true, NullProc, NullProc)
  {
  }

  lemma FirstRow()
    ensures Step(StmtRec(CursorOpen, Opened, true, NullProc, NullProc), Answering(ExtendedFetch, Success)) == ON_FIRST_ROW
  {
  }

  lemma FetchingSteps()
    ensures Run(FETCHING) == ON_FIRST_ROW
  {
    var execute := ApiCall(ExecDirect, None, Answer(true, Success, ColsAnswer(true, Success, 1)));
    Executing(execute.a);
    FirstRow();
    RunFrom([], execute);
    RunFrom([] + [execute], Answering(ExtendedFetch, Success));
  }

  lemma PositioningCancelled()
    ensures var pending := ON_FIRST_ROW.(asynOn := SetPos);
      && Step(ON_FIRST_ROW, Answering(SetPos, StillExecuting)) == pending
      && Step(pending, Answering(Cancel, Success)) == pending.(state := Prepared)
      && Regains(pending.(state := Prepared), Answering(SetPos, NeedData))
  {
  }

  /** That exception is real: the cancelled positioning puts the statement, without a row, back into a dialogue. */
  lemma OvertakenRegains()
    ensures Regains(Run(OVERTAKEN), Answering(SetPos, NeedData))
  {
    FetchingSteps();
    PositioningCancelled();
    RunFrom(FETCHING, Answering(SetPos, StillExecuting));
    RunFrom(FETCHING + [Answering(SetPos, StillExecuting)], Answering(Cancel, Success));
  }
}
