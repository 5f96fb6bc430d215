/** The data-at-execution states: which calls lead in, what keeps the way out open, and that a whole
    dialogue amounts to an execution without parameters. */
module DataAtExecution {
  import opened Codes
  import opened StatementSpec
  import opened StatementRuns
  import opened Polling

  predicate Remembered(p: Api) {
    p == Execute || p == ExecDirect || p == SetPos
  }

  /** While data is awaited, the record remembers which call asked for it, and nothing but SQLPutData
      is pending; a pending SQLPutData that was cancelled remembers none. */
  predicate DataInv(r: StmtRec) {
    && (r.state.AwaitsData() ==> Remembered(r.needOn) && (r.asynOn == NullProc || r.asynOn == PutData))
    && (!r.state.AwaitsData() && r.asynOn == PutData ==> r.needOn == NullProc)
  }

  /** The two driver answers that lose the memory: SQLParamData succeeding before SQLPutData has, and
      a cancelled SQLPutData completing with success. */
  predicate Loses(r: StmtRec, e: Event) {
    && Reaches(r, e) && e.a.rc.Succeeded()
    && (|| (e.p == ParamData && (r.state.NeedsData? || r.state.MustPut?))
        || (e.p == PutData && !r.state.AwaitsData()))
  }

  /** A step keeps the invariant exactly when the driver avoids those two answers. */
  lemma DataInvStep(r: StmtRec, e: Event)
    requires DataInv(r)
    ensures DataInv(Step(r, e)) <==> !Loses(r, e)
  {
    match e
    case EndTran(_, _, _) =>
    case ApiCall(p, arg, a) =>
      if Call(p, arg, r, a).reached {
        var g := Admitted(p, r, a.cols);
        assert g == r || (p == Fetch && !g.state.AwaitsData());
        if p == ParamData || p == PutData {
          TransferKeepsData(p, r, a);
        } else if p == Prepare && r.asynOn == Prepare {
        } else {
          SettleKeepsData(p, Ended(p, g), a.rc, a.cols);
        }
      }
  }

  lemma TransferKeepsData(p: Api, r: StmtRec, a: Answer)
    requires DataInv(r) && (p == ParamData || p == PutData)
    requires Gate(p, r).None? && a.present
    ensures DataInv(Call(p, None, r, a).after) <==> !Loses(r, ApiCall(p, None, a))
  {
  }

  lemma SettleKeepsData(p: Api, u: StmtRec, rc: SqlReturn, c: ColsAnswer)
    requires DataInv(u) && p != ParamData && p != PutData
    requires p == Cancel || p == DescribeCol || u.asynOn == NullProc || (p == Fetch && u.asynOn != PutData)
    requires p == Cancel || p == DescribeCol || !u.state.AwaitsData()
    ensures DataInv(Settle(p, u, rc, c))
  {
    if p == Execute || p == ExecDirect || p == Prepare || p.Catalog? || p == MoreResults {
      ExecutionKeepsData(p, u, rc, c);
    } else {
      OthersKeepData(p, u, rc, c);
    }
  }

  lemma ExecutionKeepsData(p: Api, u: StmtRec, rc: SqlReturn, c: ColsAnswer)
    requires DataInv(u) && u.asynOn == NullProc && !u.state.AwaitsData()
    requires p == Execute || p == ExecDirect || p == Prepare || p.Catalog? || p == MoreResults
    ensures DataInv(Settle(p, u, rc, c))
  {
  }

  lemma OthersKeepData(p: Api, u: StmtRec, rc: SqlReturn, c: ColsAnswer)
    requires DataInv(u) && p != ParamData && p != PutData
    requires !(p == Execute || p == ExecDirect || p == Prepare || p.Catalog? || p == MoreResults)
    requires p == Cancel || p == DescribeCol || u.asynOn == NullProc || (p == Fetch && u.asynOn != PutData)
    requires p == Cancel || p == DescribeCol || !u.state.AwaitsData()
    ensures DataInv(Settle(p, u, rc, c))
  {
  }

  lemma {:induction false} DataInvHolds(es: seq<Event>, n: nat)
    requires n <= |es| && forall i: nat :: i < n ==> !Loses(Run(es[..i]), es[i])
    ensures DataInv(Run(es[..n]))
  {
    if n > 0 {
      assert es[..n][..n - 1] == es[..n - 1];
      DataInvHolds(es, n - 1);
      DataInvStep(Run(es[..n - 1]), es[n - 1]);
    }
  }

  function WayOut(needOn: Api): StmtState {
    match needOn
    case Execute => Prepared
    case ExecDirect => Allocated
    case _ => XFetched
  }

  /** On every run whose driver gives neither answer, a successful SQLCancel leads out of the
      data-at-execution states, to the state from which the asking call was made. */
  lemma CancelLeadsOut(es: seq<Event>, a: Answer)
    requires forall i: nat :: i < |es| ==> !Loses(Run(es[..i]), es[i])
    requires Run(es).state.AwaitsData() && a.present && a.rc.Succeeded()
    ensures var r := Run(es);
            var s := Call(Cancel, None, r, a).after;
            Remembered(r.needOn) && s == r.(state := WayOut(r.needOn), needOn := NullProc)
  {
    assert es[..|es|] == es;
    DataInvHolds(es, |es|);
    CancelFollowsMemory(Run(es), a);
  }

  lemma CancelFollowsMemory(r: StmtRec, a: Answer)
    requires r.state.AwaitsData() && Remembered(r.needOn) && a.present && a.rc.Succeeded()
    ensures Call(Cancel, None, r, a).after == r.(state := WayOut(r.needOn), needOn := NullProc)
  {
  }

  // Awaiting data for nobody.
  predicate Stranded(r: StmtRec) {
    r.state.AwaitsData() && !Remembered(r.needOn) && (r.asynOn == NullProc || r.asynOn == PutData)
  }

  lemma StrandedStep(r: StmtRec, e: Event)
    requires Stranded(r)
    ensures Stranded(Step(r, e))
  {
    match e
    case EndTran(_, _, _) =>
    case ApiCall(p, arg, a) =>
      if Call(p, arg, r, a).reached {
        StrandedGate(p, arg, r, a);
        StrandedCall(p, arg, r, a);
      }
  }

  // Nothing else gets to the driver ...
  lemma StrandedGate(p: Api, arg: Option<SqlState>, r: StmtRec, a: Answer)
    requires Stranded(r) && Call(p, arg, r, a).reached
    ensures p == Cancel || p == DescribeCol || p == PutData || p == ParamData
  {
  }

  // ... and none of these knows the way.
  lemma StrandedCall(p: Api, arg: Option<SqlState>, r: StmtRec, a: Answer)
    requires Stranded(r) && (p == Cancel || p == DescribeCol || p == PutData || p == ParamData)
    ensures Stranded(Call(p, arg, r, a).after)
  {
  }

  /** Once the memory is lost while data is awaited, no sequence of calls and no driver leads out. */
  lemma {:induction false} StrandedForever(es: seq<Event>, later: seq<Event>)
    requires Stranded(Run(es))
    ensures Stranded(Run(es + later))
    decreases |later|
  {
    if later == [] {
      assert es + later == es;
    } else {
      var n := |later| - 1;
      StrandedForever(es, later[..n]);
      StrandedOnce(es + later[..n], later[n]);
      LastApart(es, later, n);
    }
  }

  lemma LastApart(es: seq<Event>, later: seq<Event>, n: nat)
    requires n + 1 == |later|
    ensures es + later == (es + later[..n]) + [later[n]]
  {
  }

  lemma StrandedOnce(es: seq<Event>, e: Event)
    requires Stranded(Run(es))
    ensures Stranded(Run(es + [e]))
  {
    RunFrom(es, e);
    StrandedStep(Run(es), e);
  }

  /** And losing it does strand the statement: SQLParamData succeeding too early, at once; a cancelled
      SQLPutData completing, at once. */
  lemma LosingStrands(r: StmtRec, e: Event)
    requires DataInv(r) && Loses(r, e)
    ensures Stranded(Step(r, e))
  {
  }

  // ---- Dialogues ----

  // The application's turns between the execution that asked for data and its completion.
  datatype Turn =
    | AskNext                                         // SQLParamData, answered "need data"
    | PutPart(busy: seq<ColsAnswer>, info: bool)      // SQLPutData, polled, then answered success

  function Took(r: StmtRec, t: Turn): StmtRec {
    match t
    case AskNext => Call(ParamData, None, r, Answer(true, NeedData, NO_COLS)).after
    case PutPart(busy, info) =>
      Call(PutData, None, Put(r, busy),
           Answer(true, if info then SuccessWithInfo else Success, NO_COLS)).after
  }

  function Put(r: StmtRec, busy: seq<ColsAnswer>): StmtRec {
    if busy == [] then r
    else Call(PutData, None, Put(r, busy[..|busy| - 1]),
              Answer(true, StillExecuting, busy[|busy| - 1])).after
  }

  function Dialogue(r: StmtRec, turns: seq<Turn>): StmtRec {
    if turns == [] then r else Took(Dialogue(r, turns[..|turns| - 1]), turns[|turns| - 1])
  }

  lemma {:induction false} PutWaits(r: StmtRec, busy: seq<ColsAnswer>)
    requires r.state.AwaitsData() && r.asynOn == NullProc
    ensures Put(r, busy) == r || Put(r, busy) == r.(asynOn := PutData)
  {
    if busy != [] {
      PutWaits(r, busy[..|busy| - 1]);
    }
  }

  lemma TurnTakes(r: StmtRec, t: Turn)
    requires r.state.AwaitsData() && r.asynOn == NullProc
    ensures Took(r, t) == r.(state := if t.AskNext? then MustPut else CanPut)
  {
    if t.PutPart? {
      PutWaits(r, t.busy);
    }
  }

  lemma {:induction false} DialogueHolds(r: StmtRec, turns: seq<Turn>)
    requires r.state.AwaitsData() && r.asynOn == NullProc
    ensures Dialogue(r, turns) ==
            if turns == [] then r else r.(state := if turns[|turns| - 1].AskNext? then MustPut else CanPut)
  {
    if turns != [] {
      DialogueHolds(r, turns[..|turns| - 1]);
      TurnTakes(Dialogue(r, turns[..|turns| - 1]), turns[|turns| - 1]);
    }
  }

  // The record that matters once nothing is needed any more.
  function Settled(r: StmtRec): StmtRec {
    r.(needOn := NullProc)
  }

  // A call of p, polled and then answered "need data", a dialogue that ends by putting a part, and
  // SQLParamData answering done.
  function ByDialogue(p: Api, r: StmtRec, polls: seq<ColsAnswer>, turns: seq<Turn>, done: Answer): StmtRec {
    var asked := Call(p, None, Polled(p, None, r, polls), Answer(true, NeedData, NO_COLS)).after;
    Call(ParamData, None, Dialogue(asked, turns), done).after
  }

  predicate Finishes(turns: seq<Turn>, done: Answer) {
    turns != [] && turns[|turns| - 1].PutPart? && done.present && done.rc.Succeeded()
  }

  lemma AskedForData(p: Api, r: StmtRec, polls: seq<ColsAnswer>)
    requires r.asynOn == NullProc
    requires (p == Execute && r.state.Prepared?) || (p == ExecDirect && r.state.AtMostExecuted())
    ensures Call(p, None, Polled(p, None, r, polls), Answer(true, NeedData, NO_COLS)).after ==
            r.(state := NeedsData, needOn := p)
  {
    PollingRefinesOneCall(p, None, r, polls, Answer(true, NeedData, NO_COLS));
    AskedAtOnce(p, r);
  }

  lemma AskedAtOnce(p: Api, r: StmtRec)
    requires r.asynOn == NullProc
    requires (p == Execute && r.state.Prepared?) || (p == ExecDirect && r.state.AtMostExecuted())
    ensures Call(p, None, r, Answer(true, NeedData, NO_COLS)).after == r.(state := NeedsData, needOn := p)
  {
  }

  lemma LastAnswer(r: StmtRec, p: Api, done: Answer)
    requires p == Execute || p == ExecDirect
    requires r.asynOn == NullProc && done.present && done.rc.Succeeded()
    ensures Call(ParamData, None, r.(state := CanPut, needOn := p), done).after ==
            Settled(CursorOpened(r, done.cols))
  {
  }

  lemma DialogueEnds(p: Api, r: StmtRec, polls: seq<ColsAnswer>, turns: seq<Turn>, done: Answer)
    requires r.asynOn == NullProc && Finishes(turns, done)
    requires (p == Execute && r.state.Prepared?) || (p == ExecDirect && r.state.AtMostExecuted())
    ensures ByDialogue(p, r, polls, turns, done) == Settled(CursorOpened(r, done.cols))
  {
    AskedForData(p, r, polls);
    DialogueHolds(r.(state := NeedsData, needOn := p), turns);
    LastAnswer(r, p, done);
  }

  /** A dialogue of any length begun by SQLExecute on a prepared statement amounts to an SQLExecute
      that succeeds immediately. */
  lemma ExecuteDialogueIsExecute(r: StmtRec, polls: seq<ColsAnswer>, turns: seq<Turn>, done: Answer)
    requires r.state.Prepared? && r.asynOn == NullProc && Finishes(turns, done)
    ensures ByDialogue(Execute, r, polls, turns, done) ==
            Settled(Call(Execute, None, r, done.(rc := Success)).after)
  {
    DialogueEnds(Execute, r, polls, turns, done);
  }

  /** The same for SQLExecDirect holds exactly on a statement that had a plan: the dialogue never
      records the one it executed. */
  lemma DirectDialogueForgetsPlan(r: StmtRec, polls: seq<ColsAnswer>, turns: seq<Turn>, done: Answer)
    requires r.state.AtMostExecuted() && r.asynOn == NullProc && Finishes(turns, done)
    ensures (ByDialogue(ExecDirect, r, polls, turns, done) ==
             Settled(Call(ExecDirect, None, r, done.(rc := Success)).after)) <==> r.prep
  {
    DialogueEnds(ExecDirect, r, polls, turns, done);
  }
}
