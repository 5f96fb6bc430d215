/** The transitions of a statement read off by state and by field, as the standard's state transition tables
    have them, instead of call by call; and that every call follows them. */
module StatementTables {
  import opened Codes
  import opened StatementSpec

  // ---- Which calls a state refuses ----

  predicate MovesRows(p: Api) {
    p == Fetch || p == ExtendedFetch || p == FetchScroll
  }

  predicate Describes(p: Api) {
    p == NumParams || p == DescribeParam || p == NumResultCols || p == ColAttributes
  }

  predicate TransfersData(p: Api) {
    p == PutData || p == ParamData
  }

  /** A function sequence error: what is out of order in a state, with nothing pending. */
  predicate OutOfOrder(s: StmtState, plan: bool, p: Api) {
    match s
    case Allocated =>
      p == Execute || Describes(p) || MovesRows(p) || p == GetData || p == SetPos || TransfersData(p)
    case Prepared =>
      MovesRows(p) || p == GetData || p == SetPos || TransfersData(p)
    case ExecutedWithInfo | Executed | CursorOpen =>
      TransfersData(p) || (p == Execute && !plan)
    case Fetched =>
      TransfersData(p) || (p == Execute && !plan) || p == ExtendedFetch || p == FetchScroll
    case XFetched =>
      TransfersData(p) || (p == Execute && !plan) || p == Fetch
    case NeedsData | MustPut | CanPut =>
      !TransfersData(p) && p != Cancel && p != DescribeCol
  }

  /** An invalid cursor state: what a cursor, or the lack of a row, stands in the way of. */
  predicate WrongCursor(s: StmtState, plan: bool, p: Api) {
    match s
    case ExecutedWithInfo | Executed | CursorOpen =>
      p == SetCursorName || p == GetData || p == SetPos
    case Fetched | XFetched =>
      p == SetCursorName || p == Prepare || p == ExecDirect || p.Catalog? || (p == Execute && plan)
    case _ => false
  }

  // What the two tables say of a call.
  function GateTable(s: StmtState, plan: bool, p: Api): Option<SqlState> {
    if OutOfOrder(s, plan, p) then Some(S1010) else if WrongCursor(s, plan, p) then Some(E24000) else None
  }

  lemma GateWithoutCursor(p: Api, r: StmtRec)
    requires r.asynOn == NullProc && (r.state == Allocated || r.state == Prepared || r.state.AwaitsData())
    ensures Gate(p, r) == GateTable(r.state, r.prep, p)
  {
  }

  lemma GateExecuted(p: Api, r: StmtRec)
    requires r.asynOn == NullProc && (r.state.AtMostExecuted() || r.state == CursorOpen)
    requires r.state != Allocated && r.state != Prepared
    ensures Gate(p, r) == GateTable(r.state, r.prep, p)
  {
  }

  lemma GateOnRow(p: Api, r: StmtRec)
    requires r.asynOn == NullProc && (r.state == Fetched || r.state == XFetched)
    ensures Gate(p, r) == GateTable(r.state, r.prep, p)
  {
  }

  /** With nothing pending, a call is refused as out of order or for its cursor exactly as the tables say. */
  lemma GateFollowsTable(p: Api, r: StmtRec)
    requires r.asynOn == NullProc
    ensures Gate(p, r) == GateTable(r.state, r.prep, p)
  {
    if r.state == Allocated || r.state == Prepared || r.state.AwaitsData() {
      GateWithoutCursor(p, r);
    } else if r.state == Fetched || r.state == XFetched {
      GateOnRow(p, r);
    } else {
      GateExecuted(p, r);
    }
  }

  /** While a call is pending, only that call, SQLCancel and SQLDescribeCol go through. */
  lemma GatePending(p: Api, r: StmtRec)
    requires r.asynOn.Pollable()
    ensures Gate(p, r) == if p == r.asynOn || p == Cancel || p == DescribeCol then None else Some(S1010)
  {
  }

  /** What stops a call on its way to the driver, in which order, and what is then posted. */
  lemma RefusedCall(p: Api, arg: Option<SqlState>, r: StmtRec, a: Answer)
    ensures var o := Call(p, arg, r, a);
      && (o.reached <==> Gate(p, r).None? && arg.None? && a.present)
      && (Gate(p, r).Some? && (arg.None? || p == Prepare) ==> o == Outcome(Error, [Gate(p, r).value], false, r))
      && (arg.Some? && (Gate(p, r).None? || p != Prepare) ==> o == Outcome(Error, [arg.value], false, r))
      && (Gate(p, r).None? && arg.None? && !a.present && !LookedFor(p, r) ==> o == Outcome(Error, [IM001], false, r))
  {
  }

  // SQLFetch after an execution "with info", which looks for the cursor first.
  predicate LookedFor(p: Api, r: StmtRec) {
    p == Fetch && r.asynOn == NullProc && r.state == ExecutedWithInfo
  }

  // ---- Which codes end a pending call ----

  predicate AnswersRows(p: Api) {
    MovesRows(p) || p == GetData || p == MoreResults
  }

  predicate AsksForData(p: Api) {
    p == Execute || p == ExecDirect || p == SetPos
  }

  lemma EndsFollowsTable(p: Api, rc: SqlReturn)
    requires p.Pollable()
    ensures Ends(p, rc) <==>
            p != NumParams && p != DescribeParam &&
            (rc == Success || rc == SuccessWithInfo || rc == Error
             || (rc == NoData && AnswersRows(p)) || (rc == NeedData && AsksForData(p)))
  {
  }

  // ---- Where a call leads ----

  // Where an execution that succeeded outright is: with a cursor if the driver reports columns.
  function ExecutedState(c: ColsAnswer): StmtState {
    if c.present && c.rc.Succeeded() && c.count != 0 then CursorOpen else Executed
  }

  function RestingState(plan: bool): StmtState {
    if plan then Prepared else Allocated
  }

  // From a state without a cursor on which nothing has been executed, or whose execution is over.
  function ByExecDirect(s: StmtState, rc: SqlReturn, c: ColsAnswer): StmtState {
    match rc
    case Success => ExecutedState(c)
    case SuccessWithInfo => ExecutedWithInfo
    case NeedData => NeedsData
    case Error => Allocated
    case _ => s
  }

  function ByCatalog(s: StmtState, rc: SqlReturn): StmtState {
    if rc.Succeeded() then CursorOpen else if rc == Error then Allocated else s
  }

  function ByPrepare(s: StmtState, rc: SqlReturn): StmtState {
    if rc.Succeeded() then Prepared else if rc == Error && s != CursorOpen then Allocated else s
  }

  function ByExecute(s: StmtState, rc: SqlReturn, c: ColsAnswer): StmtState {
    match s
    case Prepared =>
      if rc == Success then ExecutedState(c) else if rc == SuccessWithInfo then ExecutedWithInfo
      else if rc == NeedData then NeedsData else s
    case Executed => if rc == Error then Prepared else if rc == NeedData then NeedsData else s
    case _ => s
  }

  // The end of the dialogue goes back to where the call that asked for the data came from.
  function AskedFrom(needOn: Api, s: StmtState): StmtState {
    if needOn == ExecDirect then Allocated else if needOn == Execute then Prepared
    else if needOn == SetPos then XFetched else s
  }

  predicate Closes(p: Api) {
    p == Cancel || p == CloseCursor || p == FreeStmt(Close)
  }

  /** The next state, by the state that the call finds, which lets it through. */
  function NextState(p: Api, u: StmtRec, rc: SqlReturn, c: ColsAnswer): StmtState {
    var s, ok := u.state, rc.Succeeded();
    match s
    case Allocated =>
      if p == Prepare then ByPrepare(s, rc)
      else if p == ExecDirect then ByExecDirect(s, rc, c)
      else if p.Catalog? then ByCatalog(s, rc)
      else if p == MoreResults then (if u.prep then CursorOpen else Prepared)
      else s
    case Prepared =>
      if p == Prepare then ByPrepare(s, rc)
      else if p == Execute then ByExecute(s, rc, c)
      else if p == ExecDirect then ByExecDirect(s, rc, c)
      else if p.Catalog? then ByCatalog(s, rc)
      else if p == MoreResults then (if u.prep then CursorOpen else Prepared)
      else s
    case ExecutedWithInfo | Executed =>
      if p == Prepare then ByPrepare(s, rc)
      else if p == Execute then ByExecute(s, rc, c)
      else if p == ExecDirect then ByExecDirect(s, rc, c)
      else if p.Catalog? then ByCatalog(s, rc)
      else if p == MoreResults && rc == NoData then (if u.prep then Prepared else CursorOpen)
      else if p == MoreResults && s == ExecutedWithInfo then ExecutedState(c)
      else if Closes(p) && ok then RestingState(u.prep)
      else s
    case CursorOpen =>
      if p == Prepare then ByPrepare(s, rc)
      else if p == Fetch && ok then Fetched
      else if p == Fetch && rc == NoData then (if u.prep then Fetched else Allocated)
      else if (p == ExtendedFetch || p == FetchScroll) && (ok || rc == NoData) then XFetched
      else if p == MoreResults && rc == NoData then RestingState(u.prep)
      else if Closes(p) && ok then RestingState(u.prep)
      else s
    case Fetched =>
      if p == Fetch && rc == NoData && !u.prep then Allocated
      else if p == SetPos && rc == NeedData then NeedsData
      else if p == MoreResults && rc == NoData then RestingState(u.prep)
      else if Closes(p) && ok then RestingState(u.prep)
      else s
    case XFetched =>
      if p == SetPos && rc == NeedData then NeedsData
      else if p == MoreResults && rc == NoData then RestingState(u.prep)
      else if Closes(p) && ok then RestingState(u.prep)
      else s
    case NeedsData | MustPut | CanPut =>
      if p == PutData && ok then CanPut
      else if p == PutData && rc == Error then (if u.needOn == Execute && !u.prep then s else AskedFrom(u.needOn, s))
      else if p == ParamData && rc == NeedData then MustPut
      else if p == ParamData && rc == Error then AskedFrom(u.needOn, s)
      else if p == ParamData && ok && s == NeedsData then MustPut
      else if p == ParamData && ok && s == CanPut then
        (if u.needOn == SetPos then XFetched
         else if u.needOn == Execute || u.needOn == ExecDirect then ExecutedState(c) else s)
      else if p == Cancel && ok then AskedFrom(u.needOn, s)
      else s
  }

  lemma FromAllocated(p: Api, u: StmtRec, rc: SqlReturn, c: ColsAnswer)
    requires u.asynOn == NullProc && Gate(p, u).None? && u.state == Allocated
    ensures Settle(p, u, rc, c).state == NextState(p, u, rc, c)
  {
  }

  lemma FromPrepared(p: Api, u: StmtRec, rc: SqlReturn, c: ColsAnswer)
    requires u.asynOn == NullProc && Gate(p, u).None? && u.state == Prepared
    ensures Settle(p, u, rc, c).state == NextState(p, u, rc, c)
  {
  }

  lemma FromExecutedWithInfo(p: Api, u: StmtRec, rc: SqlReturn, c: ColsAnswer)
    requires u.asynOn == NullProc && Gate(p, u).None? && u.state == ExecutedWithInfo
    ensures Settle(p, u, rc, c).state == NextState(p, u, rc, c)
  {
  }

  lemma FromExecuted(p: Api, u: StmtRec, rc: SqlReturn, c: ColsAnswer)
    requires u.asynOn == NullProc && Gate(p, u).None? && u.state == Executed
    ensures Settle(p, u, rc, c).state == NextState(p, u, rc, c)
  {
  }

  lemma FromCursorOpen(p: Api, u: StmtRec, rc: SqlReturn, c: ColsAnswer)
    requires u.asynOn == NullProc && Gate(p, u).None? && u.state == CursorOpen
    ensures Settle(p, u, rc, c).state == NextState(p, u, rc, c)
  {
  }

  lemma FromRow(p: Api, u: StmtRec, rc: SqlReturn, c: ColsAnswer)
    requires u.asynOn == NullProc && Gate(p, u).None? && (u.state == Fetched || u.state == XFetched)
    ensures Settle(p, u, rc, c).state == NextState(p, u, rc, c)
  {
  }

  lemma FromAwaitingPut(p: Api, u: StmtRec, rc: SqlReturn, c: ColsAnswer)
    requires u.asynOn == NullProc && Gate(p, u).None? && u.state.AwaitsData() && p == PutData
    ensures Settle(p, u, rc, c).state == NextState(p, u, rc, c)
  {
  }

  lemma FromAwaitingAsk(p: Api, u: StmtRec, rc: SqlReturn, c: ColsAnswer)
    requires u.asynOn == NullProc && Gate(p, u).None? && u.state.AwaitsData() && p == ParamData
    ensures Settle(p, u, rc, c).state == NextState(p, u, rc, c)
  {
  }

  lemma FromAwaitingOther(p: Api, u: StmtRec, rc: SqlReturn, c: ColsAnswer)
    requires u.asynOn == NullProc && Gate(p, u).None? && u.state.AwaitsData() && !TransfersData(p)
    ensures Settle(p, u, rc, c).state == NextState(p, u, rc, c)
  {
  }

  /** The driver having answered, every call leads to the state of the table. */
  lemma StateFollowsTable(p: Api, u: StmtRec, rc: SqlReturn, c: ColsAnswer)
    requires u.asynOn == NullProc && Gate(p, u).None?
    ensures Settle(p, u, rc, c).state == NextState(p, u, rc, c)
  {
    match u.state
    case Allocated => FromAllocated(p, u, rc, c);
    case Prepared => FromPrepared(p, u, rc, c);
    case ExecutedWithInfo => FromExecutedWithInfo(p, u, rc, c);
    case Executed => FromExecuted(p, u, rc, c);
    case CursorOpen => FromCursorOpen(p, u, rc, c);
    case Fetched => FromRow(p, u, rc, c);
    case XFetched => FromRow(p, u, rc, c);
    case _ =>
      if p == PutData {
        FromAwaitingPut(p, u, rc, c);
      } else if p == ParamData {
        FromAwaitingAsk(p, u, rc, c);
      } else {
        FromAwaitingOther(p, u, rc, c);
      }
  }

  // ---- What becomes of the other fields ----

  // Whether a call goes on to ask for the number of columns.
  predicate AsksForColumns(p: Api, u: StmtRec, rc: SqlReturn) {
    || (p == Execute && u.state == Prepared && rc == Success)
    || (p == ExecDirect && u.state.AtMostExecuted() && rc == Success)
    || (p == ParamData && u.state == CanPut && rc.Succeeded() && (u.needOn == Execute || u.needOn == ExecDirect))
    || (p == MoreResults && u.state == ExecutedWithInfo)
  }

  function CursorByColumns(cursor: CursorState, c: ColsAnswer): CursorState {
    if !c.present || !c.rc.Succeeded() then cursor else if c.count == 0 then NoCursor else Opened
  }

  function NextCursor(p: Api, u: StmtRec, rc: SqlReturn, c: ColsAnswer): CursorState {
    var ok := rc.Succeeded();
    if AsksForColumns(p, u, rc) then CursorByColumns(u.cursor, c)
    else if p == SetCursorName && ok then Named
    else if p == Fetch && u.state in {CursorOpen, Fetched} && ok then CursorFetched
    else if p == Fetch && u.state in {CursorOpen, Fetched} && rc == NoData then NoCursor
    else if p in {ExtendedFetch, FetchScroll} && u.state in {CursorOpen, XFetched} && (ok || rc == NoData) then CursorXFetched
    else if p == ParamData && u.needOn == SetPos && (rc == Error || (ok && u.state == CanPut)) then CursorXFetched
    else if p == ExecDirect && u.state.AtMostExecuted() && rc == Error then NoCursor
    else if p == Execute && u.state == Executed && rc == Error then NoCursor
    else if p in {CloseCursor, FreeStmt(Close)} && ok then NoCursor
    else u.cursor
  }

  function NextPlan(p: Api, u: StmtRec, rc: SqlReturn): bool {
    if p == Prepare && rc.Succeeded() then true
    else if p == ExecDirect && u.state.AtMostExecuted() && rc.Succeeded() then true
    else if (p == ExecDirect || p.Catalog?) && u.state.AtMostExecuted() && rc == Error then false
    else if p == Prepare && u.state in {Prepared, ExecutedWithInfo, Executed} && rc == Error then false
    else u.prep
  }

  function NextNeed(p: Api, u: StmtRec, rc: SqlReturn): Api {
    if rc == NeedData && p == Execute && u.state in {Prepared, Executed} then Execute
    else if rc == NeedData && p == ExecDirect && u.state.AtMostExecuted() then ExecDirect
    else if rc == NeedData && p == SetPos then SetPos
    else if p == PutData && rc == Error && (u.needOn == ExecDirect || (u.needOn == Execute && u.prep)) then NullProc
    else if p == ParamData && (rc == Error || rc.Succeeded()) then NullProc
    else if p == Cancel && u.state.AwaitsData() && rc.Succeeded() then NullProc
    else u.needOn
  }

  /** Which call is pending afterwards: one left executing, or the question for the columns. */
  function NextPending(p: Api, u: StmtRec, rc: SqlReturn, c: ColsAnswer): Api {
    if rc == StillExecuting && StaysPending(p, u.state) then p
    else if AsksForColumns(p, u, rc) && c.present && c.rc == StillExecuting then NumResultCols
    else u.asynOn
  }

  predicate StaysPending(p: Api, s: StmtState) {
    match s
    case Allocated => p == ExecDirect || p == Prepare || p.Catalog?
    case Prepared => p in {Prepare, Execute, ExecDirect, DescribeCol} || p.Catalog? || Describes(p)
    case ExecutedWithInfo =>
      p in {Prepare, ExecDirect, MoreResults, NumParams, DescribeParam, NumResultCols} || p.Catalog?
    case Executed =>
      p in {Prepare, Execute, ExecDirect, MoreResults, NumParams, DescribeParam, NumResultCols} || p.Catalog?
    case CursorOpen =>
      p in {Prepare, Fetch, ExtendedFetch, FetchScroll, MoreResults, DescribeCol} || Describes(p)
    case Fetched => p in {Fetch, GetData, SetPos, MoreResults, DescribeCol} || Describes(p)
    case XFetched => p in {ExtendedFetch, FetchScroll, GetData, SetPos, MoreResults, DescribeCol} || Describes(p)
    case _ => p == PutData
  }

  lemma ColumnsCursor(p: Api, u: StmtRec, rc: SqlReturn, c: ColsAnswer)
    requires u.asynOn == NullProc && Gate(p, u).None? && AsksForColumns(p, u, rc)
    ensures Settle(p, u, rc, c).cursor == NextCursor(p, u, rc, c)
  {
  }

  lemma RowsCursor(p: Api, u: StmtRec, rc: SqlReturn, c: ColsAnswer)
    requires u.asynOn == NullProc && Gate(p, u).None? && MovesRows(p)
    ensures Settle(p, u, rc, c).cursor == NextCursor(p, u, rc, c)
  {
  }

  lemma OtherCursor(p: Api, u: StmtRec, rc: SqlReturn, c: ColsAnswer)
    requires u.asynOn == NullProc && Gate(p, u).None? && !AsksForColumns(p, u, rc) && !MovesRows(p)
    ensures Settle(p, u, rc, c).cursor == NextCursor(p, u, rc, c)
  {
  }

  lemma CursorFollowsTable(p: Api, u: StmtRec, rc: SqlReturn, c: ColsAnswer)
    requires u.asynOn == NullProc && Gate(p, u).None?
    ensures Settle(p, u, rc, c).cursor == NextCursor(p, u, rc, c)
  {
    if AsksForColumns(p, u, rc) {
      ColumnsCursor(p, u, rc, c);
    } else if MovesRows(p) {
      RowsCursor(p, u, rc, c);
    } else {
      OtherCursor(p, u, rc, c);
    }
  }

  lemma PlanFollowsTable(p: Api, u: StmtRec, rc: SqlReturn, c: ColsAnswer)
    requires u.asynOn == NullProc && Gate(p, u).None?
    ensures Settle(p, u, rc, c).prep == NextPlan(p, u, rc)
  {
  }

  lemma NeedFollowsTable(p: Api, u: StmtRec, rc: SqlReturn, c: ColsAnswer)
    requires u.asynOn == NullProc && Gate(p, u).None?
    ensures Settle(p, u, rc, c).needOn == NextNeed(p, u, rc)
  {
  }

  lemma BusyPending(p: Api, u: StmtRec, c: ColsAnswer)
    requires u.asynOn == NullProc && Gate(p, u).None?
    ensures Settle(p, u, StillExecuting, c).asynOn == NextPending(p, u, StillExecuting, c)
  {
  }

  lemma DonePending(p: Api, u: StmtRec, rc: SqlReturn, c: ColsAnswer)
    requires u.asynOn == NullProc && Gate(p, u).None? && rc != StillExecuting
    ensures Settle(p, u, rc, c).asynOn == NextPending(p, u, rc, c)
  {
  }

  lemma PendingFollowsTable(p: Api, u: StmtRec, rc: SqlReturn, c: ColsAnswer)
    requires u.asynOn == NullProc && Gate(p, u).None?
    ensures Settle(p, u, rc, c).asynOn == NextPending(p, u, rc, c)
  {
    if rc == StillExecuting {
      BusyPending(p, u, c);
    } else {
      DonePending(p, u, rc, c);
    }
  }

  // ---- Calls ----

  function Next(p: Api, u: StmtRec, rc: SqlReturn, c: ColsAnswer): StmtRec {
    StmtRec(NextState(p, u, rc, c), NextCursor(p, u, rc, c), NextPlan(p, u, rc), NextPending(p, u, rc, c),
            NextNeed(p, u, rc))
  }

  lemma SettleFollowsTables(p: Api, u: StmtRec, rc: SqlReturn, c: ColsAnswer)
    requires u.asynOn == NullProc && Gate(p, u).None?
    ensures Settle(p, u, rc, c) == Next(p, u, rc, c)
  {
    StateFollowsTable(p, u, rc, c);
    CursorFollowsTable(p, u, rc, c);
    PlanFollowsTable(p, u, rc, c);
    PendingFollowsTable(p, u, rc, c);
    NeedFollowsTable(p, u, rc, c);
  }

  // The record of an execution "with info" whose cursor has been looked for.
  function Looked(r: StmtRec, c: ColsAnswer): StmtRec {
    StmtRec(ExecutedState(c), CursorByColumns(r.cursor, c), r.prep,
            if c.present && c.rc == StillExecuting then NumResultCols else r.asynOn, r.needOn)
  }

  function PostsOf(p: Api, u: StmtRec, rc: SqlReturn, c: ColsAnswer): seq<SqlState> {
    if AsksForColumns(p, u, rc) && !c.present then [IM001] else []
  }

  /** A call that reaches the driver with nothing pending answers with the driver's code, posts an error only if it asks
      for columns and cannot, and leaves the record of the tables. */
  lemma CallFollowsTables(p: Api, arg: Option<SqlState>, r: StmtRec, a: Answer)
    requires r.asynOn == NullProc && Call(p, arg, r, a).reached && !LookedFor(p, r)
    ensures Call(p, arg, r, a) == Outcome(a.rc, PostsOf(p, r, a.rc, a.cols), true, Next(p, r, a.rc, a.cols))
  {
    SettleFollowsTables(p, r, a.rc, a.cols);
    assert SettlesCursor(p, r, a.rc) == AsksForColumns(p, r, a.rc);
    var o := Call(p, arg, r, a);
    assert o.after == Settle(p, r, a.rc, a.cols);
    assert o.posted == PostsOf(p, r, a.rc, a.cols);
  }

  /** SQLFetch after an execution "with info" looks for the cursor first, and fetches from it if there is one. */
  lemma FetchLooksFirst(arg: Option<SqlState>, r: StmtRec, a: Answer)
    requires LookedFor(Fetch, r) && arg.None?
    ensures var o := Call(Fetch, arg, r, a); var posts: seq<SqlState> := if a.cols.present then [] else [IM001];
      && o.reached == a.present
      && o.rc == (if a.present then a.rc else Error)
      && o.posted == (if a.present then posts else posts + [IM001])
      && o.after == if a.present && ExecutedState(a.cols) == CursorOpen then Next(Fetch, Looked(r, a.cols), a.rc, a.cols)
                    else Looked(r, a.cols)
  {
    var g := Looked(r, a.cols);
    assert CursorOpened(r, a.cols) == g;
    if a.present && ExecutedState(a.cols) == CursorOpen {
      SettleFollowsTables(Fetch, g, a.rc, a.cols);
    }
  }

  /** A pending call that the driver does not end stays as it is; a pending SQLPrepare just ends; any other that is still
      in order follows the tables as if it had not been pending. */
  lemma PendingCallFollowsTables(p: Api, arg: Option<SqlState>, r: StmtRec, a: Answer)
    requires r.asynOn == p && p.Pollable() && Call(p, arg, r, a).reached
    ensures var o, u := Call(p, arg, r, a), r.(asynOn := NullProc);
      && o.rc == a.rc
      && (!Ends(p, a.rc) ==> o.after == r && o.posted == [])
      && (Ends(p, a.rc) && p == Prepare ==> o.after == u && o.posted == [])
      && (Ends(p, a.rc) && p != Prepare && Gate(p, u).None? ==>
            o.after == Next(p, u, a.rc, a.cols) && o.posted == PostsOf(p, u, a.rc, a.cols))
  {
    var u := r.(asynOn := NullProc);
    if Ends(p, a.rc) && p != Prepare && Gate(p, u).None? {
      SettleFollowsTables(p, u, a.rc, a.cols);
      assert SettlesCursor(p, u, a.rc) == AsksForColumns(p, u, a.rc);
    }
  }

  /** A pending call that a cancel has overtaken no longer does anything when it ends, but for two that still lead
      into the dialogue: a positioning that asks for data, and a part of the data that is accepted. */
  lemma OvertakenCall(p: Api, u: StmtRec, rc: SqlReturn, c: ColsAnswer)
    requires u.asynOn == NullProc && u.needOn == NullProc && (u.state == Allocated || u.state == Prepared)
    requires p.Pollable() && p != ParamData && p != Prepare && Ends(p, rc) && Gate(p, u).Some?
    ensures Settle(p, u, rc, c) ==
            if p == SetPos && rc == NeedData then u.(state := NeedsData, needOn := SetPos)
            else if p == PutData && rc.Succeeded() then u.(state := CanPut)
            else u
  {
  }

  /** What SQLCancel and SQLDescribeCol do is the same with another call pending. */
  lemma DespitePending(p: Api, u: StmtRec, rc: SqlReturn, c: ColsAnswer)
    requires p == Cancel || p == DescribeCol
    ensures Settle(p, u, rc, c) ==
            Next(p, u.(asynOn := NullProc), rc, c).(
              asynOn := if p == DescribeCol && rc == StillExecuting && StaysPending(p, u.state) then p else u.asynOn)
  {
    SettleFollowsTables(p, u.(asynOn := NullProc), rc, c);
  }
}
