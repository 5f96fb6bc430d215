/** The statement record and what one API call does to it, as tables over all entry points that
    write one of its five fields. Every call is: argument check, gate, driver, transition. */
module StatementSpec {
  import opened Codes

  datatype StmtState =
    | Allocated | Prepared | ExecutedWithInfo | Executed | CursorOpen
    | Fetched | XFetched | NeedsData | MustPut | CanPut
  {
    // state <= en_stmt_executed
    predicate AtMostExecuted() {
      Allocated? || Prepared? || ExecutedWithInfo? || Executed?
    }

    // Executed, with or without a cursor.
    predicate IsExecuted() {
      ExecutedWithInfo? || Executed? || CursorOpen? || Fetched? || XFetched?
    }

    // state >= en_stmt_needdata
    predicate AwaitsData() {
      NeedsData? || MustPut? || CanPut?
    }
  }

  datatype CursorState = NoCursor | Named | Opened | CursorFetched | CursorXFetched

  datatype FreeOption = Close | Drop | Unbind | ResetParams

  // The API functions that take a statement; NullProc marks "none" in asynOn and needOn.
  datatype Api =
    | NullProc | Prepare | SetCursorName | Execute | ExecDirect | PutData | ParamData | NumParams
    | DescribeParam | NumResultCols | DescribeCol | ColAttributes | Fetch | ExtendedFetch
    | FetchScroll | GetData | MoreResults | SetPos | Catalog(index: nat) | Cancel | CloseCursor
    | FreeStmt(option: FreeOption)
  {
    // The functions that may be left executing asynchronously.
    predicate Pollable() {
      !NullProc? && !SetCursorName? && !Cancel? && !CloseCursor? && !FreeStmt?
    }
  }

  datatype StmtRec = StmtRec(
    state: StmtState, cursor: CursorState, prep: bool, asynOn: Api, needOn: Api)
  {
    // Neither waiting for data nor executing asynchronously.
    predicate Idle() {
      !state.AwaitsData() && asynOn == NullProc
    }

    // Where a statement without a cursor rests.
    function Rest(): StmtState {
      if prep then Prepared else Allocated
    }
  }

  const FRESH: StmtRec := StmtRec(Allocated, NoCursor, false, NullProc, NullProc)

  // What the driver would answer to SQLNumResultCols; it may lack the function.
  datatype ColsAnswer = ColsAnswer(present: bool, rc: SqlReturn, count: int)

  // What the driver would answer to a call: whether it has the function, its code, and its
  // answer should the driver manager ask for the number of result columns on the way.
  datatype Answer = Answer(present: bool, rc: SqlReturn, cols: ColsAnswer)

  // What the application sees, whether the driver was entered, and the record left behind.
  datatype Outcome = Outcome(rc: SqlReturn, posted: seq<SqlState>, reached: bool, after: StmtRec)

  /** The SQLSTATE with which a call is refused because of the record, if any. */
  function Gate(p: Api, r: StmtRec): Option<SqlState> {
    if p == Cancel || p == DescribeCol then None
    else if r.asynOn != NullProc then (if p.Pollable() && p == r.asynOn then None else Some(S1010))
    else if r.state.AwaitsData() then (if p == PutData || p == ParamData then None else Some(S1010))
    else match p
      case PutData | ParamData => Some(S1010)
      case Execute =>
        if r.state.Prepared? then None
        else if !r.prep || r.state.Allocated? then Some(S1010)
        else if r.state.Fetched? || r.state.XFetched? then Some(E24000) else None
      case Prepare | ExecDirect | Catalog(_) =>
        if r.state.Fetched? || r.state.XFetched? then Some(E24000) else None
      case SetCursorName =>
        if r.state.Allocated? || r.state.Prepared? then None else Some(E24000)
      case NumParams | DescribeParam | NumResultCols | ColAttributes =>
        if r.state.Allocated? then Some(S1010) else None
      case Fetch =>
        if r.state.Allocated? || r.state.Prepared? || r.state.XFetched? then Some(S1010) else None
      case ExtendedFetch | FetchScroll =>
        if r.state.Allocated? || r.state.Prepared? || r.state.Fetched? then Some(S1010) else None
      case GetData | SetPos =>
        if r.state.Allocated? || r.state.Prepared? then Some(S1010)
        else if r.state.Fetched? || r.state.XFetched? then None else Some(E24000)
      case _ => None
  }

  // Only SQLPrepare looks at its arguments after the record.
  function Refusal(p: Api, arg: Option<SqlState>, r: StmtRec): Option<SqlState> {
    if p == Prepare && Gate(p, r).Some? then Gate(p, r)
    else if arg.Some? then arg else Gate(p, r)
  }

  /** The codes that end an asynchronous call of p; the source lists them function by function. */
  predicate Ends(p: Api, rc: SqlReturn) {
    match p
    case NumParams | DescribeParam => false
    case Execute | ExecDirect | SetPos =>
      rc.Succeeded() || rc == NeedData || rc == Error
    case Fetch | ExtendedFetch | FetchScroll | GetData | MoreResults =>
      rc.Succeeded() || rc == NoData || rc == Error
    case _ => rc.Succeeded() || rc == Error
  }

  /** The driver manager's own SQLNumResultCols, issued from inside another call. */
  function CursorOpened(r: StmtRec, c: ColsAnswer): StmtRec {
    var s := r.(state := Executed);
    if !c.present then s
    else if c.rc == StillExecuting then s.(asynOn := NumResultCols)
    else if !c.rc.Succeeded() then s
    else if c.count != 0 then s.(state := CursorOpen, cursor := Opened)
    else s.(cursor := NoCursor)
  }

  function CursorOpenPosts(c: ColsAnswer): seq<SqlState> {
    if c.present then [] else [IM001]
  }

  // SQLFetch and SQLMoreResults settle first whether an execution "with info" opened a cursor.
  predicate LooksForCursor(p: Api, r: StmtRec) {
    p == Fetch && r.asynOn == NullProc && r.state.ExecutedWithInfo?
  }

  predicate SettlesCursor(p: Api, r: StmtRec, rc: SqlReturn) {
    || (p == Execute && r.state.Prepared? && rc == Success)
    || (p == ExecDirect && r.state.AtMostExecuted() && rc == Success)
    || (p == ParamData && r.state.CanPut? && rc.Succeeded() && (r.needOn == ExecDirect || r.needOn == Execute))
    || (p == MoreResults && r.state.ExecutedWithInfo?)
  }

  /** The transition for a driver answer rc, once r is not executing asynchronously on p. */
  function Settle(p: Api, r: StmtRec, rc: SqlReturn, c: ColsAnswer): StmtRec {
    match p
    case Execute => ExecuteSettle(r, rc, c)
    case ExecDirect => ExecDirectSettle(r, rc, c)
    case Prepare => PrepareSettle(r, rc)
    case Catalog(_) => CatalogSettle(p, r, rc)
    case SetCursorName => if rc.Succeeded() then r.(cursor := Named) else r
    case Fetch => FetchSettle(r, rc)
    case ExtendedFetch | FetchScroll => ScrollSettle(p, r, rc)
    case GetData => if r.state.Fetched? || r.state.XFetched? then Pending(p, r, rc) else r
    case DescribeCol | ColAttributes =>
      if r.state.Prepared? || r.state.CursorOpen? || r.state.Fetched? || r.state.XFetched?
      then Pending(p, r, rc) else r
    case NumParams | DescribeParam | NumResultCols => Pending(p, r, rc)
    case SetPos =>
      if rc == NeedData then r.(state := NeedsData, needOn := SetPos) else Pending(p, r, rc)
    case MoreResults => MoreResultsSettle(r, rc, c)
    case PutData => PutDataSettle(r, rc)
    case ParamData => ParamDataSettle(r, rc, c)
    case Cancel => if rc.Succeeded() then Cancelled(r) else r
    case CloseCursor | FreeStmt(Close) => if rc.Succeeded() then Closed(r) else r
    case _ => r
  }

  function Pending(p: Api, r: StmtRec, rc: SqlReturn): StmtRec {
    if rc == StillExecuting then r.(asynOn := p) else r
  }

  function ExecuteSettle(r: StmtRec, rc: SqlReturn, c: ColsAnswer): StmtRec {
    if rc == Success && r.state.Prepared? then CursorOpened(r, c)
    else if rc == SuccessWithInfo && r.state.Prepared? then r.(state := ExecutedWithInfo)
    else if rc == Error && r.state.Executed? then r.(state := Prepared, cursor := NoCursor)
    else if !r.state.Prepared? && !r.state.Executed? then r
    else if rc == NeedData then r.(state := NeedsData, needOn := Execute)
    else Pending(Execute, r, rc)
  }

  function ExecDirectSettle(r: StmtRec, rc: SqlReturn, c: ColsAnswer): StmtRec {
    if !r.state.AtMostExecuted() then r
    else if rc == Success then CursorOpened(r, c).(prep := true)
    else if rc == SuccessWithInfo then r.(state := ExecutedWithInfo, prep := true)
    else if rc == Error then r.(state := Allocated, cursor := NoCursor, prep := false)
    else if rc == NeedData then r.(state := NeedsData, needOn := ExecDirect)
    else Pending(ExecDirect, r, rc)
  }

  function PrepareSettle(r: StmtRec, rc: SqlReturn): StmtRec {
    if rc.Succeeded() then r.(state := Prepared, prep := true)
    else if rc == Error && r.state.AtMostExecuted() && !r.state.Allocated?
    then r.(state := Allocated, prep := false)
    else Pending(Prepare, r, rc)
  }

  function CatalogSettle(p: Api, r: StmtRec, rc: SqlReturn): StmtRec {
    if !r.state.AtMostExecuted() then r
    else if rc.Succeeded() then r.(state := CursorOpen)
    else if rc == Error then r.(state := Allocated, prep := false)
    else Pending(p, r, rc)
  }

  function FetchSettle(r: StmtRec, rc: SqlReturn): StmtRec {
    if !r.state.CursorOpen? && !r.state.Fetched? then r
    else if rc.Succeeded() then r.(state := Fetched, cursor := CursorFetched)
    else if rc == NoData
    then r.(state := if r.prep then Fetched else Allocated, cursor := NoCursor)
    else Pending(Fetch, r, rc)
  }

  function ScrollSettle(p: Api, r: StmtRec, rc: SqlReturn): StmtRec {
    if !r.state.CursorOpen? && !r.state.XFetched? then r
    else if rc.Succeeded() || rc == NoData then r.(state := XFetched, cursor := CursorXFetched)
    else Pending(p, r, rc)
  }

  function MoreResultsSettle(r: StmtRec, rc: SqlReturn, c: ColsAnswer): StmtRec {
    match r.state
    case Allocated | Prepared => r.(state := if r.prep then CursorOpen else Prepared)
    case ExecutedWithInfo | Executed =>
      var s := if r.state.ExecutedWithInfo? then CursorOpened(r, c) else r;
      if rc == NoData then s.(state := if s.prep then Prepared else CursorOpen)
      else Pending(MoreResults, s, rc)
    case CursorOpen | Fetched | XFetched =>
      if rc == NoData then r.(state := r.Rest()) else Pending(MoreResults, r, rc)
    case _ => r
  }

  function PutDataSettle(r: StmtRec, rc: SqlReturn): StmtRec {
    if rc.Succeeded() then r.(state := CanPut)
    else if rc == Error then PutDataFailed(r)
    else Pending(PutData, r, rc)
  }

  function PutDataFailed(r: StmtRec): StmtRec {
    match r.needOn
    case ExecDirect => r.(state := Allocated, needOn := NullProc)
    case Execute => if r.prep then r.(state := Prepared, needOn := NullProc) else r
    case SetPos => r.(state := XFetched)
    case _ => r
  }

  function ParamDataSettle(r: StmtRec, rc: SqlReturn, c: ColsAnswer): StmtRec {
    if !r.state.AwaitsData() then r
    else if rc == Error then
      (match r.needOn
       case ExecDirect => r.(state := Allocated)
       case Execute => r.(state := Prepared)
       case SetPos => r.(state := XFetched, cursor := CursorXFetched)
       case _ => r).(needOn := NullProc)
    else if rc.Succeeded() then
      (if r.state.NeedsData? then r.(state := MustPut)
       else if !r.state.CanPut? then r
       else match r.needOn
         case SetPos => r.(state := XFetched, cursor := CursorXFetched)
         case ExecDirect | Execute => CursorOpened(r, c)
         case _ => r).(needOn := NullProc)
    else if rc == NeedData then r.(state := MustPut)
    else r
  }

  function Cancelled(r: StmtRec): StmtRec {
    if r.state.Allocated? || r.state.Prepared? then r
    else if !r.state.AwaitsData() then r.(state := r.Rest())
    else (match r.needOn
          case ExecDirect => r.(state := Allocated)
          case Execute => r.(state := Prepared)
          case SetPos => r.(state := XFetched)
          case _ => r).(needOn := NullProc)
  }

  function Closed(r: StmtRec): StmtRec {
    var s := r.(cursor := NoCursor);
    if r.state.AwaitsData() || r.state.Allocated? || r.state.Prepared? then s
    else s.(state := r.Rest())
  }

  // The record once the gate is passed.
  function Admitted(p: Api, r: StmtRec, c: ColsAnswer): StmtRec {
    if LooksForCursor(p, r) then CursorOpened(r, c) else r
  }

  /** One API call. arg is the SQLSTATE an argument check would post, if one fails. */
  function Call(p: Api, arg: Option<SqlState>, r: StmtRec, a: Answer): Outcome {
    match Refusal(p, arg, r)
    case Some(e) => Outcome(Error, [e], false, r)
    case None =>
      var g := Admitted(p, r, a.cols);
      var posts := if LooksForCursor(p, r) then CursorOpenPosts(a.cols) else [];
      if !a.present then Outcome(Error, posts + [IM001], false, g)
      else Answered(p, g, a, posts)
  }

  // The record on which the transition works: an ended asynchronous call is no longer pending.
  function Ended(p: Api, g: StmtRec): StmtRec {
    if p.Pollable() && g.asynOn == p then g.(asynOn := NullProc) else g
  }

  // The driver has answered.
  function Answered(p: Api, g: StmtRec, a: Answer, posts: seq<SqlState>): Outcome {
    var pending := p.Pollable() && g.asynOn == p;
    if pending && !Ends(p, a.rc) then Outcome(a.rc, posts, true, g)
    else if pending && p == Prepare then Outcome(a.rc, posts, true, Ended(p, g))
    else Completed(p, Ended(p, g), a, posts)
  }

  function Completed(p: Api, r: StmtRec, a: Answer, posts: seq<SqlState>): Outcome {
    Outcome(a.rc,
            posts + (if SettlesCursor(p, r, a.rc) then CursorOpenPosts(a.cols) else []),
            true,
            Settle(p, r, a.rc, a.cols))
  }

  /** The effect of a transaction's end on a statement, the driver having agreed to it. */
  datatype CursorBehaviour = Delete | CloseCursors | Preserve

  function Transacted(r: StmtRec, onCommit: CursorBehaviour, onRollback: CursorBehaviour): StmtRec {
    var deletes := onCommit.Delete? || onRollback.Delete?;
    var closes := onCommit.CloseCursors? || onRollback.CloseCursors?;
    match r.state
    case Prepared => if deletes then r.(state := Allocated, prep := false) else r
    case ExecutedWithInfo | Executed | CursorOpen | Fetched | XFetched =>
      if !r.prep then
        if !onCommit.Preserve? && !onRollback.Preserve?
        then r.(state := Allocated, cursor := NoCursor) else r
      else if deletes then r.(state := Allocated, prep := false, cursor := NoCursor)
      else if closes then r.(state := Prepared, cursor := NoCursor)
      else r
    case _ => r
  }
}
