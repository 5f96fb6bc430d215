/** Statement and connection handles: the entry points in the source's own form, each proved to do
    what the tables of StatementSpec say. The driver's behaviour is the parameter a. */
module Handles {
  import opened Codes
  import opened Lists
  import opened StatementSpec

  class Statement {
    var hdbc: Connection    // back pointer
    var state: StmtState
    var cursorState: CursorState
    var prepState: bool
    var asynOn: Api
    var needOn: Api

    function Rec(): StmtRec
      reads this
    {
      StmtRec(state, cursorState, prepState, asynOn, needOn)
    }

    constructor (hdbc: Connection)
      ensures this.hdbc == hdbc && Rec() == FRESH
    {
      this.hdbc := hdbc;
      state, cursorState, prepState := Allocated, NoCursor, false;
      asynOn, needOn := NullProc, NullProc;
    }

    method NumberOfResultCols(c: ColsAnswer)
      returns (rc: SqlReturn, ncol: int, posted: seq<SqlState>, reached: bool)
      modifies `asynOn
      ensures Outcome(rc, posted, reached, Rec()) ==
              Call(NumResultCols, None, old(Rec()), Answer(c.present, c.rc, c))
      ensures reached && rc.Succeeded() ==> ncol == c.count
    {
      ncol := 0;
      if asynOn == NullProc {
        if state.Allocated? || state.AwaitsData() {
          return Error, 0, [S1010], false;
        }
      } else if asynOn != NumResultCols {
        return Error, 0, [S1010], false;
      }
      if !c.present {
        return Error, 0, [IM001], false;
      }
      rc, posted, reached := c.rc, [], true;
      if asynOn == NumResultCols {
        if rc.Succeeded() || rc == Error {
          asynOn := NullProc;
        }
      }
      if rc.Succeeded() {
        ncol := c.count;
      } else if rc == StillExecuting {
        asynOn := NumResultCols;
      }
    }

    method DoCursorOpen(c: ColsAnswer) returns (posted: seq<SqlState>)
      requires asynOn == NullProc
      modifies `state, `cursorState, `asynOn
      ensures Rec() == CursorOpened(old(Rec()), c) && posted == CursorOpenPosts(c)
    {
      state := Executed;
      var rc, ncol, reached;
      rc, ncol, posted, reached := NumberOfResultCols(c);
      if rc.Succeeded() {
        if ncol != 0 {
          state, cursorState := CursorOpen, Opened;
        } else {
          state, cursorState := Executed, NoCursor;
        }
      }
    }

    method SqlPrepare(arg: Option<SqlState>, a: Answer)
      returns (rc: SqlReturn, posted: seq<SqlState>, reached: bool)
      modifies this
      ensures hdbc == old(hdbc)
      ensures Outcome(rc, posted, reached, Rec()) == Call(Prepare, arg, old(Rec()), a)
    {
      if asynOn == NullProc {
        if state.Fetched? || state.XFetched? {
          return Error, [E24000], false;
        } else if state.AwaitsData() {
          return Error, [S1010], false;
        }
      } else if asynOn != Prepare {
        return Error, [S1010], false;
      }
      if arg.Some? {
        return Error, [arg.value], false;
      }
      if !a.present {
        return Error, [IM001], false;
      }
      rc, posted, reached := a.rc, [], true;
      if asynOn == Prepare {
        if rc.Succeeded() || rc == Error {
          asynOn := NullProc;
        }
        return;
      }
      if rc == StillExecuting {
        asynOn := Prepare;
      } else if rc.Succeeded() {
        state, prepState := Prepared, true;
      } else if rc == Error {
        if state.Prepared? || state.ExecutedWithInfo? || state.Executed? {
          state, prepState := Allocated, false;
        }
      }
    }

    method SqlSetCursorName(arg: Option<SqlState>, a: Answer)
      returns (rc: SqlReturn, posted: seq<SqlState>, reached: bool)
      modifies this
      ensures hdbc == old(hdbc)
      ensures Outcome(rc, posted, reached, Rec()) == Call(SetCursorName, arg, old(Rec()), a)
    {
      if arg.Some? {
        return Error, [arg.value], false;
      }
      if asynOn != NullProc {
        return Error, [S1010], false;
      }
      if state.IsExecuted() {
        return Error, [E24000], false;
      } else if state.AwaitsData() {
        return Error, [S1010], false;
      }
      if !a.present {
        return Error, [IM001], false;
      }
      rc, posted, reached := a.rc, [], true;
      if rc.Succeeded() {
        cursorState := Named;
      }
    }

    method SqlExecute(a: Answer) returns (rc: SqlReturn, posted: seq<SqlState>, reached: bool)
      modifies this
      ensures hdbc == old(hdbc)
      ensures Outcome(rc, posted, reached, Rec()) == Call(Execute, None, old(Rec()), a)
    {
      if asynOn == NullProc {
        if state.Allocated? || state.AwaitsData() {
          return Error, [S1010], false;
        } else if state.ExecutedWithInfo? || state.Executed? || state.CursorOpen? {
          if !prepState {
            return Error, [S1010], false;
          }
        } else if state.Fetched? || state.XFetched? {
          return Error, [if prepState then E24000 else S1010], false;
        }
      } else if asynOn != Execute {
        return Error, [S1010], false;
      }
      if !a.present {
        return Error, [IM001], false;
      }
      rc, posted, reached := a.rc, [], true;
      if asynOn == Execute {
        if rc.Succeeded() || rc == NeedData || rc == Error {
          asynOn := NullProc;
        } else {
          return;
        }
      }
      if state.Prepared? {
        if rc == Success {
          posted := DoCursorOpen(a.cols);
        } else if rc == SuccessWithInfo {
          state := ExecutedWithInfo;
        } else if rc == NeedData {
          state, needOn := NeedsData, Execute;
        } else if rc == StillExecuting {
          asynOn := Execute;
        }
      } else if state.Executed? {
        if rc == Error {
          state, cursorState := Prepared, NoCursor;
        } else if rc == NeedData {
          state, needOn := NeedsData, Execute;
        } else if rc == StillExecuting {
          asynOn := Execute;
        }
      }
    }

    method SqlExecDirect(arg: Option<SqlState>, a: Answer)
      returns (rc: SqlReturn, posted: seq<SqlState>, reached: bool)
      modifies this
      ensures hdbc == old(hdbc)
      ensures Outcome(rc, posted, reached, Rec()) == Call(ExecDirect, arg, old(Rec()), a)
    {
      if arg.Some? {
        return Error, [arg.value], false;
      }
      if asynOn == NullProc {
        if state.Fetched? || state.XFetched? {
          return Error, [E24000], false;
        } else if state.AwaitsData() {
          return Error, [S1010], false;
        }
      } else if asynOn != ExecDirect {
        return Error, [S1010], false;
      }
      if !a.present {
        return Error, [IM001], false;
      }
      rc, posted, reached := a.rc, [], true;
      if asynOn == ExecDirect {
        if rc.Succeeded() || rc == NeedData || rc == Error {
          asynOn := NullProc;
        } else {
          return;
        }
      }
      if state.AtMostExecuted() {
        if rc == Success {
          posted := DoCursorOpen(a.cols);
          prepState := true;
        } else if rc == SuccessWithInfo {
          state, prepState := ExecutedWithInfo, true;
        } else if rc == NeedData {
          state, needOn := NeedsData, ExecDirect;
        } else if rc == StillExecuting {
          asynOn := ExecDirect;
        } else if rc == Error {
          state, cursorState, prepState := Allocated, NoCursor, false;
        }
      }
    }

    method SqlPutData(arg: Option<SqlState>, a: Answer)
      returns (rc: SqlReturn, posted: seq<SqlState>, reached: bool)
      modifies this
      ensures hdbc == old(hdbc)
      ensures Outcome(rc, posted, reached, Rec()) == Call(PutData, arg, old(Rec()), a)
    {
      if arg.Some? {
        return Error, [arg.value], false;
      }
      if asynOn == NullProc {
        if !state.AwaitsData() {
          return Error, [S1010], false;
        }
      } else if asynOn != PutData {
        return Error, [S1010], false;
      }
      if !a.present {
        return Error, [IM001], false;
      }
      rc, posted, reached := a.rc, [], true;
      if asynOn == PutData {
        if rc.Succeeded() || rc == Error {
          asynOn := NullProc;
        } else {
          return;
        }
      }
      PutDataTransition(rc);
    }

    // The state transition at the end of SQLPutData.
    method PutDataTransition(rc: SqlReturn)
      modifies this
      ensures hdbc == old(hdbc) && Rec() == PutDataSettle(old(Rec()), rc)
    {
      if rc.Succeeded() {
        state := CanPut;
      } else if rc == Error {
        if needOn == ExecDirect {
          state, needOn := Allocated, NullProc;
        } else if needOn == Execute {
          if prepState {
            state, needOn := Prepared, NullProc;
          }
        } else if needOn == SetPos {
          state := XFetched;
        }
      } else if rc == StillExecuting {
        asynOn := PutData;
      }
    }

    // The state transition at the end of SQLParamData.
    method ParamDataTransition(rc: SqlReturn, c: ColsAnswer) returns (posted: seq<SqlState>)
      requires asynOn == NullProc
      modifies this
      ensures hdbc == old(hdbc) && Rec() == ParamDataSettle(old(Rec()), rc, c)
      ensures posted == if SettlesCursor(ParamData, old(Rec()), rc) then CursorOpenPosts(c) else []
    {
      posted := [];
      if !state.AwaitsData() {
        return;
      }
      if rc == Error {
        if needOn == ExecDirect {
          state := Allocated;
        } else if needOn == Execute {
          state := Prepared;
        } else if needOn == SetPos {
          state, cursorState := XFetched, CursorXFetched;
        }
        needOn := NullProc;
      } else if rc.Succeeded() {
        if state.NeedsData? {
          state := MustPut;
        } else if state.CanPut? {
          if needOn == SetPos {
            state, cursorState := XFetched, CursorXFetched;
          } else if needOn == ExecDirect || needOn == Execute {
            posted := DoCursorOpen(c);
          }
        }
        needOn := NullProc;
      } else if rc == NeedData {
        state := MustPut;
      }
    }

    method SqlParamData(a: Answer) returns (rc: SqlReturn, posted: seq<SqlState>, reached: bool)
      modifies this
      ensures hdbc == old(hdbc)
      ensures Outcome(rc, posted, reached, Rec()) == Call(ParamData, None, old(Rec()), a)
    {
      if asynOn == NullProc {
        if !state.AwaitsData() {
          return Error, [S1010], false;
        }
      } else if asynOn != ParamData {
        return Error, [S1010], false;
      }
      if !a.present {
        return Error, [IM001], false;
      }
      rc, posted, reached := a.rc, [], true;
      if asynOn == ParamData {
        if rc.Succeeded() || rc == Error {
          asynOn := NullProc;
        } else {
          return;
        }
      }
      posted := ParamDataTransition(rc, a.cols);
    }

    // SQLNumParams and SQLDescribeParam: the flag is set on the way in and never cleared.
    method SqlParameterInfo(p: Api, arg: Option<SqlState>, a: Answer)
      returns (rc: SqlReturn, posted: seq<SqlState>, reached: bool)
      requires p == NumParams || p == DescribeParam
      modifies this
      ensures hdbc == old(hdbc)
      ensures Outcome(rc, posted, reached, Rec()) == Call(p, arg, old(Rec()), a)
    {
      if arg.Some? {
        return Error, [arg.value], false;
      }
      if asynOn == NullProc {
        if state.Allocated? || state.AwaitsData() {
          return Error, [S1010], false;
        }
      } else if asynOn != p {
        return Error, [S1010], false;
      }
      if !a.present {
        return Error, [IM001], false;
      }
      rc, posted, reached := a.rc, [], true;
      if asynOn == p && !rc.Succeeded() && rc != Error {
        return;
      }
      if rc == StillExecuting {
        asynOn := p;
      }
    }

    // SQLDescribeCol (not gated) and SQLColAttributes (gated).
    method SqlColumnInfo(p: Api, arg: Option<SqlState>, a: Answer)
      returns (rc: SqlReturn, posted: seq<SqlState>, reached: bool)
      requires p == DescribeCol || p == ColAttributes
      modifies this
      ensures hdbc == old(hdbc)
      ensures Outcome(rc, posted, reached, Rec()) == Call(p, arg, old(Rec()), a)
    {
      if arg.Some? {
        return Error, [arg.value], false;
      }
      if p == ColAttributes {
        if asynOn == NullProc {
          if state.Allocated? || state.AwaitsData() {
            return Error, [S1010], false;
          }
        } else if asynOn != p {
          return Error, [S1010], false;
        }
      }
      if !a.present {
        return Error, [IM001], false;
      }
      rc, posted, reached := a.rc, [], true;
      if asynOn == p {
        if rc.Succeeded() || rc == Error {
          asynOn := NullProc;
        } else {
          return;
        }
      }
      if state.Prepared? || state.CursorOpen? || state.Fetched? || state.XFetched? {
        if rc == StillExecuting {
          asynOn := p;
        }
      }
    }

    method SqlFetch(a: Answer) returns (rc: SqlReturn, posted: seq<SqlState>, reached: bool)
      modifies this
      ensures hdbc == old(hdbc)
      ensures Outcome(rc, posted, reached, Rec()) == Call(Fetch, None, old(Rec()), a)
    {
      posted := [];
      if asynOn == NullProc {
        if state.Allocated? || state.Prepared? || state.XFetched? || state.AwaitsData() {
          return Error, [S1010], false;
        } else if state.ExecutedWithInfo? {
          posted := DoCursorOpen(a.cols);
        }
      } else if asynOn != Fetch {
        return Error, [S1010], false;
      }
      if !a.present {
        return Error, posted + [IM001], false;
      }
      rc, reached := a.rc, true;
      if asynOn == Fetch {
        if rc.Succeeded() || rc == NoData || rc == Error {
          asynOn := NullProc;
        } else {
          return;
        }
      }
      if state.CursorOpen? || state.Fetched? {
        if rc.Succeeded() {
          state, cursorState := Fetched, CursorFetched;
        } else if rc == NoData {
          if prepState {
            state := Fetched;
          } else {
            state := Allocated;
          }
          cursorState := NoCursor;
        } else if rc == StillExecuting {
          asynOn := Fetch;
        }
      }
    }

    // _iodbcdm_ExtendedFetch, and SQLFetchScroll where the driver has the function.
    method SqlScroll(p: Api, arg: Option<SqlState>, a: Answer)
      returns (rc: SqlReturn, posted: seq<SqlState>, reached: bool)
      requires p == ExtendedFetch || p == FetchScroll
      modifies this
      ensures hdbc == old(hdbc)
      ensures Outcome(rc, posted, reached, Rec()) == Call(p, arg, old(Rec()), a)
    {
      if arg.Some? {
        return Error, [arg.value], false;
      }
      if asynOn == NullProc {
        if state.Allocated? || state.Prepared? || state.Fetched? || state.AwaitsData() {
          return Error, [S1010], false;
        }
      } else if asynOn != p {
        return Error, [S1010], false;
      }
      if !a.present {
        return Error, [IM001], false;
      }
      assert Gate(p, Rec()).None?;
      rc, posted, reached := a.rc, [], true;
      if asynOn == p {
        if rc.Succeeded() || rc == NoData || rc == Error {
          asynOn := NullProc;
        } else {
          return;
        }
      }
      if state.CursorOpen? || state.XFetched? {
        if rc.Succeeded() || rc == NoData {
          state, cursorState := XFetched, CursorXFetched;
        } else if rc == StillExecuting {
          asynOn := p;
        }
      }
    }

    method SqlGetData(arg: Option<SqlState>, a: Answer)
      returns (rc: SqlReturn, posted: seq<SqlState>, reached: bool)
      modifies this
      ensures hdbc == old(hdbc)
      ensures Outcome(rc, posted, reached, Rec()) == Call(GetData, arg, old(Rec()), a)
    {
      if arg.Some? {
        return Error, [arg.value], false;
      }
      if asynOn == NullProc {
        if state.Allocated? || state.Prepared? || state.AwaitsData() {
          return Error, [S1010], false;
        } else if state.ExecutedWithInfo? || state.Executed? || state.CursorOpen? {
          return Error, [E24000], false;
        }
      } else if asynOn != GetData {
        return Error, [S1010], false;
      }
      if !a.present {
        return Error, [IM001], false;
      }
      rc, posted, reached := a.rc, [], true;
      if asynOn == GetData {
        if rc.Succeeded() || rc == NoData || rc == Error {
          asynOn := NullProc;
        } else {
          return;
        }
      }
      if state.Fetched? || state.XFetched? {
        if rc == StillExecuting {
          asynOn := GetData;
        }
      }
    }

    // The state transition at the end of SQLMoreResults.
    method MoreResultsTransition(rc: SqlReturn, c: ColsAnswer) returns (posted: seq<SqlState>)
      requires asynOn == NullProc
      modifies this
      ensures hdbc == old(hdbc) && Rec() == MoreResultsSettle(old(Rec()), rc, c)
      ensures posted == if SettlesCursor(MoreResults, old(Rec()), rc) then CursorOpenPosts(c) else []
    {
      posted := [];
      if state.Allocated? || state.Prepared? {
        if prepState {
          state := CursorOpen;
        } else {
          state := Prepared;
        }
      } else if state.ExecutedWithInfo? || state.Executed? {
        if state.ExecutedWithInfo? {
          posted := DoCursorOpen(c);
        }
        if rc == NoData {
          if prepState {
            state := Prepared;
          } else {
            state := CursorOpen;
          }
        } else if rc == StillExecuting {
          asynOn := MoreResults;
        }
      } else if state.CursorOpen? || state.Fetched? || state.XFetched? {
        if rc == NoData {
          if prepState {
            state := Prepared;
          } else {
            state := Allocated;
          }
        } else if rc == StillExecuting {
          asynOn := MoreResults;
        }
      }
    }

    method SqlMoreResults(a: Answer) returns (rc: SqlReturn, posted: seq<SqlState>, reached: bool)
      modifies this
      ensures hdbc == old(hdbc)
      ensures Outcome(rc, posted, reached, Rec()) == Call(MoreResults, None, old(Rec()), a)
    {
      if asynOn == NullProc {
        if state.AwaitsData() {
          return Error, [S1010], false;
        }
      } else if asynOn != MoreResults {
        return Error, [S1010], false;
      }
      if !a.present {
        return Error, [IM001], false;
      }
      rc, posted, reached := a.rc, [], true;
      if asynOn == MoreResults {
        if rc.Succeeded() || rc == NoData || rc == Error {
          asynOn := NullProc;
        } else {
          return;
        }
      }
      posted := MoreResultsTransition(rc, a.cols);
    }

    method SqlSetPos(arg: Option<SqlState>, a: Answer)
      returns (rc: SqlReturn, posted: seq<SqlState>, reached: bool)
      modifies this
      ensures hdbc == old(hdbc)
      ensures Outcome(rc, posted, reached, Rec()) == Call(SetPos, arg, old(Rec()), a)
    {
      if arg.Some? {
        return Error, [arg.value], false;
      }
      if asynOn == NullProc {
        if state.Allocated? || state.Prepared? || state.AwaitsData() {
          return Error, [S1010], false;
        } else if state.ExecutedWithInfo? || state.Executed? || state.CursorOpen? {
          return Error, [E24000], false;
        }
      } else if asynOn != SetPos {
        return Error, [S1010], false;
      }
      if !a.present {
        return Error, [IM001], false;
      }
      rc, posted, reached := a.rc, [], true;
      if asynOn == SetPos {
        if rc.Succeeded() || rc == NeedData || rc == Error {
          asynOn := NullProc;
        } else {
          return;
        }
      }
      if rc == NeedData {
        state, needOn := NeedsData, SetPos;
      } else if rc == StillExecuting {
        asynOn := SetPos;
      }
    }

    // Every catalog function: _iodbcdm_cata_state_ok, the driver, _iodbcdm_cata_state_tr.
    method SqlCatalog(index: nat, a: Answer)
      returns (rc: SqlReturn, posted: seq<SqlState>, reached: bool)
      modifies this
      ensures hdbc == old(hdbc)
      ensures Outcome(rc, posted, reached, Rec()) == Call(Catalog(index), None, old(Rec()), a)
    {
      if asynOn == NullProc {
        if state.AwaitsData() {
          return Error, [S1010], false;
        } else if state.Fetched? || state.XFetched? {
          return Error, [E24000], false;
        }
      } else if asynOn != Catalog(index) {
        return Error, [S1010], false;
      }
      if !a.present {
        return Error, [IM001], false;
      }
      rc, posted, reached := a.rc, [], true;
      if asynOn == Catalog(index) {
        if rc.Succeeded() || rc == Error {
          asynOn := NullProc;
        } else {
          return;
        }
      }
      if state.AtMostExecuted() {
        if rc.Succeeded() {
          state := CursorOpen;
        } else if rc == Error {
          state, prepState := Allocated, false;
        } else if rc == StillExecuting {
          asynOn := Catalog(index);
        }
      }
    }

    method SqlCancel(a: Answer) returns (rc: SqlReturn, posted: seq<SqlState>, reached: bool)
      modifies this
      ensures hdbc == old(hdbc)
      ensures Outcome(rc, posted, reached, Rec()) == Call(Cancel, None, old(Rec()), a)
    {
      if !a.present {
        return Error, [IM001], false;
      }
      rc, posted, reached := a.rc, [], true;
      if !rc.Succeeded() {
        return;
      }
      if state.IsExecuted() {
        if prepState {
          state := Prepared;
        } else {
          state := Allocated;
        }
      } else if state.AwaitsData() {
        if needOn == ExecDirect {
          state := Allocated;
        } else if needOn == Execute {
          state := Prepared;
        } else if needOn == SetPos {
          state := XFetched;
        }
        needOn := NullProc;
      }
    }

    // The transition shared by SQLCloseCursor and SQLFreeStmt(SQL_CLOSE).
    method CloseIt()
      modifies this
      ensures hdbc == old(hdbc) && Rec() == Closed(old(Rec()))
    {
      cursorState := NoCursor;
      if state.IsExecuted() {
        if prepState {
          state := Prepared;
        } else {
          state := Allocated;
        }
      }
    }

    method SqlCloseCursor(a: Answer) returns (rc: SqlReturn, posted: seq<SqlState>, reached: bool)
      modifies this
      ensures hdbc == old(hdbc)
      ensures Outcome(rc, posted, reached, Rec()) == Call(CloseCursor, None, old(Rec()), a)
    {
      if state.AwaitsData() || asynOn != NullProc {
        return Error, [S1010], false;
      }
      if !a.present {
        return Error, [IM001], false;
      }
      rc, posted, reached := a.rc, [], true;
      if !rc.Succeeded() {
        return;
      }
      CloseIt();
    }

    method SqlFreeStmt(option: FreeOption, arg: Option<SqlState>, a: Answer)
      returns (rc: SqlReturn, posted: seq<SqlState>, reached: bool)
      modifies this
      ensures hdbc == old(hdbc)
      ensures Outcome(rc, posted, reached, Rec()) == Call(FreeStmt(option), arg, old(Rec()), a)
    {
      if arg.Some? {
        return Error, [arg.value], false;
      }
      if state.AwaitsData() || asynOn != NullProc {
        return Error, [S1010], false;
      }
      if !a.present {
        return Error, [IM001], false;
      }
      rc, posted, reached := a.rc, [], true;
      if !rc.Succeeded() {
        return;
      }
      if option == Close {
        CloseIt();
      }
    }
  }

  datatype ConnState = DbcAllocated | DbcNeedData | DbcConnected | DbcHstmt

  // What a transaction's end depends on and changes in a connection.
  datatype ConnView = ConnView(
    state: ConnState, onCommit: CursorBehaviour, onRollback: CursorBehaviour, recs: seq<StmtRec>)

  datatype TranOutcome = TranOutcome(rc: SqlReturn, reached: bool, recs: seq<StmtRec>)

  // What a call comes to that is only passed on to the driver.
  function DriverCode(a: Answer): (SqlReturn, seq<SqlState>) {
    if a.present then (a.rc, []) else (Error, [IM001])
  }

  predicate AllIdle(recs: seq<StmtRec>) {
    forall i :: 0 <= i < |recs| ==> recs[i].Idle()
  }

  function EndOfTran(state: ConnState, onCommit: CursorBehaviour, onRollback: CursorBehaviour,
                     recs: seq<StmtRec>, a: Answer): TranOutcome
  {
    if state == DbcConnected then TranOutcome(Success, false, recs)
    else if state != DbcHstmt || !AllIdle(recs) || !a.present then TranOutcome(Error, false, recs)
    else if !a.rc.Succeeded() then TranOutcome(a.rc, true, recs)
    else TranOutcome(a.rc, true, TransactedAll(recs, onCommit, onRollback))
  }

  function TransactedAll(recs: seq<StmtRec>, onCommit: CursorBehaviour, onRollback: CursorBehaviour)
    : seq<StmtRec>
  {
    seq(|recs|, i requires 0 <= i < |recs| => Transacted(recs[i], onCommit, onRollback))
  }

  // A connection after its part of a transaction's end, and the code it reports.
  function AfterTran(v: ConnView, a: Answer): ConnView {
    v.(recs := EndOfTran(v.state, v.onCommit, v.onRollback, v.recs, a).recs)
  }

  function TranCode(v: ConnView, a: Answer): SqlReturn {
    EndOfTran(v.state, v.onCommit, v.onRollback, v.recs, a).rc
  }

  /** What comes of asking the driver for a new statement's descriptors; NoFunction if it cannot be asked. */
  datatype Descriptors = Obtained | Withheld | NoFunction

  lemma DropCall(r: StmtRec, a: Answer)
    ensures var o := Call(FreeStmt(Drop), None, r, a);
      && o.reached == (r.Idle() && a.present)
      && o.rc == (if !r.Idle() then Error else DriverCode(a).0)
      && o.posted == if !r.Idle() then [S1010] else DriverCode(a).1
  {
  }

  class Connection {
    var state: ConnState
    var hstmt: seq<Statement>    // the statement list, newest first
    var cbCommit: CursorBehaviour
    var cbRollback: CursorBehaviour

    ghost function Statements(): set<object>
      reads this
    {
      set s | s in hstmt
    }

    /** Every listed statement points back here, none is listed twice, and there are statements only
        in the state that says so. */
    ghost predicate Valid()
      reads this, Statements()
    {
      && (forall i :: 0 <= i < |hstmt| ==> hstmt[i].hdbc == this)
      && (forall i, j :: 0 <= i < j < |hstmt| ==> hstmt[i] != hstmt[j])
      && (hstmt != [] ==> state == DbcHstmt)
    }

    ghost function Recs(): (recs: seq<StmtRec>)
      reads this, Statements()
      ensures |recs| == |hstmt| && forall i :: 0 <= i < |recs| ==> recs[i] == hstmt[i].Rec()
    {
      seq(|hstmt|, i requires 0 <= i < |hstmt| reads this, Statements() => hstmt[i].Rec())
    }

    ghost function Now(): ConnView
      reads this, Statements()
    {
      ConnView(state, cbCommit, cbRollback, Recs())
    }

    constructor ()
      ensures Valid() && state == DbcAllocated && hstmt == []
      ensures cbCommit == Delete && cbRollback == Delete
    {
      state, hstmt := DbcAllocated, [];
      cbCommit, cbRollback := Delete, Delete;
    }

    /** The end of SQLConnect: once the driver has connected, the options set before are sent, which comes to delayed,
        and the driver is asked for its cursor behaviours, which it may leave as they are. */
    method Establish(a: Answer, delayed: SqlReturn, commit: Option<CursorBehaviour>, rollback: Option<CursorBehaviour>)
      returns (rc: SqlReturn, posted: seq<SqlState>)
      requires Valid()
      modifies this`state, this`cbCommit, this`cbRollback
      ensures Valid()
      ensures var connects := old(state) == DbcAllocated && a.present && a.rc.Succeeded();
        && state == (if connects then DbcConnected else old(state))
        && cbCommit == (if connects && commit.Some? then commit.value else old(cbCommit))
        && cbRollback == (if connects && rollback.Some? then rollback.value else old(cbRollback))
      ensures posted == if old(state) != DbcAllocated then [E08002] else if a.present then [] else [IM001]
      ensures rc == if old(state) != DbcAllocated || !a.present then Error
                    else if a.rc.Succeeded() && delayed != Success then SuccessWithInfo else a.rc
    {
      if state != DbcAllocated {
        return Error, [E08002];
      }
      if !a.present {
        return Error, [IM001];
      }
      if !a.rc.Succeeded() {
        return a.rc, [];
      }
      rc, posted := a.rc, [];
      state := DbcConnected;
      if commit.Some? {
        cbCommit := commit.value;
      }
      if rollback.Some? {
        cbRollback := rollback.value;
      }
      if delayed != Success {
        rc := SuccessWithInfo;
      }
    }

    /** posted is what the connection gets: a driver that cannot allocate statements leaves its error on the statement
        that is given up. drops says that the driver can take its handle back. */
    method AllocStmt(a: Answer, descriptors: Descriptors, drops: bool)
      returns (rc: SqlReturn, pstmt: Statement?, posted: seq<SqlState>)
      requires Valid()
      modifies this`state, this`hstmt
      ensures Valid()
      ensures pstmt != null <==>
              (old(state) == DbcConnected || old(state) == DbcHstmt) &&
              a.present && a.rc.Succeeded() && descriptors == Obtained
      ensures pstmt != null ==> fresh(pstmt) && pstmt.Rec() == FRESH && pstmt.hdbc == this &&
                                hstmt == [pstmt] + old(hstmt) && state == DbcHstmt && rc == Success
      ensures pstmt == null ==> hstmt == old(hstmt) && state == old(state)
      ensures (rc, posted) == if old(state) == DbcAllocated || old(state) == DbcNeedData then (Error, [E08003])
                              else if !a.present then (Error, [])
                              else if !a.rc.Succeeded() then (a.rc, [])
                              else if descriptors == NoFunction then (Error, if drops then [HYC00] else [HYC00, IM001])
                              else if descriptors == Withheld then (Error, if drops then [] else [IM001])
                              else (Success, [])
    {
      if state == DbcAllocated || state == DbcNeedData {
        return Error, null, [E08003];
      }
      var p := new Statement(this);
      if !a.present {
        return Error, null, [];
      }
      if !a.rc.Succeeded() {
        return a.rc, null, [];
      }
      if descriptors != Obtained {
        posted := if descriptors == NoFunction then [HYC00] else [];
        if !drops {
          posted := posted + [IM001];
          assert posted == if descriptors == NoFunction then [HYC00, IM001] else [IM001];
        }
        return Error, null, posted;
      }
      hstmt := [p] + hstmt;
      state := DbcHstmt;
      return Success, p, [];
    }

    /** Unlinks exactly the given statement; one that is not on its connection's list is refused. */
    static method DropStmt(pstmt: Statement) returns (rc: SqlReturn)
      requires pstmt.hdbc.Valid()
      modifies pstmt.hdbc`hstmt
      ensures pstmt.hdbc.Valid()
      ensures pstmt.hdbc.hstmt == Without(old(pstmt.hdbc.hstmt), pstmt)
      ensures rc == if pstmt in old(pstmt.hdbc.hstmt) then Success else InvalidHandle
      ensures pstmt !in pstmt.hdbc.hstmt
    {
      var pdbc := pstmt.hdbc;
      ghost var was := pdbc.hstmt;
      var t := 0;
      while t < |pdbc.hstmt|
        invariant 0 <= t <= |pdbc.hstmt| && pdbc.hstmt == was
        invariant t > 0 ==> forall i :: 0 <= i <= t && i < |was| ==> was[i] != pstmt
      {
        if pdbc.hstmt[t] == pstmt {
          WithoutAt(was, t);
          pdbc.hstmt := pdbc.hstmt[t + 1..];
          return Success;
        }
        if t + 1 < |pdbc.hstmt| && pdbc.hstmt[t + 1] == pstmt {
          WithoutAt(was, t + 1);
          pdbc.hstmt := pdbc.hstmt[..t + 1] + pdbc.hstmt[t + 2..];
          return Success;
        }
        t := t + 1;
      }
      WithoutAbsent(was, pstmt);
      return InvalidHandle;
    }

    /** SQLFreeStmt(SQL_DROP): the handle goes, whether or not the driver was asked or agreed - and even if another call
        is in progress on it, so that this one is turned away. */
    static method SqlFreeStmtDrop(pstmt: Statement, inCall: bool, a: Answer)
      returns (rc: SqlReturn, posted: seq<SqlState>, reached: bool)
      requires pstmt.hdbc.Valid()
      modifies pstmt, pstmt.hdbc`hstmt
      ensures old(pstmt.hdbc).Valid()
      ensures old(pstmt.hdbc).hstmt == Without(old(pstmt.hdbc.hstmt), pstmt)
      ensures reached <==> !inCall && old(pstmt.Rec()).Idle() && a.present
      ensures (rc, posted) == if inCall || !old(pstmt.Rec()).Idle() then (Error, [S1010]) else DriverCode(a)
    {
      DropCall(pstmt.Rec(), a);
      if inCall {
        rc, posted, reached := Error, [S1010], false;
      } else {
        rc, posted, reached := pstmt.SqlFreeStmt(Drop, None, a);
      }
      var _ := DropStmt(pstmt);
    }

    method FinishDisconnect(driverDisconnect: bool, a: Answer)
      returns (rc: SqlReturn, posted: seq<SqlState>)
      requires Valid()
      modifies this`state, this`hstmt
      ensures Valid()
      ensures !driverDisconnect || (a.present && a.rc.Succeeded()) ==>
                rc == Success && posted == [] && hstmt == [] && state == DbcAllocated
      ensures driverDisconnect && !(a.present && a.rc.Succeeded()) ==>
                (rc, posted) == DriverCode(a) && hstmt == old(hstmt) && state == old(state)
    {
      if driverDisconnect {
        if !a.present {
          return Error, [IM001];
        }
        if !a.rc.Succeeded() {
          return a.rc, [];
        }
      }
      while hstmt != []
        invariant Valid() && state == old(state)
        decreases |hstmt|
      {
        WithoutAt(hstmt, 0);
        var _ := DropStmt(hstmt[0]);
      }
      state := DbcAllocated;
      return Success, [];
    }

    method StatementsIdle() returns (idle: bool)
      ensures idle <==> AllIdle(Recs())
    {
      for i := 0 to |hstmt|
        invariant forall j :: 0 <= j < i ==> hstmt[j].Rec().Idle()
      {
        if hstmt[i].state.AwaitsData() || hstmt[i].asynOn != NullProc {
          return false;
        }
      }
      return true;
    }

    /** SQLDisconnect where the connection does not go back to the pool. */
    method SqlDisconnect(a: Answer) returns (rc: SqlReturn, posted: seq<SqlState>)
      requires Valid()
      modifies this`state, this`hstmt
      ensures Valid()
      ensures (rc, posted) == if old(state) == DbcAllocated then (Error, [E08003])
                              else if !AllIdle(old(Recs())) then (Error, [S1010])
                              else if a.present && a.rc.Succeeded() then (Success, [])
                              else DriverCode(a)
      ensures rc == Success ==> hstmt == [] && state == DbcAllocated
      ensures rc != Success ==> hstmt == old(hstmt) && state == old(state)
    {
      if state == DbcAllocated {
        return Error, [E08003];
      }
      var idle := StatementsIdle();
      if !idle {
        return Error, [S1010];
      }
      rc, posted := FinishDisconnect(true, a);
    }

    /** _iodbcdm_transact: the driver is asked only when there may be statements and all are idle. */
    method Transact(a: Answer) returns (rc: SqlReturn, posted: seq<SqlState>, reached: bool)
      requires Valid()
      modifies this`state, Statements()
      ensures Valid() && hstmt == old(hstmt) && state == old(state)
      ensures TranOutcome(rc, reached, Recs()) ==
              EndOfTran(state, cbCommit, cbRollback, old(Recs()), a)
      ensures posted == if state == DbcAllocated || state == DbcNeedData then [E08003]
                        else if state == DbcConnected then []
                        else if !AllIdle(old(Recs())) then [S1010]
                        else DriverCode(a).1
    {
      if state == DbcAllocated || state == DbcNeedData {
        return Error, [E08003], false;
      } else if state == DbcConnected {
        return Success, [], false;
      }
      var idle := StatementsIdle();
      if !idle {
        return Error, [S1010], false;
      }
      if !a.present {
        return Error, [IM001], false;
      }
      rc, posted, reached := a.rc, [], true;
      if !rc.Succeeded() {
        return;
      }
      state := DbcHstmt;
      EndStatements();
    }

    method EndStatements()
      requires Valid() && state == DbcHstmt
      modifies Statements()
      ensures Valid() && Recs() == TransactedAll(old(Recs()), cbCommit, cbRollback)
    {
      ghost var was := Recs();
      for i := 0 to |hstmt|
        invariant Valid()
        invariant forall j :: 0 <= j < i ==> hstmt[j].Rec() == Transacted(was[j], cbCommit, cbRollback)
        invariant forall j :: i <= j < |hstmt| ==> hstmt[j].Rec() == was[j]
      {
        EndStatement(hstmt[i]);
      }
    }

    method EndStatement(pstmt: Statement)
      modifies pstmt
      ensures pstmt.hdbc == old(pstmt.hdbc)
      ensures pstmt.Rec() == Transacted(old(pstmt.Rec()), cbCommit, cbRollback)
    {
      if pstmt.state.Prepared? {
        if cbCommit == Delete || cbRollback == Delete {
          pstmt.state, pstmt.prepState := Allocated, false;
        }
      } else if pstmt.state.IsExecuted() {
        if !pstmt.prepState && cbCommit != Preserve && cbRollback != Preserve {
          pstmt.state, pstmt.prepState, pstmt.cursorState := Allocated, false, NoCursor;
          return;
        }
        if pstmt.prepState {
          if cbCommit == Delete || cbRollback == Delete {
            pstmt.state, pstmt.prepState, pstmt.cursorState := Allocated, false, NoCursor;
            return;
          }
          if cbCommit == CloseCursors || cbRollback == CloseCursors {
            pstmt.state, pstmt.cursorState := Prepared, NoCursor;
          }
        }
      }
    }
  }

  // The bitwise or of return codes, and the test SQL_SUCCEEDED makes on it.
  function OrAll(rcs: seq<SqlReturn>): bv16 {
    if rcs == [] then 0 else OrAll(rcs[..|rcs| - 1]) | rcs[|rcs| - 1].Bits()
  }

  predicate Masked(bits: bv16) {
    bits & 0xFFFE == 0
  }

  // The result over an environment: an error, or the or of the codes itself.
  function Folded(bits: bv16): (rc: SqlReturn)
    ensures rc.Succeeded() <==> Masked(bits)
    ensures rc == Success <==> bits == 0
  {
    if !Masked(bits) then Error else if bits == 0 then Success else SuccessWithInfo
  }

  predicate AllSucceeded(rcs: seq<SqlReturn>) {
    forall i :: 0 <= i < |rcs| ==> rcs[i].Succeeded()
  }

  lemma MaskedOr(a: bv16, b: bv16)
    ensures Masked(a | b) <==> Masked(a) && Masked(b)
  {
  }

  lemma MaskedCode(rc: SqlReturn)
    requires rc.Canonical()
    ensures Masked(rc.Bits()) <==> rc.Succeeded()
  {
  }

  /** The or of the codes passes SQL_SUCCEEDED exactly when every one does. */
  lemma {:induction false} OrAllSucceeds(rcs: seq<SqlReturn>)
    requires forall i :: 0 <= i < |rcs| ==> rcs[i].Canonical()
    ensures Masked(OrAll(rcs)) <==> AllSucceeded(rcs)
  {
    if rcs == [] {
      assert Masked(0);
    } else {
      var n := |rcs| - 1;
      var before, last := OrAll(rcs[..n]), rcs[n].Bits();
      assert AllSucceeded(rcs) <==> AllSucceeded(rcs[..n]) && rcs[n].Succeeded();
      OrAllSucceeds(rcs[..n]);
      MaskedCode(rcs[n]);
      MaskedOr(before, last);
    }
  }

  class Environment {
    var hdbc: seq<Connection>    // the connection list, newest first

    ghost function Statements(): set<object>
      reads this, hdbc
    {
      set c, s | c in hdbc && s in c.Statements() :: s
    }

    ghost predicate Valid()
      reads this, hdbc, Statements()
    {
      && (forall i :: 0 <= i < |hdbc| ==> hdbc[i].Valid())
      && (forall i, j :: 0 <= i < j < |hdbc| ==> hdbc[i] != hdbc[j])
    }

    ghost function Views(): (views: seq<ConnView>)
      reads this, hdbc, Statements()
      ensures |views| == |hdbc| && forall i :: 0 <= i < |views| ==> views[i] == hdbc[i].Now()
    {
      seq(|hdbc|, i requires 0 <= i < |hdbc| reads this, hdbc, Statements() => hdbc[i].Now())
    }

    constructor ()
      ensures Valid() && hdbc == []
    {
      hdbc := [];
    }

    /** SQLTransact over an environment: every connection is visited once, whatever the others say;
        the result succeeds exactly when every connection's does. */
    method TransactAll(answers: seq<Answer>) returns (rc: SqlReturn, rcs: seq<SqlReturn>)
      requires Valid() && |answers| == |hdbc|
      requires forall i :: 0 <= i < |answers| ==> answers[i].rc.Canonical()
      modifies hdbc, Statements()
      ensures Valid() && hdbc == old(hdbc) && |rcs| == |hdbc|
      ensures forall i :: 0 <= i < |hdbc| ==>
                rcs[i] == TranCode(old(Views())[i], answers[i]) && Views()[i] == AfterTran(old(Views())[i], answers[i])
      ensures rc.Succeeded() <==> AllSucceeded(rcs)
      ensures !rc.Succeeded() ==> rc == Error
    {
      rcs := [];
      var bits: bv16 := 0;
      ghost var was := Views();
      for i := 0 to |hdbc|
        invariant Valid() && hdbc == old(hdbc) && Statements() == old(Statements())
        invariant |rcs| == i && bits == OrAll(rcs)
        invariant forall j :: 0 <= j < i ==> rcs[j].Canonical() && rcs[j] == TranCode(was[j], answers[j])
        invariant forall j :: 0 <= j < i ==> Views()[j] == AfterTran(was[j], answers[j])
        invariant forall j :: i <= j < |hdbc| ==> Views()[j] == was[j]
      {
        var one := TransactOne(i, answers[i]);
        assert (rcs + [one])[..i] == rcs;
        rcs := rcs + [one];
        bits := bits | one.Bits();
      }
      OrAllSucceeds(rcs);
      return Folded(bits), rcs;
    }

    method TransactOne(i: nat, a: Answer) returns (rc: SqlReturn)
      requires Valid() && i < |hdbc| && a.rc.Canonical()
      modifies hdbc[i], hdbc[i].Statements()
      ensures Valid() && hdbc == old(hdbc) && Statements() == old(Statements())
      ensures rc.Canonical() && rc == TranCode(old(Views())[i], a)
      ensures Views()[i] == AfterTran(old(Views())[i], a)
      ensures forall j :: 0 <= j < |hdbc| && j != i ==> Views()[j] == old(Views())[j]
    {
      assert forall j :: 0 <= j < |hdbc| && j != i ==> hdbc[j].Statements() !! hdbc[i].Statements();
      var posted, reached;
      rc, posted, reached := hdbc[i].Transact(a);
    }
  }

  /** What a transaction's end makes of a statement, read off the two cursor behaviours together: one DELETE takes every
      plan that is in use; without it, one CLOSE closes the cursors of prepared plans; one PRESERVE keeps what has no plan. */
  predicate EndFollows(r: StmtRec, s: StmtRec, behaviours: set<CursorBehaviour>) {
    if r.state == Prepared then
      s == if Delete in behaviours then StmtRec(Allocated, r.cursor, false, r.asynOn, r.needOn) else r
    else if r.state.IsExecuted() && r.prep then
      s == if Delete in behaviours then StmtRec(Allocated, NoCursor, false, r.asynOn, r.needOn)
           else if CloseCursors in behaviours then StmtRec(Prepared, NoCursor, true, r.asynOn, r.needOn)
           else r
    else if r.state.IsExecuted() then
      s == if Preserve in behaviours then r else StmtRec(Allocated, NoCursor, false, r.asynOn, r.needOn)
    else s == r
  }

  lemma TransactedFollows(r: StmtRec, onCommit: CursorBehaviour, onRollback: CursorBehaviour)
    ensures EndFollows(r, Transacted(r, onCommit, onRollback), {onCommit, onRollback})
  {
  }

  /** What a transaction's end leaves of a connection's statements: a statement in the middle of something stops it
      before the driver is asked; early success without the driver means that there are no statements. */
  lemma TransactionOutcome(v: ConnView, a: Answer)
    requires v.recs != [] ==> v.state == DbcHstmt
    ensures var o := EndOfTran(v.state, v.onCommit, v.onRollback, v.recs, a);
      && TranCode(v, a) == o.rc && AfterTran(v, a) == ConnView(v.state, v.onCommit, v.onRollback, o.recs)
      && |o.recs| == |v.recs|
      && (o.reached <==> v.state == DbcHstmt && AllIdle(v.recs) && a.present)
      && o.rc == (if v.state == DbcConnected then Success else if o.reached then a.rc else Error)
      && (!o.reached && o.rc.Succeeded() ==> v.recs == [])
      && (!(o.reached && o.rc.Succeeded()) ==> o.recs == v.recs)
      && (v.onCommit.Preserve? && v.onRollback.Preserve? ==> o.recs == v.recs)
      && (o.reached && o.rc.Succeeded() ==>
          forall i :: 0 <= i < |o.recs| ==> EndFollows(v.recs[i], o.recs[i], {v.onCommit, v.onRollback}) && o.recs[i].Idle())
  {
    var o := EndOfTran(v.state, v.onCommit, v.onRollback, v.recs, a);
    if v.onCommit.Preserve? && v.onRollback.Preserve? {
      assert TransactedAll(v.recs, v.onCommit, v.onRollback) == v.recs;
    }
    forall i | 0 <= i < |o.recs| && o.reached && o.rc.Succeeded()
      ensures EndFollows(v.recs[i], o.recs[i], {v.onCommit, v.onRollback}) && o.recs[i].Idle()
    {
      TransactedFollows(v.recs[i], v.onCommit, v.onRollback);
    }
  }

  /** After a transaction that closes cursors and deletes nothing, a plan that was in use can be executed again. */
  lemma ClosedPlanExecutes(r: StmtRec, onCommit: CursorBehaviour, onRollback: CursorBehaviour, a: Answer)
    requires r.Idle() && r.prep && r.state != Allocated && a.present
    requires onCommit != Delete && onRollback != Delete && (onCommit == CloseCursors || onRollback == CloseCursors)
    ensures var s := Transacted(r, onCommit, onRollback); s.state == Prepared && Call(Execute, None, s, a).reached
  {
    TransactedFollows(r, onCommit, onRollback);
  }
}
