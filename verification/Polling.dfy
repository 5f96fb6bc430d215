/** Repeating a call that is still executing: how the polled run compares with a call whose driver
    answers at once. */
module Polling {
  import opened Codes
  import opened StatementSpec

  // The record after the driver has answered "still executing" to each of the calls.
  function Polled(p: Api, arg: Option<SqlState>, r: StmtRec, polls: seq<ColsAnswer>): StmtRec
    decreases polls
  {
    if polls == [] then r
    else Polled(p, arg, Call(p, arg, r, StillBusy(polls[0])).after, polls[1..])
  }

  function StillBusy(c: ColsAnswer): Answer {
    Answer(true, StillExecuting, c)
  }

  // SQLFetch and SQLMoreResults ask for the columns in their first call, every other function in its last.
  function AtOnce(p: Api, polls: seq<ColsAnswer>, a: Answer): Answer {
    if (p == Fetch || p == MoreResults) && polls != [] then a.(cols := polls[0]) else a
  }

  // The functions whose transition follows the driver's code alone.
  predicate Regular(p: Api) {
    p.Pollable() && p != Prepare && p != MoreResults
  }

  // "Still executing" changes the flag and nothing else ...
  lemma BusySettle(p: Api, g: StmtRec, c: ColsAnswer)
    requires Regular(p)
    ensures Settle(p, g, StillExecuting, c) == g || Settle(p, g, StillExecuting, c) == g.(asynOn := p)
  {
  }

  // ... and a code that does not end an asynchronous call leaves none behind.
  lemma UnlistedSettle(p: Api, g: StmtRec, rc: SqlReturn, c: ColsAnswer)
    requires Regular(p) && g.asynOn == NullProc && !Ends(p, rc) && rc != StillExecuting
    ensures Settle(p, g, rc, c).asynOn == NullProc
  {
  }

  lemma FirstBusy(p: Api, arg: Option<SqlState>, r: StmtRec, c: ColsAnswer)
    requires Regular(p) && r.asynOn == NullProc && Refusal(p, arg, r).None?
    ensures var s := Call(p, arg, r, StillBusy(c)).after;
            var g := Admitted(p, r, c);
            s == Settle(p, g, StillExecuting, c) && (s == g || s == g.(asynOn := p))
  {
    BusySettle(p, Admitted(p, r, c), c);
  }

  // While p is pending, a call of p goes through to the driver.
  lemma PendingCall(p: Api, s: StmtRec, a: Answer)
    requires Regular(p) && s.asynOn == p && a.present
    ensures Call(p, None, s, a).after ==
            if Ends(p, a.rc) then Settle(p, s.(asynOn := NullProc), a.rc, a.cols) else s
  {
  }

  // A repeated "still executing" teaches a regular function nothing.
  lemma BusyTwice(p: Api, arg: Option<SqlState>, r: StmtRec, c: ColsAnswer, d: ColsAnswer)
    requires Regular(p) && r.asynOn == NullProc
    ensures var s := Call(p, arg, r, StillBusy(c)).after;
            Call(p, arg, s, StillBusy(d)).after == s
  {
    if Refusal(p, arg, r).None? {
      FirstBusy(p, arg, r, c);
      var s := Call(p, arg, r, StillBusy(c)).after;
      if s.asynOn == p {
        PendingCall(p, s, StillBusy(d));
      }
    }
  }

  lemma {:induction false} PollsCollapse(p: Api, arg: Option<SqlState>, r: StmtRec, polls: seq<ColsAnswer>)
    requires Regular(p) && r.asynOn == NullProc && polls != []
    ensures Polled(p, arg, r, polls) == Call(p, arg, r, StillBusy(polls[0])).after
  {
    var s := Call(p, arg, r, StillBusy(polls[0])).after;
    forall d ensures Call(p, arg, s, StillBusy(d)).after == s {
      BusyTwice(p, arg, r, polls[0], d);
    }
    PollsKeep(p, arg, s, polls[1..]);
  }

  lemma {:induction false} PollsKeep(p: Api, arg: Option<SqlState>, s: StmtRec, polls: seq<ColsAnswer>)
    requires forall d :: Call(p, arg, s, StillBusy(d)).after == s
    ensures Polled(p, arg, s, polls) == s
    decreases polls
  {
    if polls != [] {
      PollsKeep(p, arg, s, polls[1..]);
    }
  }

  /** For a regular function, any number of "still executing" answers followed by the driver's last
      code leaves the record of one call answering that code at once, exactly when that code is one
      the function lists as ending an asynchronous call (or nothing was pending). */
  lemma PollingRefinesOneCall(p: Api, arg: Option<SqlState>, r: StmtRec, polls: seq<ColsAnswer>, a: Answer)
    requires Regular(p) && r.asynOn == NullProc && a.present
    ensures var s := Polled(p, arg, r, polls);
            Call(p, arg, s, a).after == Call(p, arg, r, AtOnce(p, polls, a)).after
            <==> polls == [] || s.asynOn != p || a.rc == StillExecuting || Ends(p, a.rc)
  {
    if polls != [] {
      PollsCollapse(p, arg, r, polls);
      OneBusyAnswer(p, arg, r, polls[0], a);
    }
  }

  /** In codes: what fetches rows is refined with success, info, no data and error; what may ask for data with success,
      info, need data and error; everything else but the parameter functions with success, info and error. */
  lemma PollingRefinesInCodes(p: Api, arg: Option<SqlState>, r: StmtRec, polls: seq<ColsAnswer>, a: Answer)
    requires Regular(p) && r.asynOn == NullProc && a.present
    ensures var s := Polled(p, arg, r, polls);
      (|| (p in {Fetch, ExtendedFetch, FetchScroll, GetData} && a.rc in {Success, SuccessWithInfo, NoData, Error})
       || (p in {Execute, ExecDirect, SetPos} && a.rc in {Success, SuccessWithInfo, NeedData, Error})
       || ((p in {PutData, ParamData, NumResultCols, DescribeCol, ColAttributes} || p.Catalog?) &&
           a.rc in {Success, SuccessWithInfo, Error}))
      ==> Call(p, arg, s, a).after == Call(p, arg, r, AtOnce(p, polls, a)).after
  {
    PollingRefinesOneCall(p, arg, r, polls, a);
  }

  /** And with any other code the call stays pending, as the parameter functions do with every code. */
  lemma PendingInCodes(p: Api, s: StmtRec, a: Answer)
    requires p.Pollable() && s.asynOn == p && a.present
    ensures Call(p, None, s, a).after == s <==>
      !(|| (p in {Fetch, ExtendedFetch, FetchScroll, GetData, MoreResults} && a.rc in {Success, SuccessWithInfo, NoData, Error})
        || (p in {Execute, ExecDirect, SetPos} && a.rc in {Success, SuccessWithInfo, NeedData, Error})
        || ((p in {Prepare, PutData, ParamData, NumResultCols, DescribeCol, ColAttributes} || p.Catalog?) &&
            a.rc in {Success, SuccessWithInfo, Error}))
  {
    if Ends(p, a.rc) {
      EndedIsOver(p, s.(asynOn := NullProc), a.rc, a.cols);
    }
  }

  // A call that has ended does not become pending again.
  lemma EndedIsOver(p: Api, u: StmtRec, rc: SqlReturn, c: ColsAnswer)
    requires p.Pollable() && u.asynOn == NullProc && Ends(p, rc)
    ensures Settle(p, u, rc, c).asynOn != p
  {
  }

  lemma OneBusyAnswer(p: Api, arg: Option<SqlState>, r: StmtRec, c: ColsAnswer, a: Answer)
    requires Regular(p) && r.asynOn == NullProc && a.present
    ensures var s := Call(p, arg, r, StillBusy(c)).after;
            Call(p, arg, s, a).after == Call(p, arg, r, AtOnce(p, [c], a)).after
            <==> s.asynOn != p || a.rc == StillExecuting || Ends(p, a.rc)
  {
    var s := Call(p, arg, r, StillBusy(c)).after;
    if Refusal(p, arg, r).None? {
      FirstBusy(p, arg, r, c);
      if s.asynOn == p {
        AnswerToPending(p, r, c, a);
      } else {
        AnswerToForgotten(p, arg, r, c, a);
      }
    }
  }

  lemma AnswerToPending(p: Api, r: StmtRec, c: ColsAnswer, a: Answer)
    requires Regular(p) && r.asynOn == NullProc && a.present && Refusal(p, None, r).None?
    requires Settle(p, Admitted(p, r, c), StillExecuting, c).asynOn == p
    requires Admitted(p, r, c).asynOn != p
    ensures var g := Admitted(p, r, c);
            Call(p, None, g.(asynOn := p), a).after == Call(p, None, r, AtOnce(p, [c], a)).after
            <==> a.rc == StillExecuting || Ends(p, a.rc)
  {
    var g := Admitted(p, r, c);
    BusySettle(p, g, c);
    PendingCall(p, g.(asynOn := p), a);
    if a.rc != StillExecuting && !Ends(p, a.rc) {
      UnlistedSettle(p, g.(asynOn := NullProc), a.rc, AtOnce(p, [c], a).cols);
    }
  }

  lemma AnswerToForgotten(p: Api, arg: Option<SqlState>, r: StmtRec, c: ColsAnswer, a: Answer)
    requires Regular(p) && r.asynOn == NullProc && a.present && Refusal(p, arg, r).None?
    requires Settle(p, Admitted(p, r, c), StillExecuting, c).asynOn != p
    ensures Call(p, arg, Admitted(p, r, c), a).after == Call(p, arg, r, AtOnce(p, [c], a)).after
  {
  }

  /** A polled SQLPrepare forgets its own success: it ends in the record of an immediate one exactly
      when the statement was already prepared (on success), or has nothing to lose (on error). */
  lemma PolledPrepare(arg: Option<SqlState>, r: StmtRec, polls: seq<ColsAnswer>, a: Answer)
    requires r.asynOn == NullProc && a.present && polls != []
    requires Refusal(Prepare, arg, r).None? && Ends(Prepare, a.rc)
    ensures var s := Polled(Prepare, arg, r, polls);
            Call(Prepare, arg, s, a).after == Call(Prepare, arg, r, a).after
            <==> if a.rc.Succeeded() then r.state.Prepared? && r.prep
                 else r.state.Allocated? || r.state.CursorOpen?
  {
    PendingPrepare(arg, r.(asynOn := Prepare), polls[1..]);
  }

  lemma {:induction false} PendingPrepare(arg: Option<SqlState>, r: StmtRec, polls: seq<ColsAnswer>)
    requires r.asynOn == Prepare && arg.None?
    ensures Polled(Prepare, arg, r, polls) == r
  {
    if polls != [] {
      PendingPrepare(arg, r, polls[1..]);
    }
  }

  /** A polled SQLMoreResults, whatever is answered about the columns meanwhile, ends in the record of an
      immediate one unless the first call had moved the statement: the driver's last code is "no data", and there
      was a prepared plan without a cursor, or an execution "with info" of an unprepared statement that turns out
      to have a cursor; or the question for the columns of such an execution was itself left executing. */
  lemma PolledMoreResults(r: StmtRec, polls: seq<ColsAnswer>, a: Answer)
    requires r.asynOn == NullProc && a.present && polls != [] && Ends(MoreResults, a.rc) && !r.state.AwaitsData()
    ensures var s := Polled(MoreResults, None, r, polls);
            Call(MoreResults, None, s, a).after == Call(MoreResults, None, r, AtOnce(MoreResults, polls, a)).after
            <==> !MovedAway(r, polls[0], a.rc)
  {
    PendingMoreResults(r, polls);
    MoreResultsAfter(r, Polled(MoreResults, None, r, polls), polls[0], a);
  }

  // The first call has moved the statement to where the last code means something else.
  predicate MovedAway(r: StmtRec, first: ColsAnswer, rc: SqlReturn) {
    || (r.state.ExecutedWithInfo? && first.present && first.rc == StillExecuting)
    || (rc == NoData &&
        ((r.prep && (r.state.Allocated? || r.state.Prepared?)) ||
         (!r.prep && r.state.ExecutedWithInfo? && CursorOpened(r, first).state.CursorOpen?)))
  }

  function BusyMore(r: StmtRec, c: ColsAnswer): StmtRec {
    Call(MoreResults, None, r, StillBusy(c)).after
  }

  // Where the first poll leaves the statement, the flag aside.
  function Moved(r: StmtRec, c: ColsAnswer): StmtRec {
    MoreResultsSettle(r, StillExecuting, c).(asynOn := NullProc)
  }

  // The statement is there, with SQLMoreResults pending or not.
  predicate IsMoved(r: StmtRec, c: ColsAnswer, s: StmtRec) {
    s.(asynOn := NullProc) == Moved(r, c) && (s.asynOn == NullProc || s.asynOn == MoreResults)
  }

  lemma {:induction false} PendingMoreResults(r: StmtRec, polls: seq<ColsAnswer>)
    requires polls != [] && r.asynOn == NullProc && !r.state.AwaitsData()
    ensures IsMoved(r, polls[0], Polled(MoreResults, None, r, polls))
  {
    var s := BusyMore(r, polls[0]);
    BusyMoreMoves(r, polls[0]);
    FurtherPolls(r, polls[0], s, polls[1..]);
  }

  lemma {:induction false} FurtherPolls(r: StmtRec, c: ColsAnswer, s: StmtRec, polls: seq<ColsAnswer>)
    requires r.asynOn == NullProc && !r.state.AwaitsData() && IsMoved(r, c, s)
    ensures IsMoved(r, c, Polled(MoreResults, None, s, polls))
    decreases polls
  {
    if polls != [] {
      BusyMoreMovesAgain(r, c, s, polls[0]);
      FurtherPolls(r, c, BusyMore(s, polls[0]), polls[1..]);
    }
  }

  lemma BusyMoreMoves(r: StmtRec, c: ColsAnswer)
    requires r.asynOn == NullProc && !r.state.AwaitsData()
    ensures IsMoved(r, c, BusyMore(r, c))
  {
  }

  lemma BusyMoreMovesAgain(r: StmtRec, c: ColsAnswer, s: StmtRec, d: ColsAnswer)
    requires r.asynOn == NullProc && !r.state.AwaitsData() && IsMoved(r, c, s)
    ensures IsMoved(r, c, BusyMore(s, d))
  {
    MovedStays(r, c, d);
    if s.asynOn == NullProc {
      MoreResultsBusy(s, d);
    }
  }

  // A further poll moves it no further.
  lemma MovedStays(r: StmtRec, c: ColsAnswer, d: ColsAnswer)
    requires !r.state.AwaitsData()
    ensures var m := Moved(r, c); var t := MoreResultsSettle(m, StillExecuting, d);
      !m.state.AwaitsData() && t.(asynOn := NullProc) == m && (t.asynOn == NullProc || t.asynOn == MoreResults)
  {
  }

  lemma MoreResultsBusy(t: StmtRec, d: ColsAnswer)
    requires t.asynOn == NullProc && !t.state.AwaitsData()
    ensures BusyMore(t, d) == MoreResultsSettle(t, StillExecuting, d)
  {
  }

  lemma MoreResultsCall(t: StmtRec, a: Answer)
    requires a.present && Ends(MoreResults, a.rc) && !t.state.AwaitsData()
    requires t.asynOn == NullProc || t.asynOn == MoreResults
    ensures Call(MoreResults, None, t, a).after == MoreResultsSettle(t.(asynOn := NullProc), a.rc, a.cols)
  {
  }

  lemma MoreResultsAfter(r: StmtRec, t: StmtRec, c: ColsAnswer, a: Answer)
    requires r.asynOn == NullProc && a.present && Ends(MoreResults, a.rc) && !r.state.AwaitsData()
    requires IsMoved(r, c, t)
    ensures Call(MoreResults, None, t, a).after == Call(MoreResults, None, r, a.(cols := c)).after
            <==> !MovedAway(r, c, a.rc)
  {
    MovedStays(r, c, c);
    MoreResultsCall(t, a);
    MoreResultsCall(r, a.(cols := c));
    SettledOnMoved(r, c, a.rc, a.cols);
  }

  lemma SettledOnMoved(r: StmtRec, c: ColsAnswer, rc: SqlReturn, d: ColsAnswer)
    requires r.asynOn == NullProc && Ends(MoreResults, rc) && !r.state.AwaitsData()
    ensures MoreResultsSettle(Moved(r, c), rc, d) == MoreResultsSettle(r, rc, c) <==> !MovedAway(r, c, rc)
  {
  }
}
