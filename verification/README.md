# iODBC driver manager: a verified model

iODBC sits between an application and a loaded driver. It keeps records about handles and decides which calls may
reach the driver, whose answers it cannot foresee. This project models that bookkeeping and proves what it keeps over every
driver answer, every sequence of calls and, where threads matter, every interleaving.

| files | what they model |
|---|---|
| `StatementSpec`, `StatementTables`, `Handles` | the statement record and every entry point that moves it; the same read off by state and by field; statement lists, disconnecting, transaction ends |
| `Polling`, `StatementRuns`, `RowRuns`, `DataAtExecution` | asynchronous polling against one call; plans and rows over whole runs; data-at-execution dialogues |
| `PoolSpec`, `PoolInv`, `PoolLookup`, `PoolRuns`, `PoolCalls`, `PoolAttrs`, `Manager`, `EnvUnlink` | connections, driver environments and the connection pool |
| `Loader` | the list of loaded libraries and the table of entry points |
| `ConnString`, `ConfigText`, `ConfigPrint`, `Splitter`, `FileDsn` | connection strings: parser, printer, the two splitters, the merge with a file data source |
| `Diagnostics` | the diagnostic records of a handle |
| `CallGate` | entering and leaving a call, the global lock and the lock of a driver |
| `Options` | connection options set before connecting |

Each entry point is a method on a class with the record's own fields. Its contract equates the new record, the return code and
the posted SQLSTATEs with a specification function, and the lemmas are about that function. What the functions say is also
stated a second time, in another order and without them: `StatementTables` goes by state and by field where `StatementSpec`
goes by call, `PoolCalls` spells records out, and the lemmas in codes, numbers and positions name what the functions only
imply. The driver is an argument: the code that it answers, whether it has the function at all, and what it would answer should
the driver manager ask for the number of columns on the way.

## Where the code does something else than one expects

The code is kept as it is, and the exact condition is proved.

- A polled `SQLPrepare` that succeeds never records it (`iodbc/iodbc/prepare.c:193-207`): `Polling.PolledPrepare`.
- A polled `SQLMoreResults` can end elsewhere than an immediate one, as its first call has already moved the statement
  (`iodbc/iodbc/fetch.c:674-738`): `Polling.PolledMoreResults`.
- `SQLNumParams` and `SQLDescribeParam` never clear a pending call of their own (`iodbc/iodbc/execute.c:799-811`, `903-915`),
  and `SQLDescribeCol`, which no gate keeps out (`iodbc/iodbc/result.c:652-675`), can take the place of any pending call and
  so make it forgotten: `StatementRuns.PendingEndsIff`, `ParameterInfoStaysPending`, `DescribeColForgetsPending`.
- `SQLMoreResults` on an allocated statement makes it prepared without a plan (`iodbc/iodbc/fetch.c:674-685`); it is the only
  step that does: `StatementRuns.PlanInvStep`, and `MoreResultsConjuresPlan` for a run.
- A deleting transaction leaves a plan to a statement that is only allocated, and to no other:
  `StatementRuns.PlanSurvivesDeletionIff`, and `DeletedPlanSurvives` for a run that executes it again.
- `SQLParamData` answered with success too early, or a cancelled `SQLPutData` completing, and nothing else, leaves a statement
  that waits for data from which no call leads out: `DataAtExecution.DataInvStep`, `StrandedForever`.
- A positioning call that was pending when the statement was cancelled can still put it, now without a row, into a dialogue;
  besides fetching it is the only way onto a row: `RowRuns.RowCallsNeedFetch`, and `OvertakenRegains` for a run.
- A dialogue begun by `SQLExecDirect` does not record its plan: `DataAtExecution.DirectDialogueForgetsPlan`.
- What a call does on leaving, a caller that was turned away does too: the label is in front of it
  (`iodbc/iodbc/hstmt.h:187-193`, `iodbc/iodbc/hdbc.h:174-181`). So `SQLFreeStmt(SQL_DROP)`, `SQLFreeHandle` and `SQLFreeConnect` free a handle under
  the thread that is in a call on it: `CallGate.OthersOnlyPostErrorsIff`, `RejectedDropFrees`.
- A refused free releases the record all the same: `SQLFreeStmt(SQL_DROP)` (`iodbc/iodbc/hstmt.c:633-640`), `SQLFreeConnect` of a
  connected connection (`iodbc/iodbc/hdbc.c:310-318`) and `SQLFreeEnv` of an environment with connections
  (`iodbc/iodbc/henv.c:243-266`): `PoolRuns.FreeConnectGoodIff`, `FreeEnvGoodIff`.
- Dropping a pool entry whose driver refuses to disconnect leaves the driver counted once too often
  (`iodbc/iodbc/connect.c:459-477`), and a pooled lookup for a connection that has a driver attached loses that driver's handle:
  `PoolInv.PoolDropGoodIffDisconnects`, `TakeGoodIffUnattached`, `PoolRuns.ScanGood`.
- A connection from the pool claims the attributes that were asked for even where its driver refused them
  (`iodbc/iodbc/connect.c:605-655`): `PoolAttrs.TakenDriverAgreesIff`, `TakenFromTrueEntryIff`.
- The walk over driver environments advances by the wrong successor (`iodbc/iodbc/connect.c:1448-1449`): `EnvUnlink.WalkArrives`.
- The administrator's splitter and the parser disagree exactly on strings with a semicolon whose nearest braces do not match,
  as with nested braces: `Splitter.SplittersAgreeIff`, `MembersAreTokensIff`.
- A merge whose string does not fit, though the entries without the driver do, loses the driver
  (`iodbc/iodbc/connect.c:1722-1731`): `FileDsn.OdbcSection.MergeFileDsn`, `DriverCanBeLost`.
- An option at the driver manager's default is not sent even if the application set it, `SQL_ODBC_CURSORS` never is, the driver's
  own options are skipped when it rejects the login timeout, and are not stored while a driver is loaded, as after a failed
  attempt to connect or after disconnecting (`iodbc/iodbc/hdbc.c:372-373`): `Options.DelayedIsImmediateIff`, `AttachedForgets`.
- A connection whose driver rejected the login timeout, and so got none of the driver's own options, is not reported as
  anything less than connected (`iodbc/iodbc/connect.c:2061-2069`): `Options.Connection.Connect`.
- `SQLError` counts the driver's records in a signed short: `Diagnostics.BothContinueWithDriver`.

In two places the model follows the evident intent and not the text: the lookup does not advance its previous entry onto one it has
just dropped (`iodbc/iodbc/connect.c:785-786`), and in `PoolSpec` a driver environment is found wherever it is in its list
(`iodbc/iodbc/connect.c:1448-1449`).

## Model

| member | source | states |
|---|---|---|
| Handles.Statement.SqlPrepare | iodbc/iodbc/prepare.c:97-240 | the gate, the argument checks, what an asynchronous completion forgets and what a failure revokes; the record, code and posts are those of the specification |
| Handles.Statement.SqlSetCursorName | iodbc/iodbc/prepare.c:291-392 | a name is taken only before execution and only on the driver's agreement |
| Handles.Statement.DoCursorOpen | iodbc/iodbc/execute.c:97-119 | an execution has opened a cursor if and only if the driver then reports columns |
| Handles.Statement.SqlExecute | iodbc/iodbc/execute.c:123-272 | when execution is refused, with which SQLSTATE, and every transition for every driver code |
| Handles.Statement.SqlExecDirect | iodbc/iodbc/execute.c:289-437 | the same for direct execution, which also grants or revokes the plan |
| Handles.Statement.SqlPutData | iodbc/iodbc/execute.c:482-590 | data are taken only while awaited or polled; a failure goes back to the caller that asked for them |
| Handles.Statement.SqlParamData | iodbc/iodbc/execute.c:610-734 | the steps between needing, having to put and having put data, and the way back to the asking call |
| Handles.Statement.SqlParameterInfo | iodbc/iodbc/execute.c:751-923 | the two parameter functions are refused on an allocated statement, and no code of theirs clears the flag once they are asynchronous |
| Handles.Statement.NumberOfResultCols | iodbc/iodbc/result.c:474-551 | the internal call for the number of columns may itself stay pending |
| Handles.Statement.SqlColumnInfo | iodbc/iodbc/result.c:614-1194 | the column functions: only one of them is gated, and what an asynchronous answer leaves |
| Handles.Statement.SqlFetch | iodbc/iodbc/fetch.c:96-221 | fetching after an execution "with info" settles the cursor first; the end of data closes it |
| Handles.Statement.SqlScroll | iodbc/iodbc/fetch.c:241-353 | extended fetching, and scrolling where the driver has it, exclude plain fetching |
| Handles.Statement.SqlGetData | iodbc/iodbc/fetch.c:381-572 | column data only from a fetched row |
| Handles.Statement.SqlMoreResults | iodbc/iodbc/fetch.c:607-738 | moving to the next result from every state, an allocated one included |
| Handles.Statement.SqlSetPos | iodbc/iodbc/fetch.c:755-860 | positioning can itself need data, and remembers that it asked |
| Handles.Statement.SqlCatalog | iodbc/iodbc/catalog.c:99-190 | every catalog function opens a cursor or revokes the plan |
| Handles.Statement.SqlCancel | iodbc/iodbc/hstmt.c:1036-1123 | cancelling leads from awaiting data to where the asking call started from |
| Handles.Statement.SqlCloseCursor | iodbc/iodbc/odbc3.c:3559-3638 | closing goes back to prepared or allocated, by whether there is a plan |
| Handles.Statement.SqlFreeStmt | iodbc/iodbc/hstmt.c:502-623 | closing and unbinding are refused while data are awaited or a call is pending |
| StatementTables.GateFollowsTable | iodbc/iodbc/execute.c:131-189 | with nothing pending, which calls each state refuses as out of order and which for its cursor |
| StatementTables.GatePending | iodbc/iodbc/execute.c:163-170 | with a call pending, only that call, SQLCancel and SQLDescribeCol go through |
| StatementTables.RefusedCall | iodbc/iodbc/prepare.c:110-175 | what stops a call before the driver, in which order, what is posted, and that the record stays |
| StatementTables.EndsFollowsTable | iodbc/iodbc/fetch.c:166-185 | which codes end a pending call of which function |
| StatementTables.StateFollowsTable | iodbc/iodbc/execute.c:215-262 | the next state, state by state |
| StatementTables.CursorFollowsTable | iodbc/iodbc/fetch.c:186-218 | which calls open, name, fetch from and close a cursor |
| StatementTables.PlanFollowsTable | iodbc/iodbc/prepare.c:208-233 | which calls make and take a plan |
| StatementTables.NeedFollowsTable | iodbc/iodbc/execute.c:548-731 | who is remembered to have asked for data, and when that is forgotten |
| StatementTables.PendingFollowsTable | iodbc/iodbc/execute.c:201-213 | which calls a state lets stay pending |
| StatementTables.CallFollowsTables | iodbc/iodbc/execute.c:123-272 | code, posts and record of every call that reaches the driver with nothing pending |
| StatementTables.PendingCallFollowsTables | iodbc/iodbc/execute.c:201-262 | the same of a pending call: it stays as it is, or follows the tables as if it had not been pending |
| StatementTables.FetchLooksFirst | iodbc/iodbc/fetch.c:120-165 | SQLFetch looks for a cursor after an execution "with info" |
| StatementTables.OvertakenCall | iodbc/iodbc/fetch.c:822-857 | what a pending call still does that a cancel has overtaken |
| Polling.PollingRefinesInCodes | iodbc/iodbc/fetch.c:166-218 | any number of "still executing" answers and then success, info or error, no data where rows are read, need data where data may be asked for, leave the record of one call with that code |
| Polling.PendingInCodes | iodbc/iodbc/execute.c:799-915 | with any other code, and a parameter function with any code, the call stays pending |
| Polling.PollingRefinesOneCall | iodbc/iodbc/execute.c:201-269 | any number of "still executing" answers and then a code leave the record of one call with that code, exactly when the function lists the code as final or nothing was pending |
| Polling.PolledPrepare | iodbc/iodbc/prepare.c:193-233 | when a polled preparation ends as an immediate one does |
| Polling.PolledMoreResults | iodbc/iodbc/fetch.c:652-738 | whatever is answered about the columns meanwhile: when a polled move to the next result ends as an immediate one does |
| StatementRuns.PlanInvStep | iodbc/iodbc/execute.c:131-262 | being prepared, and data asked for by an execution, imply a plan after exactly those steps that are not a move to the next result on an allocated statement without one |
| StatementRuns.ExecuteReachesDriverOnlyWithPlan | iodbc/iodbc/execute.c:131-189 | on every run, an execution reaches the driver only with a plan that was granted and not revoked since, or after such a move that has not been mended since |
| StatementRuns.MoreResultsConjuresPlan | iodbc/iodbc/fetch.c:674-685 | that exception happens |
| StatementRuns.PlanSurvivesDeletionIff | iodbc/iodbc/hdbc.c:1161-1208 | a deleting transaction leaves an idle statement its plan exactly if the statement is only allocated |
| StatementRuns.DeletedPlanSurvives | iodbc/iodbc/hdbc.c:1161-1208 | and on some run such a plan is executed again |
| StatementRuns.PendingEndsIff | iodbc/iodbc/result.c:652-782 | a pending call stays pending exactly until the driver ends it with one of its own codes or SQLDescribeCol is left executing in its place |
| StatementRuns.ParameterInfoStaysPending | iodbc/iodbc/execute.c:799-811 | a parameter function left executing is pending through every run without SQLDescribeCol |
| StatementRuns.DescribeColForgetsPending | iodbc/iodbc/result.c:652-782 | and SQLDescribeCol makes any pending call forgotten |
| RowRuns.RowCallsNeedFetch | iodbc/iodbc/fetch.c:465-500 | on every run, reading or positioning reaches the driver only on a row: a fetch, or a cancelled positioning that then asked for data, has led there and nothing since has led away |
| RowRuns.OvertakenRegains | iodbc/iodbc/fetch.c:822-857 | that exception happens |
| DataAtExecution.DataInvStep | iodbc/iodbc/execute.c:548-731 | a statement that awaits data remembers who asked, after every step but two driver answers, and those two do break it |
| DataAtExecution.DataInvHolds | iodbc/iodbc/execute.c:548-731 | so on every run without those answers |
| DataAtExecution.CancelLeadsOut | iodbc/iodbc/hstmt.c:1095-1116 | on such runs a successful cancel leads to the state the asking call came from |
| DataAtExecution.StrandedForever | iodbc/iodbc/execute.c:556-731 | once the memory is lost, no calls and no driver lead out |
| DataAtExecution.LosingStrands | iodbc/iodbc/execute.c:693-727 | each of the two answers loses it at once |
| DataAtExecution.ExecuteDialogueIsExecute | iodbc/iodbc/execute.c:220-235 | a dialogue of any length, the execution and every part of the data polled or not, amounts to an execution that succeeds at once |
| DataAtExecution.DirectDialogueForgetsPlan | iodbc/iodbc/execute.c:402-429 | for direct execution exactly if there was a plan before |
| Handles.Connection.Establish | iodbc/iodbc/connect.c:2102-2142 | connected as soon as the driver is; then its cursor behaviours are taken over, and anything but a plain success of the options shows as information |
| Handles.Connection.AllocStmt | iodbc/iodbc/hstmt.c:110-415 | a new statement is listed first, or nothing changes; which code comes back, and what is left on the connection |
| Handles.Connection.DropStmt | iodbc/iodbc/hstmt.c:434-498 | removes exactly the given statement and keeps the order; one that is not listed is refused |
| Handles.Connection.SqlFreeStmtDrop | iodbc/iodbc/hstmt.c:626-640 | the statement leaves the list whatever the driver says, even if the caller was turned away for a call in progress |
| Handles.Connection.FinishDisconnect | iodbc/iodbc/connect.c:378-421 | the drain loop ends with no statements, or the driver's refusal leaves all |
| Handles.Connection.SqlDisconnect | iodbc/iodbc/connect.c:3379-3428 | refused while a statement is in the middle of something; else all statements go |
| Handles.Connection.Transact | iodbc/iodbc/hdbc.c:1078-1216 | the driver is asked only when all statements are idle, and the list itself is unchanged |
| Handles.TransactionOutcome | iodbc/iodbc/hdbc.c:1110-1213 | when the driver is asked, the code, and the exact record that every statement is left with, by the two cursor behaviours and whether it has a plan |
| Handles.ClosedPlanExecutes | iodbc/iodbc/hdbc.c:1199-1203 | after a closing transaction a plan that was in use can be executed again |
| Handles.OrAllSucceeds | iodbc/iodbc/hdbc.c:1259-1269 | the bitwise or of the codes is a success exactly if each is |
| Handles.Environment.TransactAll | iodbc/iodbc/hdbc.c:1220-1272 | over an environment every connection is visited once, whatever the others answer |
| PoolInv.PoolDropGoodIffDisconnects | iodbc/iodbc/connect.c:454-478 | dropping an idle entry keeps lists, counts and ownership exactly if the driver disconnects |
| PoolInv.TakeGoodIffUnattached | iodbc/iodbc/connect.c:486-516 | taking an entry out keeps them exactly if the connection had no driver |
| PoolInv.PutGood | iodbc/iodbc/connect.c:930-977 | putting a connection back keeps them |
| PoolInv.DriverLoadGood | iodbc/iodbc/connect.c:989-1352 | loading a driver, for the first time or again, keeps them |
| PoolInv.FreedGood | iodbc/iodbc/connect.c:1363-1520 | unloading keeps them: the last user takes the driver environment and its share of the library along |
| PoolLookup.LookupSweeps | iodbc/iodbc/connect.c:772-920 | the entries passed: the expired idle ones go, the others keep their order and every field |
| PoolLookup.LookupTakesFirstUsable | iodbc/iodbc/connect.c:772-920 | a lookup takes the first entry that is idle, unexpired, equal on all keys and compatible, or fails if there is none |
| PoolAttrs.TakenDriverAgreesIff | iodbc/iodbc/connect.c:598-656 | the driver of a connection from the pool holds what was asked for exactly if it accepts each attribute that it does not hold already |
| PoolAttrs.TakenFromTrueEntryIff | iodbc/iodbc/connect.c:598-656 | where the entry's record was true of its driver: exactly if it accepts each attribute in which they differ |
| PoolAttrs.ResetCodePlainIff | iodbc/iodbc/connect.c:899-902 | the connection is handed out with a plain success exactly if every attribute sent got one |
| PoolAttrs.SentIsResent | iodbc/iodbc/connect.c:605-655 | the attributes sent are those that differ, and a qualifier whenever one was asked for |
| PoolCalls.LookupFindsFirstFit | iodbc/iodbc/connect.c:785-906 | the first entry that is idle, unexpired, equal in each of the four keys and fit in its attributes, or nothing exactly if all are unfit |
| PoolCalls.LookupDropsExpired | iodbc/iodbc/connect.c:785-906 | on its way it takes the entries that are idle and have expired, and changes no other record but the one it finds |
| PoolCalls.FoundIsSameUser | iodbc/iodbc/connect.c:812-846 | nobody gets an entry that was made with another data source, user, password or connection string |
| PoolCalls.ConnectFromPool | iodbc/iodbc/connect.c:899-916 | what the connection has from the entry, and what is left of the entry |
| PoolCalls.ConnectAnew | iodbc/iodbc/connect.c:1940-1992 | otherwise: the driver, the state and which keys are saved |
| PoolCalls.LoadedDriver | iodbc/iodbc/connect.c:1122-1173 | the environment's driver on that library if there is one, else a new one |
| PoolCalls.DisconnectToPool | iodbc/iodbc/connect.c:930-977 | both records after a connection has gone back to the pool, and when the entry expires |
| PoolCalls.DisconnectOutside | iodbc/iodbc/connect.c:3411-3428 | any other connection keeps its driver and leaves the pool alone |
| PoolCalls.NewConnection | iodbc/iodbc/hdbc.c:180-229 | the fields of a new connection |
| PoolCalls.NewEnvironment | iodbc/iodbc/henv.c:137-173 | a new environment has empty lists and takes the pooling setting over |
| PoolCalls.FreedConnection | iodbc/iodbc/hdbc.c:264-318 | freeing a connection takes its driver along if nobody else uses it, and leaves every other record alone |
| PoolCalls.FreedEnvironment | iodbc/iodbc/henv.c:210-266 | exactly the records and drivers of the other environments are left, unchanged |
| PoolCalls.EnvironmentRefused | iodbc/iodbc/henv.c:210-266 | an environment with connections loses its own record and lists, and nothing is unloaded |
| PoolCalls.LibraryOpened | iodbc/iodbc/dlproc.c:129-178 | counts and marks of a library after opening |
| PoolCalls.LibraryClosed | iodbc/iodbc/dlproc.c:189-230 | a library leaves memory exactly when its last user gives it up and it is safe to unload |
| PoolCalls.LibraryNotLoaded | iodbc/iodbc/dlproc.c:189-268 | a library that is not in memory is neither closed nor marked |
| PoolAttrs.PooledOrAnew | iodbc/iodbc/connect.c:1524-1579 | a driver that accepts everything holds what was asked for, from the pool or connected to anew |
| PoolLookup.TakenRecordNamesRequested | iodbc/iodbc/connect.c:598-656 | the record names what was asked for in any case |
| PoolLookup.PutUndoesTake | iodbc/iodbc/connect.c:486-516 | putting back restores the entry, its place, its timeout and its driver |
| PoolRuns.ScanGood | iodbc/iodbc/connect.c:772-920 | a whole lookup keeps the store well formed exactly if nothing was found or the connection had no driver |
| PoolRuns.FreeConnectGoodIff | iodbc/iodbc/hdbc.c:264-318 | freeing a connection keeps the store well formed exactly if it is not connected |
| PoolRuns.FreeEnvGoodIff | iodbc/iodbc/henv.c:210-266 | freeing an environment keeps it well formed exactly if it has no connections |
| PoolRuns.OrphanPoolIsIdle | iodbc/iodbc/connect.c:454-462 | without connections no entry of an environment's pool is in use, so the assertion holds |
| PoolRuns.DrainEmpties | iodbc/iodbc/henv.c:220-230 | the drain empties the pool in as many steps as it has entries |
| PoolRuns.DrainedLeavesNothing | iodbc/iodbc/henv.c:210-239 | and leaves no record and no driver behind |
| PoolRuns.ConnectGood | iodbc/iodbc/connect.c:1808-2166 | connecting, from the pool or anew, keeps the store well formed |
| PoolRuns.DisconnectGood | iodbc/iodbc/connect.c:3379-3428 | disconnecting, into the pool or not, keeps it |
| PoolRuns.EveryRunIsGood | iodbc/iodbc/connect.c:1122-1471 | on every run that frees only what may be freed: driver handles have one owner, each driver environment counts its connections, each library its environments, and a pool entry is in use exactly if one connected connection holds it |
| PoolRuns.ClosedLibraryIsUnused | iodbc/iodbc/dlproc.c:189-230 | a library that is not in memory is used by no connection |
| Loader.LibraryList.Open | iodbc/iodbc/dlproc.c:129-178 | counts a library once more, loading it again if it had been unloaded |
| Loader.LibraryList.Close | iodbc/iodbc/dlproc.c:189-230 | unloads at zero, if that is safe |
| Loader.LibraryList.MarkSafe | iodbc/iodbc/dlproc.c:245-268 | marks a loaded library as safe to unload |
| Loader.ProcTable.GetProc | iodbc/iodbc/dlproc.c:102-122 | the table of entry points agrees with a direct lookup for every index |
| Manager.DriverManager.SqlAllocConnect | iodbc/iodbc/hdbc.c:160-234 | a new connection is listed first, without driver and pool entry |
| Manager.DriverManager.SqlFreeConnect | iodbc/iodbc/hdbc.c:264-318 | a connection that is not connected goes and takes its driver reference along; a connected one is refused and released nevertheless |
| Manager.DriverManager.LoadDriver | iodbc/iodbc/connect.c:1090-1312 | reuses the environment's driver on that library or makes a new one, counting both |
| Manager.DriverManager.UnloadAndRelease | iodbc/iodbc/connect.c:1377-1471 | gives up one reference, and the driver and library with the last |
| Manager.DriverManager.DropFromPool | iodbc/iodbc/connect.c:454-478 | one entry leaves the pool; never called on one in use |
| Manager.DriverManager.AttrMatches | iodbc/iodbc/connect.c:523-590 | strict and relaxed matching of attributes |
| Manager.DriverManager.ResetConnAttrs | iodbc/iodbc/connect.c:598-656 | the entry's record takes over what was asked for, its driver is sent what differs, and the code tells whether each answer was a plain success |
| Manager.DriverManager.CopyConn | iodbc/iodbc/connect.c:486-516 | moves the driver handle and leaves none behind |
| Manager.DriverManager.PoolGet | iodbc/iodbc/connect.c:772-920 | the loop of the lookup, its code and what it leaves in the driver |
| Manager.DriverManager.PutBack | iodbc/iodbc/connect.c:930-977 | back to the entry it came from, or as a new first entry |
| Manager.DriverManager.SqlConnect | iodbc/iodbc/connect.c:1808-2166 | looks in the pool first, and loads the driver otherwise; with which code, and which keys are saved |
| Manager.DriverManager.SqlDisconnect | iodbc/iodbc/connect.c:3379-3428 | into the pool if it came from there or pooling is on and has a timeout |
| Manager.DriverManager.DrainPool | iodbc/iodbc/henv.c:220-230 | the drain loop, never meeting an entry in use |
| Manager.DriverManager.SqlFreeEnv | iodbc/iodbc/henv.c:210-266 | drains the pool; with connections it is refused, and released nevertheless |
| EnvUnlink.WalkArrives | iodbc/iodbc/connect.c:1440-1460 | the walk unlinks a driver environment exactly if it is one of the first two |
| ConnString.ReparsingIsStable | iodbc/iodbc/misc.c:106-279 | for every string that closes its braces, parsing, printing and parsing again gives the same entries |
| ConnString.ParseInvertsPrintIff | iodbc/iodbc/misc.c:106-279 | a list is what its text parses to exactly if no key has '=' and no entry is cut |
| ConnString.LeadingNameIsDsn | iodbc/iodbc/misc.c:164-172 | a bare name in front is the data source's |
| ConnString.LaterTokens | iodbc/iodbc/misc.c:150-184 | behind it a token with '=' is a key and its value, and any other says nothing |
| ConnString.JoinedTokens | iodbc/iodbc/misc.c:124-150 | nothing is lost between the tokens but the semicolons |
| ConnString.PlainKeysSurvive | iodbc/iodbc/misc.c:106-279 | in particular with plain keys and whole values |
| ConfigText.FindTokenEnd | iodbc/iodbc/misc.c:124-137 | the nested scanning loops find where the token ends |
| ConfigText.FindEquals | iodbc/iodbc/misc.c:150-156 | the first '=' of a token |
| ConfigText.CutToken | iodbc/iodbc/misc.c:124-173 | cuts one token in place, and nothing else of the buffer |
| ConfigText.Config.ParseString | iodbc/iodbc/misc.c:106-192 | after the loop the stored pointers into the cut copy mean the entries of the string |
| ConfigText.Config.EntryAt | iodbc/iodbc/misc.c:158-184 | what the pointers of one entry say |
| ConfigPrint.StrLcat | iodbc/iodbcinst/misc.c:495-522 | appends what fits, and returns the length the whole would have |
| ConfigPrint.CatEntry | iodbc/iodbc/misc.c:241-271 | one more definition, or failure exactly when the whole no longer fits |
| ConfigPrint.ToString | iodbc/iodbc/misc.c:249-279 | success exactly if the whole text of the section fits, and the buffer holds what fits |
| ConfigPrint.SectionFound | iodbc/iodbc/misc.c:255-277 | what is printed stands between the first heading of that name, in any case, and the next heading |
| ConfigPrint.DefinitionsInOrder | iodbc/iodbc/misc.c:258-272 | definitions in their order, continuation lines not |
| ConfigPrint.ParsedSectionReparses | iodbc/iodbc/misc.c:106-279 | the one section of a parsed string prints to a text that parses to the same entries |
| Splitter.TokenEndsAtFirstCut | iodbc/iodbc/misc.c:124-150 | the parser's token ends at the first semicolon outside braces |
| Splitter.SplittersAgreeIff | iodbc/iodbcadm/drvconn.c:237-245 | the backward scan blanks exactly the semicolons that the parser cuts at, if and only if at every semicolon the nearest brace on the left opens just when the nearest on the right closes |
| Splitter.AlternatingAgrees | iodbc/iodbcadm/drvconn.c:237-245 | in particular where braces alternate |
| Splitter.MembersAreTokensIff | iodbc/iodbcadm/drvconn.c:237-245 | the members of the list are the parser's tokens exactly if the two agree |
| Splitter.NestedBracesDiffer | iodbc/iodbcadm/drvconn.c:237-245 | a string with nested braces on which they differ |
| Splitter.SplitInPlace | iodbc/iodbcadm/drvconn.c:237-245 | the backward loop on its buffer |
| Splitter.JoiningRestoresIff | iodbc/drvproxy/drvconn.c:169-174 | joining restores every semicolon exactly if no member is empty |
| Splitter.RejoinedAt | iodbc/drvproxy/drvconn.c:169-174 | exactly the NULs become semicolons up to which no member is empty |
| Splitter.SplitThenJoin | iodbc/drvproxy/drvconn.c:169-174 | splitting and joining gives the string back exactly if no token is empty |
| Splitter.JoinInPlace | iodbc/drvproxy/drvconn.c:169-174 | the joining loop on its buffer |
| FileDsn.MergedLooks | iodbc/iodbc/connect.c:1657-1751 | what every key of a merge means, and that for a key in both the connection string wins exactly if the file names no driver, an empty one, or the same up to case |
| FileDsn.WrittenInPlace | iodbc/iodbcinst/inifile.c:701-760 | writing changes one value in place or adds one entry at the end |
| Names.SameNameIff | iodbc/iodbcinst/inifile.c:600-636 | names are compared letter by letter without regard to case |
| FileDsn.EmittedMeansMerged | iodbc/iodbc/connect.c:1709-1731 | parsing the emitted string gives that same meaning back |
| FileDsn.OdbcSection.CfgFind | iodbc/iodbcinst/inifile.c:600-636 | the first entry of that name |
| FileDsn.OdbcSection.CfgWrite | iodbc/iodbcinst/inifile.c:652-821 | updates, appends or deletes one entry |
| FileDsn.OdbcSection.MergeFileDsn | iodbc/iodbc/connect.c:1657-1751 | the merge in place; success exactly if the file can be read and the emitted string fits, and when the driver is put back |
| FileDsn.DriverCanBeLost | iodbc/iodbc/connect.c:1722-1731 | with a buffer of eight it is not |
| Diagnostics.PushesKeepFirstAndLast | iodbc/iodbc/herr.c:135-170 | after any pushes onto an empty stack: the first 64, the last of them overwritten by the latest |
| Diagnostics.DrainReversesDiagRecs | iodbc/iodbc/herr.c:572-589 | draining with SQLError is the exact reverse of the numbered reads, which give the oldest first |
| Diagnostics.BothContinueWithDriver | iodbc/iodbc/herr.c:423-435 | both go on with the driver's records 1, 2 and so on, SQLError until its counter wraps |
| Diagnostics.DiagRecAnswers | iodbc/iodbc/herr.c:833-1063 | which numbers SQLGetDiagRec answers how |
| Diagnostics.SqlErrorAnswers | iodbc/iodbc/herr.c:288-592 | how SQLError answers and what it leaves |
| Diagnostics.DriverChoice | iodbc/iodbc/herr.c:416-421 | when the driver is asked by SQLGetDiagRec |
| Diagnostics.Diagnosed.Push | iodbc/iodbc/herr.c:135-170 | every node's index is the number of older nodes, and there are at most 64 |
| Diagnostics.Diagnosed.Pop | iodbc/iodbc/herr.c:103-119 | removes the newest record |
| Diagnostics.Diagnosed.Clear | iodbc/iodbc/herr.h:218-224 | no records, code and counter as at first |
| Diagnostics.Diagnosed.GetNth | iodbc/iodbc/herr.c:745-751 | the record with that index, counted from the oldest |
| Diagnostics.Diagnosed.SqlError | iodbc/iodbc/herr.c:249-592 | which record is read, from where, and what remains |
| Diagnostics.Diagnosed.SqlGetDiagRec | iodbc/iodbc/herr.c:755-1063 | which record a number selects |
| CallGate.MutualExclusion | iodbc/iodbc/hstmt.h:164-193 | in every state any number of threads can reach, one thread at most is in a call on a handle, and one at most inside a driver that is not safe for threads |
| CallGate.RejectedIffInCall | iodbc/iodbc/hstmt.h:172-177 | a caller is turned away exactly if another thread is in a call on the handle |
| CallGate.OthersOnlyPostErrorsIff | iodbc/iodbc/hstmt.h:164-193 | while a thread is in a call, others leave its place, the flag and the record alone, and the handle too but for one error for each call they attempt, exactly if none of these calls drops the handle |
| CallGate.RejectedDropFrees | iodbc/iodbc/hstmt.c:626-640 | a dropping call that is rejected frees the handle under the thread in a call on it |
| CallGate.UndisturbedEntry | iodbc/iodbc/hstmt.h:164-184 | on its way in a call sets the flag and forgets errors, code and the parameters of the one before |
| CallGate.UndisturbedDriverEntry | iodbc/iodbc/itrace.h:101-108 | the lock of an unsafe driver is taken |
| CallGate.UndisturbedDriverReturn | iodbc/iodbc/itrace.h:108-112 | and given back, the code being kept |
| CallGate.UndisturbedExit | iodbc/iodbc/hdbc.h:174-181 | on its way out it clears the flag, drops the handle if it is to, and leaves the locks free |
| CallGate.TurnedAway | iodbc/iodbc/hstmt.h:168-178 | a rejected caller leaves one error, one without a handle nothing |
| CallGate.NeverStuck | iodbc/iodbc/hdbc.h:152-181 | a thread can move, or the one it waits for, or the one that one waits for |
| CallGate.StepFlagInv | iodbc/iodbc/hdbc.h:152-181 | a flag is set exactly while one thread is between setting and clearing it |
| CallGate.StepDriverInv | iodbc/iodbc/itrace.h:101-112 | the lock of a driver is with the thread inside it |
| Options.DelayedIsImmediateIff | iodbc/iodbc/connect.c:1524-1579 | exactly when options set before connecting leave the driver as if they had been set after |
| Options.DelayedIsImmediateFromDefaults | iodbc/iodbc/connect.c:1331-1346 | in particular from the defaults, with remembered options, and the login timeout not rejected |
| Options.SentOnce | iodbc/iodbc/connect.c:1331-1346 | no option is sent twice |
| Options.SendsLast | iodbc/iodbc/connect.c:1524-1579 | each is sent with its last value, and which are sent at all |
| Options.SentInNumbers | iodbc/iodbc/connect.c:1314-1579 | in the numbers of the interface, which options are sent on connecting |
| Options.ReachesInNumbers | iodbc/iodbc/hdbc.c:376-577 | and which reach a connected driver |
| Options.SendOrder | iodbc/iodbc/connect.c:1314-1346 | the login timeout first, then the driver's own |
| Options.OrderIrrelevant | iodbc/iodbc/hdbc.c:102-137 | the order of the stored options does not matter |
| Options.AttachedForgets | iodbc/iodbc/hdbc.c:372-373 | with a driver left loaded, the driver's own options are remembered only if they were already |
| Options.Connection.DrvOptStore | iodbc/iodbc/hdbc.c:102-137 | updates an option in place or puts it in front |
| Options.Connection.SetAllocated | iodbc/iodbc/hdbc.c:355-698 | setting an option before there is a connection |
| Options.Connection.SetConnected | iodbc/iodbc/hdbc.c:376-640 | setting an option on a connection |
| Options.Connection.SendOwn | iodbc/iodbc/connect.c:1314-1346 | the login timeout, and then the driver's own options unless it is rejected |
| Options.Connection.DbcDelaySet | iodbc/iodbc/connect.c:1524-1606 | the standard options that are not at their defaults; success exactly if every code was one, and a plain one exactly if each was |
| Options.Connection.Connect | iodbc/iodbc/connect.c:1808-2125 | a connection that succeeds has sent exactly what is remembered, and reports anything but plain successes of the later options |

## Left out

- The driver, the dynamic loader, the clock and the liveness probe of a pooled connection are arguments; a pooled connection is alive.
- Dead and waiting pool entries, failing driver allocations, a connection that changes its driver, and library loading failures.
- Statements of a connection that goes into the pool: their drain makes no progress there (`iodbc/iodbc/connect.c:961-962` looks in a list that was already emptied), so pooled connections are modelled without statements.
- Concurrency inside the pool: connecting releases the global lock around the driver's own connect function; `CallGate` has that step, the pool model does not interleave it.
- Calls that touch a handle without its flag, namely `SQLTransact`, `SQLError`, `SQLGetDiagRec` and disconnecting under a statement, are not among the threads of `CallGate`; nor is what a thread does to memory that another has freed.
- ANSI and wide-character conversion, tracing, dialogs, ini files, descriptors, row-wise bound data, `SQLGetInfo` and the switch tables of attributes.
- `SQLFetchScroll` over `SQLExtendedFetch`, and `SQLNumParams` with a null pointer.
- Cursor behaviours other than delete, close and preserve.
- Connection strings with an opening brace that is never closed; keys with quotation marks, or empty, in a merge.
- A single entry of a file data source that cannot be read though the file can, and values of 1023 characters or more.
- A driver that rejects the login timeout also leaves the pool timeout of the connection unset (`iodbc/iodbc/connect.c:1316-1348`); the pool's drivers accept it. A driver without a function to set options is not modelled where options are replayed.
- Message texts of diagnostic records and their truncation; the versions behind a missing connection argument of `SQLError`.
- User name and password of a record that `SQLConnect` frees and leaves dangling when the new ones are null (`iodbc/iodbc/connect.c:1946-1990`); here they become null, as in the wide-character call.
- Memory exhaustion.
- Loader.LibraryList.Open: a library that cannot be loaded.
- Loader.LibraryList.Close: finds a library by its path, the source by its handle; different paths are assumed to give different handles.
- Loader.LibraryList.MarkSafe: by path likewise, as is the search for a driver environment in `PoolSpec.FindEnv`.
- PoolInv.DriverLoadGood: a connection loads only the driver that it has, if it has one; the source re-points an environment that other connections may share (`iodbc/iodbc/connect.c:1105-1111`).
- PoolInv.PutGood: without the drain of statements, which makes no progress.
- PoolLookup.LookupTakesFirstUsable: without dead entries and entries waiting to be retried.
- PoolRuns.ConnectGood: a driver without a connect function, which is unloaded while the record goes on naming it (`iodbc/iodbc/connect.c:2114-2119`).
- Manager.DriverManager.LoadDriver: without a change of driver and without failing allocations.
- Manager.DriverManager.UnloadAndRelease: takes a driver environment out of its list wherever it is; how far the source's walk gets is `EnvUnlink.WalkArrives`.
- Manager.DriverManager.PoolGet: drivers disconnect when told to, as otherwise counts are lost (`PoolInv.PoolDropGoodIffDisconnects`).
- Manager.DriverManager.PutBack: without the drain of statements.
- Manager.DriverManager.SqlDisconnect: of a connection without statements; with statements, and without a pool, it is `Handles.Connection.SqlDisconnect`.
- Handles.Connection.SqlDisconnect: of a connection that does not go into the pool, which is `Manager.DriverManager.SqlDisconnect`.
- FileDsn.OdbcSection.CfgFind: without stripping quotation marks from keys.
- EnvUnlink.WalkArrives: on values, as the loop need not end.
- PoolSpec and `Manager` keep connections, driver environments and pools in a store from addresses to records, which captures sharing and update in place, but not the `next` pointers, which are lists of addresses.
- Connection.hstmt and drvopt are sequences that the methods reassign in place of linked lists.
