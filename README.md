# go-workflows: client result reading and the workflow analyzer

This project models two pieces of the go-workflows library in Dafny and proves properties of them.

**The client.** The client starts workflow instances, signals them and reads their results.
- Starting an instance builds an `ExecutionStarted` event from the converted arguments. It places the event in a new instance with a fresh execution ID and hands it to the backend.
- Signalling builds a `SignalReceived` event and passes it to the backend.
- Reading a result waits for the instance to finish, fetches its history and scans it backwards. The first terminal event the scan meets decides the outcome:
  - a finished event gives its result, or its error message;
  - a canceled event gives the "workflow canceled" sentinel;
  - a terminated event gives the "workflow terminated" sentinel.

  A history with no terminal event yields "workflow finished, but could not find result event". Every error outcome carries the zero value of the result type.

**The analyzer.** The `goworkflows` analysis pass checks code that looks like a workflow.
- A function counts as a workflow when its first parameter's type is written `workflow.Context`.
- It walks each file's syntax tree.
- It does not go into functions that are not workflows.
- For a workflow it checks the signature:
  - there must be at least one result field;
  - there must be no more than two result fields (`(a, b, c error)` is one field);
  - the last result field's type must be written `error`.
- Unless the workflow has more than two result fields, it then reports the variables of the function's scope, if it has one. A variable is reported when its type is a native channel, a `sync.WaitGroup` or a pointer to one. This covers every nested scope.
- At every node it visits, it reports:
  - ranges over maps and channels;
  - `select` and `go` statements;
  - calls of `time.Now` and `time.Sleep`.

**Files.**
- `wrappers.dfy`: the `Option` and `Result` types.
- `history.dfy`: the history events.
- `client.dfy`: the client operations and the properties of the backward scan.
- `goast.dfy`: the syntax nodes, types and scopes the analyzer looks at. The type checker's answers (the type of a range operand, what a package qualifier refers to, a function's scope) are stored in these nodes.
- `analyzer.dfy`: the analyzer.
  - The callback and the traversal are specification functions: `Callback`, `Walk` and `ScopeFindings`.
  - The `Pass` class keeps the accumulated diagnostics in a field. Its methods `Visit`, `Inspect`, `CheckVarsInScope` and `Run` are proved against those functions.
  - Soundness and completeness lemmas relate the traversal to the nodes it visits.

## Model

| member | source | states |
|---|---|---|
| Client.ErrorText | client/client.go:19-172 | definition: each error's text, "context: cause" for a wrapped error (lines 51, 70, 84, 136, 144, 159), the cause alone for a backend error (96), the workflow's own message (154), the sentinels (19-20) and the missing-result text (172); characterised by `SentinelsAreDistinct` |
| Client.SentinelsAreDistinct | client/client.go:19-20 | the canceled and terminated sentinels are distinct errors with distinct texts; a workflow's own error is never one of them and keeps its message as its text |
| Client.WaitTimeout | client/client.go:99-102 | the timeout waited for is never zero: zero means the 20-second default, any other value is kept |
| Client.WaitTimeoutIdempotent | client/client.go:100-102 | corollary of `WaitTimeout`'s contract: normalising a timeout twice is the same as normalising it once |
| Client.StartMessage | client/client.go:49-67 | argument conversion fails exactly when the result is an error, and that error wraps the conversion error; otherwise the message holds the given instance ID and execution ID, the current time, and an ExecutionStarted event with the workflow name and the converted inputs |
| Client.CreateWorkflowInstance | client/client.go:48-74 | a conversion failure is returned as is; otherwise a backend failure on that exact start message becomes "could not create workflow instance", and success returns the new instance |
| Client.SignalEvent | client/client.go:82-94 | conversion fails exactly when the result is an error, which wraps the conversion error; otherwise the event is SignalReceived with the name and the converted argument, stamped with the current time |
| Client.SignalWorkflow | client/client.go:81-97 | a conversion failure comes first; otherwise the result is the backend's own answer for that instance ID and that exact signal event |
| History.IsTerminal | client/client.go:150-168 | definition: the three event kinds the backward scan stops at (finished, canceled, terminated); characterised by `EventOutcome`, `LatestTerminalDecides` and `NoTerminalNoResult` |
| Client.EventOutcome | client/client.go:149-169 | an event decides the outcome exactly when it is finished, canceled or terminated; an error outcome carries the zero value |
| Client.ScanResult | client/client.go:147-172 | the outcome of the backward scan; every error outcome carries the zero value |
| Client.GetWorkflowResult | client/client.go:131-173 | a wait failure becomes "workflow did not finish in time" and a history read failure becomes "could not get workflow history", both with the zero value; otherwise the backward loop returns exactly the scan's outcome |
| Client.LatestTerminalDecides | client/client.go:147-169 | when the most recent terminal event is followed only by non-terminal events, it alone decides the result: workflow error message, decoded result, conversion error, canceled sentinel or terminated sentinel |
| Client.NoTerminalNoResult | client/client.go:147-172 | a history with no terminal event, the empty history included, gives "result event not found" with the zero value |
| Client.EarlierHistoryIgnored | client/client.go:147-170 | once a suffix of the history holds a terminal event, nothing before that suffix can change the result |
| Client.NonTerminalIgnored | client/client.go:150-169 | inserting a non-terminal event anywhere in a history leaves the result unchanged |
| Client.ClientEventsLeaveResultUnchanged | client/client.go:54-60 | appending a start event or a signal event that the client built leaves the result read from the history unchanged |
| GoSyntax.ExprString | analyzer/analyzer.go:45 | definition: the rendering of a result type, agreeing with `types.ExprString` on whether the type is written `error`; characterised by `ExprStringIsError` |
| GoSyntax.ExprStringIsError | analyzer/analyzer.go:44-45 | a result type is rendered as "error" exactly when it is the plain identifier `error`; so a qualified, pointer or parenthesised `error` such as `((error))` is reported |
| Analyzer.IsWorkflow | analyzer/analyzer.go:157-181 | definition: the source's test, a first parameter whose type is a selector on an identifier and whose qualifier, a dot and selector spell `workflow.Context`; characterised by `IsWorkflowIff` |
| Analyzer.IsWorkflowIff | analyzer/analyzer.go:157-181 | a function is a workflow exactly when it has a parameter and the first parameter's type is written as the selector `workflow.Context` |
| Analyzer.WorkflowFindings | analyzer/analyzer.go:35-53 | definition: what the callback reports for a workflow declaration; characterised by `SignatureRule` and `GroupedResultsCountOnce` |
| Analyzer.SignatureRule | analyzer/analyzer.go:35-53 | for a workflow: no result fields gives "doesn't return anything" followed by the variable findings; more than two result fields gives only "returns more than two values"; a last result other than `error` gives "doesn't return `error`" followed by the variable findings; otherwise only the variable findings |
| Analyzer.GroupedResultsCountOnce | analyzer/analyzer.go:36-47 | results are counted per field: `(a, b, c error)` is one `error` result and draws no signature diagnostic |
| Analyzer.RangeFindings | analyzer/analyzer.go:58-74 | a range is reported, once, exactly when its operand's type is known and is a map or a channel, with the matching finding at the statement's position |
| Analyzer.CallFindings | analyzer/analyzer.go:82-109 | a call is reported, once, exactly when it is `pkg.Now` or `pkg.Sleep` with `pkg` naming the imported package "time", with the matching finding at the call's position |
| Analyzer.Callback | analyzer/analyzer.go:23-113 | the traversal skips a node's children exactly when the node is a function that is not a workflow, and then nothing is reported; `select` and `go` each report exactly one diagnostic; a range reports exactly `RangeFindings` and a call exactly `CallFindings`; other nodes report nothing |
| Analyzer.Message | analyzer/analyzer.go:37-149 | definition: the text `Reportf` is given for each finding; characterised by `SignatureMessagesNameWorkflow` |
| Analyzer.SignatureMessagesNameWorkflow | analyzer/analyzer.go:37-46 | each of the three signature messages opens with "workflow `name`", naming the function it is about |
| Analyzer.NamedFindings | analyzer/analyzer.go:141-155 | a named type is reported, once at the variable's position, exactly when it is `WaitGroup` declared in the package "sync" |
| Analyzer.ObjectFindings | analyzer/analyzer.go:122-133 | a variable is reported at most once, exactly when its type is a channel, a `sync.WaitGroup` or a pointer to a `sync.WaitGroup`, at its own position and with the matching finding |
| Analyzer.ObjectsFindings | analyzer/analyzer.go:120-134 | definition: the first loop of `checkVarsInScope`, each object of a scope in order; characterised by `ObjectsFindingsAppend` and `ObjectsFindingsCount` |
| Analyzer.ScopeFindings | analyzer/analyzer.go:119-139 | definition: a scope's own objects, then its child scopes in index order; characterised by `ScopeFindingsFlatten` and `ScopeFindingsCount` |
| Analyzer.ChildrenFindings | analyzer/analyzer.go:136-138 | definition: the second loop of `checkVarsInScope`, the recursive check of each child scope in index order; characterised by `ScopeFindingsFlatten` |
| Analyzer.ObjectsFindingsAppend | analyzer/analyzer.go:120-134 | checking two lists of variables one after the other is checking their concatenation |
| Analyzer.ScopeFindingsFlatten | analyzer/analyzer.go:119-139 | checking a scope and, in order, its child scopes is checking the preorder list of all their variables |
| Analyzer.ChildrenFindingsFlatten | analyzer/analyzer.go:136-138 | checking a list of child scopes in index order is checking the concatenated preorder lists of their variables |
| Analyzer.ObjectsFindingsCount | analyzer/analyzer.go:120-134 | there are as many variable diagnostics as forbidden variables, and each one sits at a forbidden variable's position |
| Analyzer.ScopeFindingsCount | analyzer/analyzer.go:119-139 | a scope tree draws exactly one diagnostic per forbidden variable at any depth |
| Analyzer.Walk | analyzer/analyzer.go:23-114 | definition: the diagnostics of the inspector's preorder walk from one node: the callback's, then the children's when it lets the walk descend; characterised by `VisitedReportsAppear`, `VisitedSource` and `NonWorkflowSilent` |
| Analyzer.WalkAll | analyzer/analyzer.go:23-114 | definition: the walks of a list of nodes, one after the other; characterised by `WalkAllAppend` |
| Analyzer.WalkAllAppend | analyzer/analyzer.go:23-114 | traversing two lists of nodes one after the other is traversing their concatenation |
| Analyzer.CallsOutsideFunctionsChecked | analyzer/analyzer.go:23-28 | the traversal starts at every file, so a `time.Now` call outside any function is reported too |
| Analyzer.NonWorkflowSilent | analyzer/analyzer.go:29-33 | a function that is not a workflow contributes no diagnostic, whatever it contains |
| Analyzer.Visits | analyzer/analyzer.go:23-33 | definition: the nodes the callback is called on from a start node, that node and, when the callback lets the walk descend, the nodes visited from its children; characterised by `NonWorkflowChildrenUnvisited` and `WorkflowChildrenVisited` |
| Analyzer.NonWorkflowChildrenUnvisited | analyzer/analyzer.go:31-33 | starting at a function that is not a workflow, the traversal visits that node and nothing else |
| Analyzer.WorkflowChildrenVisited | analyzer/analyzer.go:55-56 | every child of a workflow is visited |
| Analyzer.VisitedReportsAppear | analyzer/analyzer.go:23-114 | completeness: whatever the callback reports at a visited node appears in the result |
| Analyzer.ForbiddenConstructsReported | analyzer/analyzer.go:58-109 | every visited `select` or `go` statement, range over a map or channel, and `time.Now` or `time.Sleep` call appears in the result with its position |
| Analyzer.VisitedSource | analyzer/analyzer.go:23-114 | soundness: every diagnostic in the result was reported by the callback at some visited node |
| Analyzer.Pass.constructor | analyzer/analyzer.go:20 | a pass starts with no diagnostics |
| Analyzer.Pass.Reportf | analyzer/analyzer.go:37 | reporting appends exactly one diagnostic with the given position and finding |
| Analyzer.Pass.CheckNamed | analyzer/analyzer.go:141-155 | the pass's diagnostics grow by exactly the named-type findings |
| Analyzer.Pass.CheckObject | analyzer/analyzer.go:121-133 | the pass's diagnostics grow by exactly the variable's findings, following the type switch |
| Analyzer.Pass.CheckVarsInScope | analyzer/analyzer.go:119-139 | the two loops append exactly the scope tree's findings: first its own variables in order, then each child scope in turn |
| Analyzer.Pass.Visit | analyzer/analyzer.go:24-113 | the callback appends exactly what `Callback` reports and returns its decision to descend |
| Analyzer.Pass.Inspect | analyzer/analyzer.go:23-114 | inspecting a node appends exactly its traversal's diagnostics |
| Analyzer.Pass.InspectAll | analyzer/analyzer.go:23-114 | inspecting a list of nodes appends exactly their traversals' diagnostics in order |
| Analyzer.Pass.Run | analyzer/analyzer.go:20-117 | the pass's diagnostics after the run are the earlier ones followed by the traversal of every file in order |

## Left out

- WaitForWorkflowInstance: the polling loop, the ticker, the context timeout and the backend state query are timing and I/O. The model keeps only the timeout's normalisation (`WaitTimeout`); the outcome of waiting is a parameter of `GetWorkflowResult`.
- CancelWorkflowInstance: it forwards a cancellation event, stamped with the wall clock, to the backend. It lies outside the part of the client modelled here (starting, signalling and reading the result), so it is left out.
- The default converter, `ArgsToInputs` and `fn.Name` are parameters: the converted inputs or its error, the decoded result or its error, and the workflow name. The same holds for the clock (`now`) and the UUID generator (`executionID`). Creating an instance and delivering a signal are functions from the message to an optional error (`backendCreate`, `backendSignal`). The outcome of waiting (`waitError`) and of the history read (`history`) are plain values passed to `GetWorkflowResult`.
- The context passed to every client call, and the type assertion `c.(*client)` in GetWorkflowResult, are not modelled.
- A history event's type tag and its attributes are one sum type. A finished event whose attributes are of another kind would make the type assertion at client/client.go:152 panic; that situation cannot be expressed here.
- The error texts of `pkg/errors` wrapping are modelled by `ErrorText`, which joins message and cause with ": ". Stack traces are not modelled.
- The go/analysis framework, the inspector, go/ast and go/types are replaced by datatypes. The type checker's answers are stored in the nodes.
- The inspector's exit calls (`push == false`) return at once without reporting anything, so they are left out.
- Analyzer.Pass.CheckVarsInScope: a scope's objects are taken in the order the scope lists them. That `Names()` returns them sorted is not enforced.
- Types are matched as they are, without `Underlying()`, exactly as the source does. A map or channel behind a named type is therefore not reported.
- GoSyntax.ExprString is not Go's full printer. It renders function, interface and struct types with their bodies elided and every array type as `[]T`. `TypeExpr` has no channel directions, index expressions (generic instantiations) or ellipses. The analyzer only asks whether the last result is written `error`, and none of these forms is ever written `error`, so none of them changes a diagnostic.
- The debug output in checkNamed (analyzer/analyzer.go:144) is left out.
- The analyzer's name and documentation string, client/stats.go, and everything outside the client and analyzer (the backends, the worker, workflow execution, samples) are not part of this model.
