# lsp-template-in-go: the dispatcher and point-containment rule of package `lsp`

This project models, in Dafny, the logic of `lsp/lsp.go` from a template for
Language Server Protocol servers written in Go:

- **`isPointInRange`**, the rule that decides whether a tree-sitter point
  `(Row, Column)` lies inside a `[start, end]` range (module `Points`);
- **the server object `Lsp`** with its `RootPath` and `Name` fields, its
  initial state (`DefaultLsp`), and the notification payloads that `Log` and
  `SendDiagnostic` build (module `LspServer`);
- **the method dispatcher `LspHandler`**, which routes on the method name,
  records the workspace root on a successful `initialize`, and calls the reply
  callback exactly once on every path (module `LspServer`);
- the `%q` quoting that names an unknown method in the "method not found"
  error (module `GoQuote`);
- a run of the dispatcher over the messages of one connection, in arrival
  order (module `Session`).

`LspServer.Handle` is the dispatcher as a function of the old root path, the
server name and the request. It returns the new root path, the single reply
call, the notifications sent and whether the workspace walk starts. The class
`LspServer.Lsp` holds the fields the source updates in place. Its method
`LspHandler` works imperatively, branch by branch as the Go code does, and is
proved to agree with `Handle`. The reply callback and the client connection are
objects (`Replier`, `Conn`) that record the calls made on them. The replier
returns a transport status, and the handler returns that status, as the Go
handler returns what `reply` returns.

Where this model follows the code rather than the protocol's intent:

- **Errors travel as results.** Each error path calls `reply(ctx, fmt.Errorf(...), nil)`.
  The error value is passed as the *result* argument and the `err` argument is nil.
  The model records exactly these arguments: `ReplierCall(ErrorValue(msg), None)`.
  So `Handle` ensures `s.reply.err == None` on every path. How the JSON-RPC
  library encodes an error value passed as a result is not part of this model.
- **`shutdown` is answered with the error value "ShutDown"**, as the code does,
  not with a success reply.
- **No lifecycle state machine.** The only state is the root path. Every
  method is answered, notifications included. A feature request before
  `initialize` is served like any other. A second `initialize` is accepted and
  moves the root again.
- **Containment is componentwise.** A point is in range when its row is within
  `[start.Row, end.Row]` and, independently, its column is within
  `[start.Column, end.Column]`. It is not document-order containment, and
  `Points.NotLexicographic` exhibits a point that the two rules disagree on.
  The largest consequence: a range over several rows that ends at a smaller
  column than it starts, such as a block from (0, 10) to (5, 0), contains no
  point at all, not even its own start or end (`Points.MultiLineRangeMissesItsEnds`).
  See "## Findings".
- **The descriptor advertises features the dispatcher does not handle.** The
  initialize reply gives completion, signature help, code lens, document link,
  on-type formatting, execute command and workspace non-nil entries, but only
  hover has a branch. Requests for the other features get the method-not-found
  reply (`LspServer.AdvertisedButUnhandled`).
- **The unknown-method error is a formatted string**, `method not found: "<name>"`,
  not a distinct error kind. `LspServer.MethodNotFoundNamesMethod` shows that
  the method name can be read back from it.
- **An empty workspace-folder list is a precondition.** The code indexes
  `WorkspaceFolders[0]` without a check, so the model requires a decoded
  `initialize` to carry at least one folder (`LspServer.WellFormed`). `Log`
  dereferences `RootConn`, which `DefaultLsp` leaves nil, so `Log`,
  `SendDiagnostic`, and an `initialize` whose parameters do not decode all
  require a connection.

## Model

| member | source | states |
|---|---|---|
| Points.IsPointInRange | lsp/lsp.go:42-47 | a point is in range exactly when it lies between start and end in the componentwise order; every such point also lies between them in document order; a range that contains any point has start componentwise at or below end |
| Points.EndpointsIncluded | lsp/lsp.go:42-47 | both ends are inclusive: the start and the end point each lie in the range exactly when start is at or below end in both coordinates |
| Points.UnorderedRangeIsEmpty | lsp/lsp.go:43-46 | a range that is not componentwise ordered (start row or start column above the end's) contains no point at all |
| Points.InnerRowOuterColumnRejected | lsp/lsp.go:43-46 | a point on a row strictly between the start and end rows, with its column outside the column interval, is between start and end in document order yet is rejected |
| Points.NotLexicographic | lsp/lsp.go:43-46 | there exist a point and a range on which the rule and document-order containment disagree |
| Points.MultiLineRangeMissesItsEnds | lsp/lsp.go:43-46 | a range spanning several rows whose end column is below its start column is ordered in the document yet contains no point, its own ends included |
| Points.BlockMissesItsEnds | lsp/lsp.go:43-46 | the range from (0, 10) to (5, 0) contains neither its start nor its end |
| Points.IsPointInDocumentRange | lsp/lsp.go:42-47 | containment respecting row boundaries is exactly the document-order interval from start to end, and it accepts every point the written rule accepts |
| Points.DocumentRangeIncludesEnds | lsp/lsp.go:42-47 | under row-boundary containment both ends lie in the range exactly when start is at or before end in document order |
| Points.EndBoundaryIncluded | lsp/lsp.go:42-47 | a range over rows 0-2 and columns 0-5 contains its end point (2, 5) |
| GoQuote.Escape | lsp/lsp.go:131 | the escaped body of a quoted string is at least as long as the string and at most twice as long |
| GoQuote.Quote | lsp/lsp.go:131 | a quoted string starts and ends with a double quote |
| GoQuote.UnescapeEscape | lsp/lsp.go:131 | escaping loses nothing: unescaping the escaped body gives back the original string |
| GoQuote.UnquoteQuote | lsp/lsp.go:131 | unquoting a quoted string gives back the original, so distinct method names quote differently |
| LspServer.MethodNotFound | lsp/lsp.go:131 | the unknown-method error text starts with `method not found: ` followed by something |
| LspServer.MethodNotFoundNamesMethod | lsp/lsp.go:131 | the method name can be read back from its method-not-found error text |
| LspServer.TemplateCapabilitiesAdvertised | lsp/lsp.go:75-105 | in the capability descriptor exactly completion, hover, signature help, code lens, document link, on-type formatting, execute command and workspace are non-nil; hover is `true`, the other seven are empty option records |
| LspServer.LogParams | lsp/lsp.go:136-139 | the logged text is the server name, then `: `, then the message, and the message type is passed through |
| LspServer.DiagnosticParams | lsp/lsp.go:143-150 | the URI is `file://` followed by the path, the version is 0, and the diagnostics are passed through unchanged |
| LspServer.Handle | lsp/lsp.go:49-132 | only an initialize with a decodable first folder of non-empty name changes the root path, and sets it to that name; exactly that case starts the walk and gets an initialize result; every reply passes a nil err; exactly an undecodable initialize sends a notification |
| LspServer.InitializeDecodeFailure | lsp/lsp.go:54-59 | an undecodable initialize logs `<name>: cant unmarshal params` with type Error, replies with the error value "cant unmarshal params" and nil err, and keeps the root path |
| LspServer.InitializeWithoutRootName | lsp/lsp.go:60-66 | an initialize whose first folder name is empty replies with the error value "no root path", sends nothing and keeps the root path |
| LspServer.InitializeSucceeds | lsp/lsp.go:60-112 | an initialize whose first folder name is non-empty sets the root path to it, starts the walk and replies with the fixed capabilities and server info `{name, "0.0.0"}` |
| LspServer.HoverReply | lsp/lsp.go:114-121 | a hover request gets Markdown "hello from lsp-template" with no range, and changes nothing |
| LspServer.ShutdownReply | lsp/lsp.go:123-125 | a shutdown request gets the error value "ShutDown", and changes nothing |
| LspServer.UnknownMethodReply | lsp/lsp.go:126-131 | any other method gets an error value naming that method, and changes nothing |
| LspServer.AdvertisedButUnhandled | lsp/lsp.go:77-131 | each advertised capability other than hover is an empty option record in the descriptor, yet a request for its method gets the method-not-found reply |
| LspServer.Lsp.Default | lsp/lsp.go:24-30 | a new server has an empty root path, the name "lsp-template" and no connection |
| LspServer.Lsp.Log | lsp/lsp.go:134-140 | sends exactly one `window/logMessage` notification whose parameters are `LogParams` of the server name, message and type |
| LspServer.Lsp.SendDiagnostic | lsp/lsp.go:142-151 | sends exactly one `textDocument/publishDiagnostics` notification whose parameters are `DiagnosticParams` of the path and diagnostics |
| LspServer.Lsp.LspHandler | lsp/lsp.go:49-132 | calls the replier exactly once, with the reply of `Handle`, and returns the replier's status, which it leaves unchanged; the root path becomes that of `Handle`, the notifications sent are those of `Handle`, the name and connection do not change |
| Session.Serve | lsp/lsp.go:172 | dispatching a sequence of messages in order yields exactly one reply per message and at most one walk per message |
| Session.ServeSnocRoot | lsp/lsp.go:49-132 | the root path after one more message is what the dispatcher makes of the root path left by the earlier ones |
| Session.ServeRootIsLastRoot | lsp/lsp.go:60-66 | after any sequence of messages the root path is the first folder name of the last initialize that set one, or the starting root path if none did |
| Session.ReplyMatchesRequest | lsp/lsp.go:49-132 | the i-th reply is the dispatcher's reply to the i-th message in the state the earlier messages left |
| Session.RetryAfterFailedInitialize | lsp/lsp.go:54-72 | a failed initialize leaves the root path alone, so a following initialize with a named folder still succeeds and sets it |

## Findings

| source | as written | input that shows it | evidently intended | confidence | as-written member | corrected member |
|---|---|---|---|---|---|---|
| lsp/lsp.go:43-46 | the column is checked against [start.Column, end.Column] on every row, so a multi-line range whose end column is below its start column contains no point | the range (0, 10)-(5, 0) with the point (0, 10), its own start | inclusive containment that respects row boundaries: start column bounds only the start row, end column only the end row | medium; not executed | Points.MultiLineRangeMissesItsEnds | Points.IsPointInDocumentRange |

`isPointInRange` has no caller in the package, so nothing else in the model
depends on which rule is chosen; `Points.DocumentRangeIncludesEnds` proves
that the corrected rule includes both ends of every range ordered in the
document.

## Left out

- `lsp/parser.go` (`NewParser`, `ParseBytes`) and the `Parser` field: a thin wrapper over the tree-sitter parser and grammar, which are foreign code.
- `Init` and the `rwc` stdin/stdout adapter: process I/O and the JSON-RPC transport. `Session.Serve` stands for the connection handing each message to the handler in arrival order.
- `WalkFromRoot` and the goroutine that runs it: a concurrent file-system walk whose callback does nothing. The model only counts walks started (`Lsp.walksStarted`, `Run.walks`).
- `json.Unmarshal`: a library decoder. Its outcome for the request's parameters is an input (`Params`: a decode failure, or the workspace folder names).
- `RootConn.Notify` and the replier's transport: `Conn` and `Replier` record what is sent, and the replier's return value is an input (`Replier.status`).
- The JSON encoding of the reply, including how an error value passed as a result is serialised.
- `ctx.Done()` on the empty-root path: it has no effect.
- `Diagnostic` keeps only its range and message. The source passes diagnostics through without looking at them.
- A nil diagnostics pointer given to `SendDiagnostic` (a panic in Go): the model takes the diagnostics as a sequence.
- GoQuote.Escape: escapes only `"` and `\`. Go's `%q` also escapes control characters, non-printable runes and invalid UTF-8, so the model matches it exactly only for method names of printable characters.
- The document tree store, incremental reparse, node lookup and a lifecycle state machine are not part of this code and are not part of this model.
