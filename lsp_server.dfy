/**
 * The server object of lsp/lsp.go: its initial state, the method dispatcher
 * `LspHandler`, and the log and diagnostics notifications it sends.
 *
 * `Handle` is the dispatcher as a function of the old root path, the server
 * name and the request; the class `Lsp` runs it in place and is proved to
 * agree with it.
 */
module LspServer {
  import opened GoTypes
  import opened Protocol
  import GoQuote

  /**
   * What decoding a request's parameters into `InitializeParams` yields:
   * a decode failure, or the names of the workspace folders, in order.
   */
  datatype Params = DecodeFailure | Decoded(folderNames: seq<string>)

  /** An incoming JSON-RPC message: its method name and its decoded parameters. */
  datatype Request = Request(methodName: string, params: Params)

  /**
   * A value the dispatcher hands to `reply` as its result argument: nil, an
   * error value built by `fmt.Errorf`, an initialize result or a hover.
   */
  datatype ReplyValue =
    | Null
    | ErrorValue(message: string)
    | Initialized(initResult: InitializeResult)
    | Hovered(hover: Hover)

  /** The two arguments of one call `reply(ctx, result, err)`. */
  datatype ReplierCall = ReplierCall(result: ReplyValue, err: Option<string>)

  /**
   * The effect of dispatching one request: the new root path, the one reply
   * call, the notifications sent on the way, and whether the workspace walk
   * is launched.
   */
  datatype Step = Step(rootPath: string, reply: ReplierCall, notes: seq<Notification>, startsWalk: bool)

  const ServerName: string := "lsp-template"
  const ServerVersion: string := "0.0.0"
  const HoverText: string := "hello from lsp-template"
  const CantUnmarshal: string := "cant unmarshal params"
  const NoRootPath: string := "no root path"
  const ShutDown: string := "ShutDown"

  /** The capability fields that the initialize reply fills in; all others are nil. */
  const Advertised: set<Capability> := {
    CompletionProvider, HoverProvider, SignatureHelpProvider, CodeLensProvider,
    DocumentLinkProvider, DocumentOnTypeFormattingProvider, ExecuteCommandProvider, Workspace
  }

  /**
   * The fixed capability descriptor sent in reply to `initialize`: hover is
   * `true`, the other advertised fields point to empty option records, and
   * every other field is nil.
   */
  function TemplateCapabilities(): ServerCapabilities {
    ServerCapabilities(
      Nil,           // TextDocumentSync
      EmptyOptions,  // CompletionProvider
      Flag(true),    // HoverProvider
      EmptyOptions,  // SignatureHelpProvider
      Nil,           // DeclarationProvider
      Nil,           // DefinitionProvider
      Nil,           // TypeDefinitionProvider
      Nil,           // ImplementationProvider
      Nil,           // ReferencesProvider
      Nil,           // DocumentHighlightProvider
      Nil,           // DocumentSymbolProvider
      Nil,           // CodeActionProvider
      EmptyOptions,  // CodeLensProvider
      EmptyOptions,  // DocumentLinkProvider
      Nil,           // ColorProvider
      Nil,           // WorkspaceSymbolProvider
      Nil,           // DocumentFormattingProvider
      Nil,           // DocumentRangeFormattingProvider
      EmptyOptions,  // DocumentOnTypeFormattingProvider
      Nil,           // RenameProvider
      Nil,           // FoldingRangeProvider
      Nil,           // SelectionRangeProvider
      EmptyOptions,  // ExecuteCommandProvider
      Nil,           // CallHierarchyProvider
      Nil,           // LinkedEditingRangeProvider
      Nil,           // SemanticTokensProvider
      EmptyOptions,  // Workspace
      Nil,           // MonikerProvider
      Nil            // Experimental
    )
  }

  /**
   * The descriptor advertises exactly the eight capabilities of `Advertised`:
   * hover as `true`, the other seven as empty option records; every other
   * field is nil, meaning "not supported".
   */
  lemma TemplateCapabilitiesAdvertised()
    ensures forall c: Capability :: ProviderOf(TemplateCapabilities(), c) != Nil <==> c in Advertised
    ensures ProviderOf(TemplateCapabilities(), HoverProvider) == Flag(true)
    ensures forall c :: c in Advertised && c != HoverProvider ==> ProviderOf(TemplateCapabilities(), c) == EmptyOptions
  {
  }

  /** The error text for a method the dispatcher does not know: `method not found: %q`. */
  function MethodNotFound(methodName: string): (message: string)
    ensures |message| > |"method not found: "|
    ensures message[..|"method not found: "|] == "method not found: "
  {
    "method not found: " + GoQuote.Quote(methodName)
  }

  /** Reads the method name back out of a method-not-found error text. */
  function MethodNamedBy(message: string): (methodName: Option<string>)
  {
    var prefix := "method not found: ";
    if |message| >= |prefix| && message[..|prefix|] == prefix then GoQuote.Unquote(message[|prefix|..])
    else None
  }

  /** The method-not-found error names the method: the name can be read back from it. */
  lemma MethodNotFoundNamesMethod(methodName: string)
    ensures MethodNamedBy(MethodNotFound(methodName)) == Some(methodName)
  {
    var prefix := "method not found: ";
    assert MethodNotFound(methodName)[|prefix|..] == GoQuote.Quote(methodName);
    GoQuote.UnquoteQuote(methodName);
  }

  /** The parameters `Log` sends: the message prefixed by the server name, the type passed through. */
  function LogParams(name: string, message: string, messageType: MessageType): (p: LogMessageParams)
    ensures |p.message| == |name| + 2 + |message|
    ensures p.message[..|name|] == name && p.message[|name|..|name| + 2] == ": "
    ensures p.message[|name| + 2..] == message
    ensures p.messageType == messageType
  {
    LogMessageParams(name + ": " + message, messageType)
  }

  /** The parameters `SendDiagnostic` sends: a file URI for the path, version 0, the diagnostics unchanged. */
  function DiagnosticParams(path: string, diagnostics: seq<Diagnostic>): (p: PublishDiagnosticsParams)
    ensures |p.uri| == 7 + |path| && p.uri[..7] == "file://" && p.uri[7..] == path
    ensures p.version == 0
    ensures p.diagnostics == diagnostics
  {
    PublishDiagnosticsParams("file://" + path, 0, diagnostics)
  }

  function LogNotification(p: LogMessageParams): Notification {
    Notification(MethodWindowLogMessage, LogMessage(p))
  }

  function DiagnosticNotification(p: PublishDiagnosticsParams): Notification {
    Notification(MethodTextDocumentPublishDiagnostics, PublishDiagnostics(p))
  }

  /**
   * The dispatcher indexes the first workspace folder without checking that
   * there is one, so a decoded initialize request must name at least one.
   */
  predicate WellFormed(req: Request) {
    req.methodName == MethodInitialize && req.params.Decoded? ==> |req.params.folderNames| > 0
  }

  /** An initialize request whose first workspace folder has a non-empty name. */
  predicate SetsRoot(req: Request)
    requires WellFormed(req)
  {
    req.methodName == MethodInitialize && req.params.Decoded? && req.params.folderNames[0] != ""
  }

  /**
   * `LspHandler` as a function. Only an initialize request with a usable
   * first folder moves the root path, and then to that folder's name; it is
   * also the only request that launches the walk and gets an initialize
   * result. Every path hands `reply` a nil err, and only an undecodable
   * initialize logs.
   */
  function Handle(rootPath: string, name: string, req: Request): (s: Step)
    requires WellFormed(req)
    ensures s.rootPath == if SetsRoot(req) then req.params.folderNames[0] else rootPath
    ensures s.startsWalk <==> SetsRoot(req)
    ensures s.reply.result.Initialized? <==> SetsRoot(req)
    ensures s.reply.err == None
    ensures s.notes != [] <==> req.methodName == MethodInitialize && req.params.DecodeFailure?
  {
    if req.methodName == MethodInitialize then
      match req.params
      case DecodeFailure =>
        Step(rootPath, ReplierCall(ErrorValue(CantUnmarshal), None),
             [LogNotification(LogParams(name, CantUnmarshal, MessageType.Error))], false)
      case Decoded(folders) =>
        var path := folders[0];
        if path != "" then
          var result := InitializeResult(TemplateCapabilities(), ServerInfo(name, ServerVersion));
          Step(path, ReplierCall(Initialized(result), None), [], true)
        else
          Step(rootPath, ReplierCall(ErrorValue(NoRootPath), None), [], false)
    else if req.methodName == MethodTextDocumentHover then
      Step(rootPath, ReplierCall(Hovered(Hover(MarkupContent(Markdown, HoverText), None)), None), [], false)
    else if req.methodName == MethodShutdown then
      Step(rootPath, ReplierCall(ErrorValue(ShutDown), None), [], false)
    else
      Step(rootPath, ReplierCall(ErrorValue(MethodNotFound(req.methodName)), None), [], false)
  }

  /** An undecodable initialize logs and replies "cant unmarshal params", root path unchanged. */
  lemma InitializeDecodeFailure(rootPath: string, name: string)
    ensures var s := Handle(rootPath, name, Request(MethodInitialize, DecodeFailure));
      && s.rootPath == rootPath
      && s.reply == ReplierCall(ErrorValue("cant unmarshal params"), None)
      && s.notes == [Notification("window/logMessage",
                                  LogMessage(LogMessageParams(name + ": cant unmarshal params", MessageType.Error)))]
      && !s.startsWalk
  {
    var logged := LogParams(name, CantUnmarshal, MessageType.Error);
    assert logged.message == name + ": cant unmarshal params";
  }

  /** An initialize whose first folder has an empty name replies "no root path", root path unchanged. */
  lemma InitializeWithoutRootName(rootPath: string, name: string, folders: seq<string>)
    requires |folders| > 0 && folders[0] == ""
    ensures var s := Handle(rootPath, name, Request(MethodInitialize, Decoded(folders)));
      && s.rootPath == rootPath
      && s.reply == ReplierCall(ErrorValue("no root path"), None)
      && s.notes == [] && !s.startsWalk
  {
  }

  /**
   * An initialize whose first folder has a name records that name as the
   * root path and replies with the fixed capabilities and server info.
   */
  lemma InitializeSucceeds(rootPath: string, name: string, folders: seq<string>)
    requires |folders| > 0 && folders[0] != ""
    ensures var s := Handle(rootPath, name, Request(MethodInitialize, Decoded(folders)));
      && s.rootPath == folders[0]
      && s.reply.err == None
      && s.reply.result.Initialized?
      && s.reply.result.initResult.serverInfo == ServerInfo(name, "0.0.0")
      && (forall c: Capability :: ProviderOf(s.reply.result.initResult.capabilities, c) != Nil <==> c in Advertised)
      && ProviderOf(s.reply.result.initResult.capabilities, HoverProvider) == Flag(true)
      && s.notes == [] && s.startsWalk
  {
    TemplateCapabilitiesAdvertised();
  }

  /** A hover request gets the fixed markdown text and no range. */
  lemma HoverReply(rootPath: string, name: string, params: Params)
    ensures var s := Handle(rootPath, name, Request(MethodTextDocumentHover, params));
      && s.rootPath == rootPath
      && s.reply == ReplierCall(Hovered(Hover(MarkupContent(Markdown, "hello from lsp-template"), None)), None)
      && s.notes == []
  {
  }

  /** A shutdown request gets the error value "ShutDown" and changes nothing. */
  lemma ShutdownReply(rootPath: string, name: string, params: Params)
    ensures var s := Handle(rootPath, name, Request(MethodShutdown, params));
      && s.rootPath == rootPath
      && s.reply == ReplierCall(ErrorValue("ShutDown"), None)
      && s.notes == []
  {
  }

  /** Any other method gets an error value from which its name can be read back, and changes nothing. */
  lemma UnknownMethodReply(rootPath: string, name: string, req: Request)
    requires req.methodName !in {MethodInitialize, MethodTextDocumentHover, MethodShutdown}
    ensures var s := Handle(rootPath, name, req);
      && s.rootPath == rootPath
      && s.reply.err == None
      && s.reply.result.ErrorValue?
      && MethodNamedBy(s.reply.result.message) == Some(req.methodName)
      && s.notes == []
  {
    MethodNotFoundNamesMethod(req.methodName);
  }

  /**
   * The request method behind each capability the initialize reply
   * advertises. For `Workspace` it is the notification that the record's
   * workspace-folders option governs.
   */
  function FeatureMethod(c: Capability): Option<string> {
    match c
    case HoverProvider => Some(MethodTextDocumentHover)
    case CompletionProvider => Some("textDocument/completion")
    case SignatureHelpProvider => Some("textDocument/signatureHelp")
    case CodeLensProvider => Some("textDocument/codeLens")
    case DocumentLinkProvider => Some("textDocument/documentLink")
    case DocumentOnTypeFormattingProvider => Some("textDocument/onTypeFormatting")
    case ExecuteCommandProvider => Some("workspace/executeCommand")
    case Workspace => Some("workspace/didChangeWorkspaceFolders")
    case _ => None
  }

  /**
   * Of the advertised capabilities only hover is handled: the method of every
   * other advertised capability falls through to the method-not-found reply.
   */
  lemma AdvertisedButUnhandled(rootPath: string, name: string, c: Capability, params: Params)
    requires FeatureMethod(c).Some? && c != HoverProvider
    ensures c in Advertised && ProviderOf(TemplateCapabilities(), c) == EmptyOptions
    ensures var m := FeatureMethod(c).value;
      Handle(rootPath, name, Request(m, params)).reply == ReplierCall(ErrorValue(MethodNotFound(m)), None)
  {
    TemplateCapabilitiesAdvertised();
  }

  /**
   * The reply callback of one request. It records the calls made to it and
   * returns `status`, what the connection reports for sending the response.
   */
  class Replier {
    var calls: seq<ReplierCall>
    var status: Option<string>

    constructor (status: Option<string>)
      ensures calls == [] && this.status == status
    {
      calls := [];
      this.status := status;
    }

    method Reply(call: ReplierCall) returns (err: Option<string>)
      modifies this
      ensures calls == old(calls) + [call]
      ensures status == old(status)
      ensures err == status
    {
      calls := calls + [call];
      err := status;
    }
  }

  /** The client connection, recording the notifications sent on it. */
  class Conn {
    var sent: seq<Notification>

    constructor ()
      ensures sent == []
    {
      sent := [];
    }

    method Notify(note: Notification)
      modifies this
      ensures sent == old(sent) + [note]
    {
      sent := sent + [note];
    }
  }

  /** The server object `Lsp`. */
  class Lsp {
    var rootPath: string
    var rootConn: Conn?
    var name: string
    /** How many workspace walks have been launched. */
    ghost var walksStarted: nat

    /** `DefaultLsp`: no root path yet, the template's name, no connection. */
    constructor Default()
      ensures rootPath == "" && name == "lsp-template" && rootConn == null && walksStarted == 0
    {
      rootPath := "";
      name := ServerName;
      rootConn := null;
      walksStarted := 0;
    }

    /** `Log`: sends `window/logMessage` with the message prefixed by the server name. */
    method Log(message: string, messageType: MessageType)
      requires rootConn != null
      modifies rootConn
      ensures rootConn.sent == old(rootConn.sent) + [LogNotification(LogParams(name, message, messageType))]
    {
      rootConn.Notify(LogNotification(LogParams(name, message, messageType)));
    }

    /** `SendDiagnostic`: publishes the diagnostics of the file at `path`. */
    method SendDiagnostic(path: string, diagnostics: seq<Diagnostic>)
      requires rootConn != null
      modifies rootConn
      ensures rootConn.sent == old(rootConn.sent) + [DiagnosticNotification(DiagnosticParams(path, diagnostics))]
    {
      rootConn.Notify(DiagnosticNotification(DiagnosticParams(path, diagnostics)));
    }

    /**
     * `LspHandler`: routes on the method name, calls `replier` exactly once
     * and returns what that call returns. The new root path, the reply and
     * the notifications are those of `Handle`.
     */
    method LspHandler(replier: Replier, req: Request) returns (err: Option<string>)
      requires WellFormed(req)
      requires req.methodName == MethodInitialize && req.params.DecodeFailure? ==> rootConn != null
      modifies this, replier, rootConn
      ensures name == old(name) && rootConn == old(rootConn)
      ensures var s := Handle(old(rootPath), old(name), req);
        && rootPath == s.rootPath
        && replier.calls == old(replier.calls) + [s.reply]
        && (rootConn != null ==> rootConn.sent == old(rootConn.sent) + s.notes)
        && walksStarted == old(walksStarted) + (if s.startsWalk then 1 else 0)
      ensures replier.status == old(replier.status)
      ensures err == old(replier.status)
    {
      if req.methodName == MethodInitialize {
        match req.params {
          case DecodeFailure =>
            Log(CantUnmarshal, MessageType.Error);
            err := replier.Reply(ReplierCall(ErrorValue(CantUnmarshal), None));
          case Decoded(folders) =>
            var path := folders[0];
            if path != "" {
              rootPath := path;
              walksStarted := walksStarted + 1;
              var result := InitializeResult(TemplateCapabilities(), ServerInfo(name, ServerVersion));
              err := replier.Reply(ReplierCall(Initialized(result), None));
            } else {
              err := replier.Reply(ReplierCall(ErrorValue(NoRootPath), None));
            }
        }
      } else if req.methodName == MethodTextDocumentHover {
        var hover := Hover(MarkupContent(Markdown, HoverText), None);
        err := replier.Reply(ReplierCall(Hovered(hover), None));
      } else if req.methodName == MethodShutdown {
        err := replier.Reply(ReplierCall(ErrorValue(ShutDown), None));
      } else {
        err := replier.Reply(ReplierCall(ErrorValue(MethodNotFound(req.methodName)), None));
      }
    }
  }
}
