/**
 * The records of the Language Server Protocol that package lsp builds or
 * receives, reduced to the fields it touches, and the method names it uses.
 */
module Protocol {
  import opened GoTypes

  const MethodInitialize: string := "initialize"
  const MethodTextDocumentHover: string := "textDocument/hover"
  const MethodShutdown: string := "shutdown"
  const MethodWindowLogMessage: string := "window/logMessage"
  const MethodTextDocumentPublishDiagnostics: string := "textDocument/publishDiagnostics"

  /** Severity of a `window/logMessage` notification. */
  datatype MessageType = Error | Warning | Info | Log

  datatype LogMessageParams = LogMessageParams(message: string, messageType: MessageType)

  /** A position in a text document: a zero-based line and character offset. */
  datatype Position = Position(line: uint32, character: uint32)

  datatype Range = Range(start: Position, end: Position)

  /** A diagnostic; the package only passes these through. */
  datatype Diagnostic = Diagnostic(range: Range, message: string)

  datatype PublishDiagnosticsParams = PublishDiagnosticsParams(uri: string, version: uint32, diagnostics: seq<Diagnostic>)

  datatype MarkupKind = PlainText | Markdown

  datatype MarkupContent = MarkupContent(kind: MarkupKind, value: string)

  datatype Hover = Hover(contents: MarkupContent, range: Option<Range>)

  /** The fields of `ServerCapabilities`, one per optional feature. */
  datatype Capability =
    | TextDocumentSync
    | CompletionProvider
    | HoverProvider
    | SignatureHelpProvider
    | DeclarationProvider
    | DefinitionProvider
    | TypeDefinitionProvider
    | ImplementationProvider
    | ReferencesProvider
    | DocumentHighlightProvider
    | DocumentSymbolProvider
    | CodeActionProvider
    | CodeLensProvider
    | DocumentLinkProvider
    | ColorProvider
    | WorkspaceSymbolProvider
    | DocumentFormattingProvider
    | DocumentRangeFormattingProvider
    | DocumentOnTypeFormattingProvider
    | RenameProvider
    | FoldingRangeProvider
    | SelectionRangeProvider
    | ExecuteCommandProvider
    | CallHierarchyProvider
    | LinkedEditingRangeProvider
    | SemanticTokensProvider
    | Workspace
    | MonikerProvider
    | Experimental

  /**
   * The value of one capability field: nil (not supported), a boolean, or a
   * pointer to an options record with every field left at its zero value.
   */
  datatype Provider = Nil | Flag(enabled: bool) | EmptyOptions

  /** `ServerCapabilities`: a value for every capability field. */
  datatype ServerCapabilities = ServerCapabilities(
    textDocumentSync: Provider,
    completionProvider: Provider,
    hoverProvider: Provider,
    signatureHelpProvider: Provider,
    declarationProvider: Provider,
    definitionProvider: Provider,
    typeDefinitionProvider: Provider,
    implementationProvider: Provider,
    referencesProvider: Provider,
    documentHighlightProvider: Provider,
    documentSymbolProvider: Provider,
    codeActionProvider: Provider,
    codeLensProvider: Provider,
    documentLinkProvider: Provider,
    colorProvider: Provider,
    workspaceSymbolProvider: Provider,
    documentFormattingProvider: Provider,
    documentRangeFormattingProvider: Provider,
    documentOnTypeFormattingProvider: Provider,
    renameProvider: Provider,
    foldingRangeProvider: Provider,
    selectionRangeProvider: Provider,
    executeCommandProvider: Provider,
    callHierarchyProvider: Provider,
    linkedEditingRangeProvider: Provider,
    semanticTokensProvider: Provider,
    workspace: Provider,
    monikerProvider: Provider,
    experimental: Provider
  )

  /** The value of capability field `c` in `caps`. */
  function ProviderOf(caps: ServerCapabilities, c: Capability): Provider {
    match c
    case TextDocumentSync => caps.textDocumentSync
    case CompletionProvider => caps.completionProvider
    case HoverProvider => caps.hoverProvider
    case SignatureHelpProvider => caps.signatureHelpProvider
    case DeclarationProvider => caps.declarationProvider
    case DefinitionProvider => caps.definitionProvider
    case TypeDefinitionProvider => caps.typeDefinitionProvider
    case ImplementationProvider => caps.implementationProvider
    case ReferencesProvider => caps.referencesProvider
    case DocumentHighlightProvider => caps.documentHighlightProvider
    case DocumentSymbolProvider => caps.documentSymbolProvider
    case CodeActionProvider => caps.codeActionProvider
    case CodeLensProvider => caps.codeLensProvider
    case DocumentLinkProvider => caps.documentLinkProvider
    case ColorProvider => caps.colorProvider
    case WorkspaceSymbolProvider => caps.workspaceSymbolProvider
    case DocumentFormattingProvider => caps.documentFormattingProvider
    case DocumentRangeFormattingProvider => caps.documentRangeFormattingProvider
    case DocumentOnTypeFormattingProvider => caps.documentOnTypeFormattingProvider
    case RenameProvider => caps.renameProvider
    case FoldingRangeProvider => caps.foldingRangeProvider
    case SelectionRangeProvider => caps.selectionRangeProvider
    case ExecuteCommandProvider => caps.executeCommandProvider
    case CallHierarchyProvider => caps.callHierarchyProvider
    case LinkedEditingRangeProvider => caps.linkedEditingRangeProvider
    case SemanticTokensProvider => caps.semanticTokensProvider
    case Workspace => caps.workspace
    case MonikerProvider => caps.monikerProvider
    case Experimental => caps.experimental
  }

  datatype ServerInfo = ServerInfo(name: string, version: string)

  datatype InitializeResult = InitializeResult(capabilities: ServerCapabilities, serverInfo: ServerInfo)

  datatype NotificationParams =
    | LogMessage(log: LogMessageParams)
    | PublishDiagnostics(diagnostics: PublishDiagnosticsParams)

  /** A server-to-client notification: a method name and its parameters. */
  datatype Notification = Notification(methodName: string, params: NotificationParams)
}
