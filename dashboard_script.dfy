/**
 * The plain-script dashboard (dashboard.js): the closure variables zoomLevel and
 * currentMermaidCode, the input box, the type <select>, the canvas contents, the
 * status line, the export menu, the sidebar items and the user menu. Each event
 * handler is one atomic step; fetch answers and Mermaid's verdict are inputs.
 */
module DashboardScript {
  import opened Wrappers
  import opened Text
  import opened Api
  import Zoom
  import Session

  const BlankMessage := "Please enter a description for your diagram"
  const HttpFallback := "Failed to generate diagram"
  const ThrownFallback := "Failed to generate diagram. Make sure the backend is running."
  const RenderFailedMessage := "Failed to render diagram. The generated code may have errors."
  const PlaceholderFallback := "Describe your diagram here"

  /** What the canvas element holds. Only a drawn diagram contains an <svg>. */
  datatype Canvas = EmptyState | LoadingState | ErrorState(message: string) | DiagramState(code: string)

  /** The status line: "Checking...", "Connected ✓", "Error", or the offline hint. */
  datatype StatusLine = Checking | Connected | ServerError | Offline

  datatype ExportFormat = Png | Svg | MermaidCode

  /** What choosing a way out of the page produces. */
  datatype ExportEffect =
    | PngDownload | NoDiagramAlert | SvgDownload | NothingDone
    | CodeCopied(code: string) | CodePrompted(code: string)

  /** The example text for each sidebar type, in source order. */
  const PlaceholderExamples: seq<(string, string)> := [
    ("flowchart", "User logs in, system validates credentials, if valid show dashboard else show error message"),
    ("sequence", "User sends request to API, API processes request, API queries Database, Database returns data, API sends response to User"),
    ("mindmap", "Project Planning: Requirements (Gather needs, Stakeholder input), Design (Architecture, UI/UX), Development (Frontend, Backend), Testing (Unit tests, Integration), Deployment"),
    ("entity-relationship", "Customer has Orders, Order contains Products, Product belongs to Category"),
    ("class", "User class with name and email properties, methods login and logout. Order class with items and total"),
    ("state", "Idle state, when start event moves to Running, when pause moves to Paused, when stop moves to Stopped")
  ]

  /** `placeholders[type] || 'Describe your diagram here'`. */
  function ExampleFor(diagramType: string): (e: string)
    ensures e != ""
    ensures (exists i :: 0 <= i < |PlaceholderExamples| && PlaceholderExamples[i].0 == diagramType)
            ==> exists i :: 0 <= i < |PlaceholderExamples| && PlaceholderExamples[i] == (diagramType, e)
    ensures (forall i :: 0 <= i < |PlaceholderExamples| ==> PlaceholderExamples[i].0 != diagramType)
            ==> e == PlaceholderFallback
  {
    var found := Lookup(PlaceholderExamples, diagramType);
    if found.Some? && found.value != "" then found.value else PlaceholderFallback
  }

  /** The text updatePlaceholder puts in the input box. */
  function Placeholder(diagramType: string): (p: string)
    ensures "Describe your " + diagramType <= p
    ensures |ExampleFor(diagramType)| <= |p| && p[|p| - |ExampleFor(diagramType)|..] == ExampleFor(diagramType)
  {
    "Describe your " + diagramType + " diagram in plain text...\n\nExample:\n" + ExampleFor(diagramType)
  }

  /** The message of the Error the generate handler catches. */
  function ErrorMessage(outcome: GenerateOutcome): (m: string)
    requires !outcome.Ok?
    ensures m != ""
    ensures outcome.HttpErr? && outcome.detail.Some? && outcome.detail.value != "" ==> m == outcome.detail.value
    ensures outcome.HttpErr? && (outcome.detail.None? || outcome.detail.value == "") ==> m == HttpFallback
    ensures outcome.NetErr? ==> m == if outcome.message != "" then outcome.message else ThrownFallback
  {
    match outcome
    case HttpErr(detail) => if detail.Some? && detail.value != "" then detail.value else HttpFallback
    case NetErr(message) => if message != "" then message else ThrownFallback
  }

  /** The canvas once a sent request has been answered and, on success, rendered. */
  function CanvasAfter(outcome: GenerateOutcome, renderOk: bool): (c: Canvas)
    ensures c.DiagramState? <==> outcome.Ok? && renderOk
    ensures c.DiagramState? ==> c.code == outcome.code
    ensures outcome.Ok? && !renderOk ==> c == ErrorState(RenderFailedMessage)
    ensures !outcome.Ok? ==> c == ErrorState(ErrorMessage(outcome))
  {
    if outcome.Ok? then
      if renderOk then DiagramState(outcome.code) else ErrorState(RenderFailedMessage)
    else ErrorState(ErrorMessage(outcome))
  }

  function StatusAfter(h: HealthOutcome): (s: StatusLine)
    ensures s == Connected <==> h == Healthy
    ensures s == ServerError <==> h == Unhealthy
    ensures s == Offline <==> h == Unreachable
  {
    match h
    case Healthy => Connected
    case Unhealthy => ServerError
    case Unreachable => Offline
  }

  class Dashboard {
    var input: string
    var selectedType: string
    var placeholder: string
    var zoomLevel: int
    var currentMermaidCode: string
    var canvas: Canvas
    /**
     * The text last written to the #apiStatus span. The span belongs to the
     * canvas's empty-state markup (dashboard.js:198), so it is on the page only
     * while canvas == EmptyState; loading, a rendered diagram and an error
     * replace it, and a probe that settles afterwards writes into a detached span.
     */
    var status: StatusLine
    var exportMenus: nat
    var userMenuOpen: bool
    var session: map<string, string>
    var location: Option<string>
    /** The data-type of each sidebar item, in document order. */
    const itemTypes: seq<string>
    /** Whether each sidebar item has the class "active". */
    const itemActive: array<bool>

    ghost predicate Valid()
      reads this
    {
      Zoom.Valid(zoomLevel) && exportMenus <= 1 && itemActive.Length == |itemTypes|
    }

    /**
     * DOMContentLoaded: the closure variables start at 100 and "", a visitor
     * without a session flag is sent to login.html (the script goes on setting up),
     * and the health probe starts.
     */
    constructor (session: map<string, string>, itemTypes: seq<string>, selectedType: string)
      ensures Valid() && fresh(itemActive)
      ensures this.session == session && this.itemTypes == itemTypes && this.selectedType == selectedType
      ensures zoomLevel == Zoom.Initial && currentMermaidCode == "" && canvas == EmptyState
      ensures status == Checking && exportMenus == 0 && !userMenuOpen && input == ""
      ensures location == if Session.Admits(session) then None else Some("login.html")
      ensures forall i :: 0 <= i < itemActive.Length ==> !itemActive[i]
    {
      this.session := session;
      this.itemTypes := itemTypes;
      this.selectedType := selectedType;
      input, placeholder := "", "";
      zoomLevel, currentMermaidCode, canvas := Zoom.Initial, "", EmptyState;
      status, exportMenus, userMenuOpen := Checking, 0, false;
      location := if Session.Admits(session) then None else Some("login.html");
      itemActive := new bool[|itemTypes|](_ => false);
    }

    method SetInput(text: string)
      modifies this`input
      ensures input == text
    {
      input := text;
    }

    /** checkAPIStatus once the health fetch has settled. */
    method CheckApiStatus(h: HealthOutcome)
      modifies this`status
      ensures status == StatusAfter(h)
    {
      status := StatusAfter(h);
    }

    /**
     * The generate button: a blank trimmed input shows an error and sends nothing;
     * otherwise generateDiagram runs with the trimmed text and the selected type.
     */
    method ClickGenerate(outcome: GenerateOutcome, renderOk: bool) returns (sent: Option<GenerateBody>)
      requires Valid()
      modifies this`canvas, this`currentMermaidCode
      ensures Valid()
      ensures sent.None? <==> Strip(JavaScript, input) == ""
      ensures sent.None? ==> canvas == ErrorState(BlankMessage) && currentMermaidCode == old(currentMermaidCode)
      ensures sent.Some? ==> sent.value == GenerateBody(Strip(JavaScript, input), selectedType)
      ensures sent.Some? ==> canvas == CanvasAfter(outcome, renderOk)
      ensures sent.Some? ==> currentMermaidCode == if outcome.Ok? then outcome.code else old(currentMermaidCode)
    {
      var text := Strip(JavaScript, input);
      if text == "" {
        canvas := ErrorState(BlankMessage);
        return None;
      }
      var body := GenerateDiagram(text, selectedType, outcome, renderOk);
      sent := Some(body);
    }

    /**
     * generateDiagram: the canvas shows the spinner, the code is kept as soon as
     * a 2xx answer arrives (before rendering), and the canvas ends in the drawn
     * diagram or an error.
     */
    method GenerateDiagram(text: string, diagramType: string, outcome: GenerateOutcome, renderOk: bool)
      returns (sent: GenerateBody)
      requires Valid()
      modifies this`canvas, this`currentMermaidCode
      ensures Valid()
      ensures sent == GenerateBody(text, diagramType)
      ensures canvas == CanvasAfter(outcome, renderOk)
      ensures currentMermaidCode == if outcome.Ok? then outcome.code else old(currentMermaidCode)
    {
      sent := GenerateBody(text, diagramType);
      canvas := LoadingState;
      match outcome {
        case Ok(code) =>
          currentMermaidCode := code;
          canvas := if renderOk then DiagramState(code) else ErrorState(RenderFailedMessage);
        case HttpErr(_) => canvas := ErrorState(ErrorMessage(outcome));
        case NetErr(_) => canvas := ErrorState(ErrorMessage(outcome));
      }
    }

    method ZoomIn()
      requires Valid()
      modifies this`zoomLevel
      ensures Valid() && zoomLevel == Zoom.In(old(zoomLevel))
    {
      zoomLevel := Zoom.In(zoomLevel);
    }

    method ZoomOut()
      requires Valid()
      modifies this`zoomLevel
      ensures Valid() && zoomLevel == Zoom.Out(old(zoomLevel))
    {
      zoomLevel := Zoom.Out(zoomLevel);
    }

    /**
     * The clear button: when confirmed, the input and the code are emptied, the
     * canvas shows the empty state and the status line is re-checked; the zoom
     * level is kept. When not confirmed nothing changes.
     */
    method ClickClear(confirmed: bool)
      requires Valid()
      modifies this`input, this`currentMermaidCode, this`canvas, this`status
      ensures Valid() && zoomLevel == old(zoomLevel)
      ensures confirmed ==> input == "" && currentMermaidCode == "" && canvas == EmptyState && status == Checking
      ensures !confirmed ==> input == old(input) && currentMermaidCode == old(currentMermaidCode)
                             && canvas == old(canvas) && status == old(status)
    {
      if confirmed {
        input := "";
        currentMermaidCode := "";
        canvas := EmptyState;
        status := Checking;
      }
    }

    /** The download button (and the PNG option): it needs an <svg> on the canvas. */
    method ClickDownload() returns (effect: ExportEffect)
      ensures effect == if canvas.DiagramState? then PngDownload else NoDiagramAlert
    {
      effect := if canvas.DiagramState? then PngDownload else NoDiagramAlert;
    }

    /**
     * The export button: without code it alerts and opens nothing; otherwise the
     * menu already in the page is removed before the new one is appended.
     */
    method ClickExport() returns (alerted: bool)
      requires Valid()
      modifies this`exportMenus
      ensures Valid()
      ensures alerted <==> currentMermaidCode == ""
      ensures alerted ==> exportMenus == old(exportMenus)
      ensures !alerted ==> exportMenus == 1
    {
      if currentMermaidCode == "" {
        return true;
      }
      alerted := false;
      if exportMenus > 0 {
        exportMenus := exportMenus - 1;
      }
      exportMenus := exportMenus + 1;
    }

    /** A click on an option of the open menu: run that export, then remove the menu. */
    method ChooseExport(format: ExportFormat, clipboardOk: bool) returns (effect: ExportEffect)
      requires Valid() && exportMenus == 1
      modifies this`exportMenus
      ensures Valid() && exportMenus == 0
      ensures format == Png ==> effect == if canvas.DiagramState? then PngDownload else NoDiagramAlert
      ensures format == Svg ==> effect == if canvas.DiagramState? then SvgDownload else NothingDone
      ensures format == MermaidCode ==>
        effect == if clipboardOk then CodeCopied(currentMermaidCode) else CodePrompted(currentMermaidCode)
    {
      match format {
        case Png => effect := ClickDownload();
        case Svg => effect := if canvas.DiagramState? then SvgDownload else NothingDone;
        case MermaidCode =>
          effect := if clipboardOk then CodeCopied(currentMermaidCode) else CodePrompted(currentMermaidCode);
      }
      exportMenus := 0;
    }

    /** A click anywhere but the menu and the export button closes the menu. */
    method ClickOutsideMenu()
      requires Valid()
      modifies this`exportMenus
      ensures Valid() && exportMenus == 0
    {
      exportMenus := 0;
    }

    /**
     * A click on sidebar item k: the <select> takes its type, every item loses the
     * class "active", the clicked one gains it, and the placeholder is updated.
     */
    method ClickSidebarItem(k: nat)
      requires Valid() && k < itemActive.Length
      modifies this`selectedType, this`placeholder, itemActive
      ensures Valid()
      ensures selectedType == itemTypes[k] && placeholder == Placeholder(itemTypes[k])
      ensures forall i :: 0 <= i < itemActive.Length ==> itemActive[i] == (i == k)
    {
      selectedType := itemTypes[k];
      var i := 0;
      while i < itemActive.Length
        modifies itemActive
        invariant 0 <= i <= itemActive.Length
        invariant forall j :: 0 <= j < i ==> !itemActive[j]
      {
        itemActive[i] := false;
        i := i + 1;
      }
      itemActive[k] := true;
      placeholder := Placeholder(selectedType);
    }

    /** The avatar click toggles the user menu (the click does not reach the document). */
    method ClickAvatar()
      modifies this`userMenuOpen
      ensures userMenuOpen == !old(userMenuOpen)
    {
      userMenuOpen := !userMenuOpen;
    }

    /** Any other click on the document closes the user menu. */
    method ClickDocument()
      modifies this`userMenuOpen
      ensures !userMenuOpen
    {
      userMenuOpen := false;
    }

    /** The logout link removes only the login flag (not the e-mail) and goes to index.html. */
    method ClickLogout()
      modifies this`session, this`location
      ensures session == old(session) - {Session.LoggedInKey}
      ensures location == Some("index.html")
    {
      session := session - {Session.LoggedInKey};
      location := Some("index.html");
    }
  }

  /** The six example types get their example; any other type gets the fallback. */
  lemma PlaceholderExamplesUsed(diagramType: string)
    ensures diagramType == "flowchart" ==> ExampleFor(diagramType) == PlaceholderExamples[0].1
    ensures diagramType == "state" ==> ExampleFor(diagramType) == PlaceholderExamples[5].1
    ensures (forall i :: 0 <= i < |PlaceholderExamples| ==> PlaceholderExamples[i].0 != diagramType)
            ==> Placeholder(diagramType) == "Describe your " + diagramType + " diagram in plain text...\n\nExample:\n" + PlaceholderFallback
  {
  }

  /**
   * A render failure after a successful answer keeps the code: the canvas shows
   * the render error, yet the export button opens its menu and copying from it
   * gives the code, while the download button finds no diagram and alerts.
   */
  method RenderFailureKeepsCode(d: Dashboard, text: string, diagramType: string, code: string)
    returns (alerted: bool, download: ExportEffect, copied: ExportEffect)
    requires d.Valid() && code != ""
    modifies d`canvas, d`currentMermaidCode, d`exportMenus
    ensures d.Valid()
    ensures d.currentMermaidCode == code && d.canvas == ErrorState(RenderFailedMessage)
    ensures !alerted && download == NoDiagramAlert && copied == CodeCopied(code)
  {
    var sent := d.GenerateDiagram(text, diagramType, Ok(code), false);
    alerted := d.ClickExport();
    download := d.ClickDownload();
    copied := d.ChooseExport(MermaidCode, true);
  }

  /** After logout the script's own guard would send the visitor to login.html. */
  lemma LogoutThenGuardRedirects(session: map<string, string>)
    ensures !Session.Admits(session - {Session.LoggedInKey})
  {
  }
}
