/**
 * The React generator component (frontend/components/DiagramGenerator.tsx):
 * its state cells, the generate handler split at its one await into Submit and
 * Receive, the health probe, the zoom buttons, the clear button, which preview
 * panel is shown, and the guards on the export buttons. Mermaid rendering is an
 * oracle: the caller says whether it succeeded.
 */
module Generator {
  import opened Wrappers
  import opened Text
  import opened Api
  import Zoom

  /** The values of the type <select>, in order. */
  const SelectOptions: seq<string> := ["flowchart", "sequence", "mindmap", "entity-relationship", "class", "state"]

  const BlankMessage := "Please enter a description"
  const FallbackMessage := "Failed to generate diagram. Make sure the backend is running."
  const RenderFailedMessage := "Failed to render diagram"

  datatype ApiStatus = Checking | Online | Offline

  /** The preview area shows exactly one of these. */
  datatype Preview = Spinner | ErrorPanel(message: string) | DiagramPanel(code: string) | EmptyPanel

  /** `err.response?.data?.detail || fallback` for a failed POST. */
  function FailureMessage(outcome: GenerateOutcome): (m: string)
    requires !outcome.Ok?
    ensures m != ""
    ensures m == FallbackMessage || (outcome.HttpErr? && outcome.detail == Some(m))
    ensures outcome.HttpErr? && outcome.detail.Some? && outcome.detail.value != "" ==> m == outcome.detail.value
  {
    match outcome
    case HttpErr(detail) => if detail.Some? && detail.value != "" then detail.value else FallbackMessage
    case NetErr(_) => FallbackMessage
  }

  /** The preview's conditional chain: loading, else error, else diagram, else the empty prompt. */
  function PreviewOf(isLoading: bool, error: string, code: string): (p: Preview)
    ensures p.Spinner? <==> isLoading
    ensures p.ErrorPanel? <==> !isLoading && error != ""
    ensures p.DiagramPanel? <==> !isLoading && error == "" && code != ""
    ensures p.EmptyPanel? <==> !isLoading && error == "" && code == ""
    ensures p.ErrorPanel? ==> p.message == error
    ensures p.DiagramPanel? ==> p.code == code
  {
    if isLoading then Spinner
    else if error != "" then ErrorPanel(error)
    else if code != "" then DiagramPanel(code)
    else EmptyPanel
  }

  /** axios.get resolves only on a 2xx answer. */
  function StatusAfter(h: HealthOutcome): (s: ApiStatus)
    ensures s == Online <==> h == Healthy
    ensures s == Offline <==> h != Healthy
  {
    if h == Healthy then Online else Offline
  }

  /** What renderDiagram leaves in the preview <div>: Mermaid's svg for a code, scaled to a zoom. */
  datatype Drawing = Drawing(code: string, zoom: int)

  /**
   * The preview area's <div> and the render effect's memory. The four panels are
   * one unkeyed <div> that React reuses, so the svg written into it with innerHTML
   * (drawing) stays through every panel switch; diagramRef is attached to it only
   * while the diagram panel is shown. lastCode and lastZoom are the effect's
   * dependencies as of the last commit.
   */
  datatype RenderHost = RenderHost(attached: bool, drawing: Option<Drawing>, lastCode: string, lastZoom: int)

  /** The host after a commit, and whether Mermaid failed during it. */
  datatype CommitResult = CommitResult(host: RenderHost, renderFailed: bool)

  /**
   * Whether a commit calls Mermaid: the effect runs only when [mermaidCode, zoom]
   * differ from the last commit's, and then renders only with code and an attached ref.
   */
  predicate Renders(h: RenderHost, panelShown: bool, code: string, zoom: int)
  {
    (code != h.lastCode || zoom != h.lastZoom) && code != "" && panelShown
  }

  /**
   * One React commit followed by the render effect: the ref follows the panel,
   * the dependencies are recorded, and a render replaces the <div>'s contents:
   * with the new drawing when it succeeds, and with nothing when it fails, since
   * Mermaid removes the earlier element with the id 'mermaid-diagram' (the svg
   * line 50 wrote) before it parses.
   */
  function CommitEffect(h: RenderHost, panelShown: bool, code: string, zoom: int, renderOk: bool): (c: CommitResult)
    ensures c.host.attached == panelShown && c.host.lastCode == code && c.host.lastZoom == zoom
    ensures c.renderFailed <==> Renders(h, panelShown, code, zoom) && !renderOk
    ensures Renders(h, panelShown, code, zoom) && renderOk ==> c.host.drawing == Some(Drawing(code, zoom))
    ensures Renders(h, panelShown, code, zoom) && !renderOk ==> c.host.drawing == None
    ensures c.host.drawing != h.drawing ==> Renders(h, panelShown, code, zoom)
  {
    var runs := Renders(h, panelShown, code, zoom);
    CommitResult(RenderHost(panelShown, if runs then (if renderOk then Some(Drawing(code, zoom)) else None) else h.drawing, code, zoom),
                 runs && !renderOk)
  }

  /**
   * While the spinner, the error or the empty prompt is shown the ref is detached:
   * nothing is drawn and nothing is removed, so the last svg stays in the <div>.
   */
  lemma HiddenPanelKeepsDrawing(h: RenderHost, code: string, zoom: int, renderOk: bool)
    ensures var c := CommitEffect(h, false, code, zoom, renderOk);
      c.host.drawing == h.drawing && !c.renderFailed && !c.host.attached
  {
  }

  /** With its dependencies unchanged the effect does not run, whatever panel is shown. */
  lemma UnchangedDependenciesKeepDrawing(h: RenderHost, panelShown: bool, renderOk: bool)
    ensures var c := CommitEffect(h, panelShown, h.lastCode, h.lastZoom, renderOk);
      c.host.drawing == h.drawing && !c.renderFailed && c.host.attached == panelShown
  {
  }

  /**
   * A drawn diagram, a regeneration (spinner, then the answer) that returns the
   * same code: the effect does not run, and the reused <div> still shows the drawing.
   */
  lemma SameCodeRegeneratedStaysDrawn(code: string, zoom: int)
    requires code != ""
    ensures var start := RenderHost(true, Some(Drawing(code, zoom)), code, zoom);
      var loading := CommitEffect(start, false, code, zoom, false);
      var answered := CommitEffect(loading.host, true, code, zoom, false);
      && !loading.renderFailed && !answered.renderFailed
      && answered.host.attached && answered.host.drawing == Some(Drawing(code, zoom))
  {
  }

  /**
   * A render failure, then a regeneration that returns the same code: the
   * failed render emptied the <div>, and the diagram panel comes back but the
   * effect does not run again, so the panel stays blank, without an error.
   */
  lemma FailedCodeRegeneratedIsNotDrawn(a: string, b: string, zoom: int)
    requires a != "" && b != "" && a != b
    ensures var start := RenderHost(true, Some(Drawing(a, zoom)), a, zoom);
      var failed := CommitEffect(start, true, b, zoom, false);
      var errorShown := CommitEffect(failed.host, false, b, zoom, true);
      var loading := CommitEffect(errorShown.host, false, b, zoom, true);
      var answered := CommitEffect(loading.host, true, b, zoom, true);
      && failed.renderFailed && !answered.renderFailed && answered.host.attached
      && answered.host.drawing == None
  {
  }

  /**
   * A zoom click while the diagram panel is hidden is recorded but not drawn; a
   * regeneration that returns the same code then shows the drawing at the old zoom.
   */
  lemma ZoomWhileHiddenNotApplied(code: string, zoom: int)
    requires code != "" && Zoom.Valid(zoom) && zoom < Zoom.Max
    ensures var start := RenderHost(false, Some(Drawing(code, zoom)), code, zoom);
      var zoomed := CommitEffect(start, false, code, Zoom.In(zoom), true);
      var loading := CommitEffect(zoomed.host, false, code, Zoom.In(zoom), true);
      var answered := CommitEffect(loading.host, true, code, Zoom.In(zoom), true);
      && Zoom.In(zoom) != zoom && answered.host.attached
      && answered.host.drawing == Some(Drawing(code, zoom))
  {
  }

  class DiagramGenerator {
    var text: string
    var diagramType: string
    var mermaidCode: string
    var isLoading: bool
    var error: string
    var apiStatus: ApiStatus
    var zoom: int
    var host: RenderHost

    /**
     * Between events: zoom is on its grid, the host reflects the last commit (the
     * ref is attached exactly while the diagram panel is shown), and a preview
     * that is loading has no error.
     */
    ghost predicate Valid()
      reads this
    {
      && Zoom.Valid(zoom)
      && host.attached == Shown().DiagramPanel?
      && host.lastCode == mermaidCode && host.lastZoom == zoom
      && (isLoading ==> error == "")
    }

    /** The initial useState values, after the first commit. */
    constructor ()
      ensures Valid()
      ensures text == "" && diagramType == "flowchart" && mermaidCode == ""
      ensures !isLoading && error == "" && apiStatus == Checking && zoom == Zoom.Initial
      ensures host == RenderHost(false, None, "", Zoom.Initial)
    {
      text, diagramType, mermaidCode := "", "flowchart", "";
      isLoading, error, apiStatus, zoom := false, "", Checking, Zoom.Initial;
      host := RenderHost(false, None, "", Zoom.Initial);
    }

    /** The panel the preview area renders. */
    function Shown(): Preview
      reads this
    {
      PreviewOf(isLoading, error, mermaidCode)
    }

    /** The <div> holds the drawing of the current code at the current zoom. */
    predicate ShowsCurrent()
      reads this
    {
      host.drawing == Some(Drawing(mermaidCode, zoom))
    }

    /** The textarea's onChange (the preview does not depend on the text). */
    method SetText(t: string)
      modifies this`text
      ensures text == t
    {
      text := t;
    }

    /** The <select>'s onChange. */
    method SetDiagramType(t: string)
      modifies this`diagramType
      ensures diagramType == t
    {
      diagramType := t;
    }

    /** checkAPIStatus once the health GET has settled. */
    method CheckApiStatus(h: HealthOutcome)
      modifies this`apiStatus
      ensures apiStatus == StatusAfter(h)
    {
      apiStatus := StatusAfter(h);
    }

    /**
     * React re-renders after the state changes of an event and runs the render
     * effect; a Mermaid failure sets the error, whose own re-render shows the
     * error panel and detaches the ref without running the effect again.
     */
    method Commit(renderOk: bool)
      requires Zoom.Valid(zoom) && (isLoading ==> error == "")
      modifies this`host, this`error
      ensures Valid()
      ensures var c := CommitEffect(old(host), old(Shown()).DiagramPanel?, mermaidCode, zoom, renderOk);
        && host.drawing == c.host.drawing
        && error == if c.renderFailed then RenderFailedMessage else old(error)
    {
      var c := CommitEffect(host, Shown().DiagramPanel?, mermaidCode, zoom, renderOk);
      host := c.host;
      if c.renderFailed {
        error := RenderFailedMessage;
        host := host.(attached := false);
      }
    }

    /**
     * generateDiagram up to its await: a blank text only sets the error; otherwise
     * the error is cleared, loading starts and the untrimmed text is sent with the
     * current type. The button is disabled while loading. Nothing is drawn.
     */
    method Submit() returns (sent: Option<GenerateBody>)
      requires Valid() && !isLoading
      modifies this`isLoading, this`error, this`host
      ensures Valid()
      ensures sent.None? <==> Strip(JavaScript, text) == ""
      ensures sent.None? ==> error == BlankMessage && !isLoading
      ensures sent.Some? ==> sent.value == GenerateBody(text, diagramType) && isLoading && error == ""
      ensures host.drawing == old(host.drawing)
    {
      if Strip(JavaScript, text) == "" {
        error := BlankMessage;
        sent := None;
      } else {
        isLoading := true;
        error := "";
        sent := Some(GenerateBody(text, diagramType));
      }
      Commit(true);
    }

    /**
     * generateDiagram after its await: the code, or the failure message, and the
     * end of loading, in one commit. New code is drawn, or its failed render
     * empties the <div>; code equal to the old code is not drawn again, and the
     * <div> keeps what it held.
     */
    method Receive(outcome: GenerateOutcome, renderOk: bool)
      requires Valid() && isLoading
      modifies this`mermaidCode, this`error, this`isLoading, this`host
      ensures Valid() && !isLoading
      ensures outcome.Ok? ==> mermaidCode == outcome.code
      ensures !outcome.Ok? ==>
        && mermaidCode == old(mermaidCode) && Shown() == ErrorPanel(FailureMessage(outcome))
        && host.drawing == old(host.drawing)
      ensures outcome.Ok? && outcome.code != "" && outcome.code != old(mermaidCode) && renderOk ==>
        Shown() == DiagramPanel(outcome.code) && ShowsCurrent()
      ensures outcome.Ok? && outcome.code != "" && outcome.code != old(mermaidCode) && !renderOk ==>
        Shown() == ErrorPanel(RenderFailedMessage) && host.drawing == None
      ensures outcome.Ok? && (outcome.code == "" || outcome.code == old(mermaidCode)) ==>
        Shown() == PreviewOf(false, "", outcome.code) && host.drawing == old(host.drawing)
    {
      match outcome {
        case Ok(code) => mermaidCode := code;
        case HttpErr(_) => error := FailureMessage(outcome);
        case NetErr(_) => error := FailureMessage(outcome);
      }
      isLoading := false;
      Commit(renderOk);
    }

    /**
     * The zoom-in button; the changed zoom re-runs the effect, which redraws only
     * when the diagram panel is shown.
     */
    method ZoomIn(renderOk: bool)
      requires Valid()
      modifies this`zoom, this`host, this`error
      ensures Valid() && zoom == Zoom.In(old(zoom)) && mermaidCode == old(mermaidCode)
      ensures old(Shown()).DiagramPanel? && zoom != old(zoom) && renderOk ==> Shown() == old(Shown()) && ShowsCurrent()
      ensures old(Shown()).DiagramPanel? && zoom != old(zoom) && !renderOk ==> Shown() == ErrorPanel(RenderFailedMessage) && host.drawing == None
      ensures !old(Shown()).DiagramPanel? || zoom == old(zoom) ==> Shown() == old(Shown()) && host.drawing == old(host.drawing)
    {
      zoom := Zoom.In(zoom);
      Commit(renderOk);
    }

    /** The zoom-out button, like ZoomIn. */
    method ZoomOut(renderOk: bool)
      requires Valid()
      modifies this`zoom, this`host, this`error
      ensures Valid() && zoom == Zoom.Out(old(zoom)) && mermaidCode == old(mermaidCode)
      ensures old(Shown()).DiagramPanel? && zoom != old(zoom) && renderOk ==> Shown() == old(Shown()) && ShowsCurrent()
      ensures old(Shown()).DiagramPanel? && zoom != old(zoom) && !renderOk ==> Shown() == ErrorPanel(RenderFailedMessage) && host.drawing == None
      ensures !old(Shown()).DiagramPanel? || zoom == old(zoom) ==> Shown() == old(Shown()) && host.drawing == old(host.drawing)
    {
      zoom := Zoom.Out(zoom);
      Commit(renderOk);
    }

    /**
     * The clear button empties the text and the code; zoom and error stay as they
     * were, and the svg of the last drawing stays in the <div> under the new panel.
     */
    method Clear()
      requires Valid()
      modifies this`text, this`mermaidCode, this`host, this`error
      ensures Valid() && text == "" && mermaidCode == ""
      ensures zoom == old(zoom) && error == old(error)
      ensures Shown() == PreviewOf(isLoading, error, "") && !Shown().DiagramPanel?
      ensures host.drawing == old(host.drawing)
    {
      text := "";
      mermaidCode := "";
      Commit(true);
    }

    /** copyCode: the button is disabled without code; otherwise the code goes to the clipboard. */
    method CopyCode() returns (copied: Option<string>)
      ensures copied.Some? <==> mermaidCode != ""
      ensures copied.Some? ==> copied.value == mermaidCode
    {
      copied := if mermaidCode != "" then Some(mermaidCode) else None;
    }

    /**
     * downloadPNG: the button is disabled without code, and nothing happens unless
     * the ref is attached and its <div> holds an <svg>.
     */
    method DownloadPng() returns (started: bool)
      ensures started <==> mermaidCode != "" && host.attached && host.drawing.Some?
    {
      started := mermaidCode != "" && host.attached && host.drawing.Some?;
    }
  }

  /**
   * A whole generation from the user's view: after a successful answer with new
   * code the diagram panel shows it drawn; an answer equal to the current code is
   * not drawn again, so it shows as drawn only if it was; a render failure shows
   * the render error over an emptied <div>; a failed request shows the failure message and keeps the code.
   */
  method Generate(g: DiagramGenerator, outcome: GenerateOutcome, renderOk: bool) returns (sent: Option<GenerateBody>)
    requires g.Valid() && !g.isLoading
    modifies g`isLoading, g`error, g`mermaidCode, g`host
    ensures g.Valid() && !g.isLoading
    ensures sent.None? <==> Strip(JavaScript, g.text) == ""
    ensures sent.Some? ==> sent.value == GenerateBody(g.text, g.diagramType)
    ensures sent.None? ==>
      g.Shown() == ErrorPanel(BlankMessage) && g.mermaidCode == old(g.mermaidCode) && g.host.drawing == old(g.host.drawing)
    ensures sent.Some? && outcome.Ok? && outcome.code != "" && renderOk
            && (outcome.code != old(g.mermaidCode) || old(g.ShowsCurrent())) ==>
      g.Shown() == DiagramPanel(outcome.code) && g.ShowsCurrent()
    ensures sent.Some? && outcome.Ok? && outcome.code == old(g.mermaidCode) ==>
      g.Shown() == PreviewOf(false, "", outcome.code) && g.host.drawing == old(g.host.drawing)
    ensures sent.Some? && outcome.Ok? && outcome.code != "" && outcome.code != old(g.mermaidCode) && !renderOk ==>
      g.Shown() == ErrorPanel(RenderFailedMessage) && g.mermaidCode == outcome.code && g.host.drawing == None
    ensures sent.Some? && !outcome.Ok? ==>
      g.Shown() == ErrorPanel(FailureMessage(outcome)) && g.mermaidCode == old(g.mermaidCode)
  {
    sent := g.Submit();
    if sent.Some? {
      g.Receive(outcome, renderOk);
    }
  }

  /** A blank description, the only one that is not sent, is one made of whitespace alone. */
  lemma BlankMeansWhitespace(text: string)
    ensures Strip(JavaScript, text) == "" <==> forall i :: 0 <= i < |text| ==> IsSpace(JavaScript, text[i])
  {
    StripEmptyIff(JavaScript, text);
  }

  /** A backend failure is shown with the backend's own detail: "model timeout" stays "model timeout". */
  lemma BackendDetailShownVerbatim(detail: string)
    requires detail != ""
    ensures FailureMessage(HttpErr(Some(detail))) == detail
    ensures PreviewOf(false, FailureMessage(HttpErr(Some(detail))), "") == ErrorPanel(detail)
  {
  }
}
