/**
 * How the pieces fit together: the type lists the clients offer against the
 * table the backend accepts, a generation from either client through the
 * backend, and the session's path through login, the dashboard guard and
 * logout.
 */
module Flow {
  import opened Wrappers
  import opened Text
  import Backend
  import opened Api
  import Generator
  import DashboardScript
  import Session
  import Login
  import Signup
  import DashboardPage
  import Header
  import Sidebar

  /** The sidebar's buttons and the generator's <select> list the same six types, in the same order. */
  lemma SidebarMatchesSelect()
    ensures Sidebar.Ids() == Generator.SelectOptions
  {
  }

  /** The placeholder examples of the plain-script dashboard are keyed by those same six types. */
  lemma PlaceholderKeysMatchSidebar()
    ensures |DashboardScript.PlaceholderExamples| == |Sidebar.Ids()|
    ensures forall i :: 0 <= i < |Sidebar.Ids()| ==> DashboardScript.PlaceholderExamples[i].0 == Sidebar.Ids()[i]
  {
  }

  /**
   * Every type a client offers is one the backend accepts, and the backend
   * accepts exactly two more, gantt and pie, which no client offers.
   */
  lemma OfferedTypesAccepted()
    ensures forall t :: t in Generator.SelectOptions ==> t in Backend.TypeNames()
    ensures forall t :: t in Backend.TypeNames() && t !in Generator.SelectOptions <==> t == "gantt" || t == "pie"
  {
    var names := Backend.TypeNames();
    assert names == ["flowchart", "sequence", "mindmap", "entity-relationship", "class", "state", "gantt", "pie"];
  }

  /**
   * A body naming an offered type and answered by the model comes back as
   * code that starts with the type's header and has no fence; an unknown type
   * comes back as the backend's 400 detail whatever the model would have said.
   */
  lemma {:induction false} ServedOutcome(body: GenerateBody, reply: Backend.ModelReply)
    ensures body.diagramType in Generator.SelectOptions && reply.Reply? ==>
      && Served(body, reply).Ok?
      && Backend.PrefixFor(body.diagramType).value <= Served(body, reply).code
      && !Contains(Served(body, reply).code, Backend.Fence)
    ensures body.diagramType !in Backend.TypeNames() ==>
      Served(body, reply) == HttpErr(Some(Backend.InvalidTypeDetail()))
  {
    var req := Backend.RequestFromBody(body.text, Some(body.diagramType));
    if body.diagramType in Generator.SelectOptions && reply.Reply? {
      OfferedTypesAccepted();
      Backend.AcceptedCodeIsHeadedAndUnfenced(req, reply.text);
    }
    if body.diagramType !in Backend.TypeNames() {
      Backend.UnknownTypeRejected(req, reply, reply);
    }
  }

  /** For an offered type answered by the model: a non-empty code under a non-empty header, without a fence. */
  lemma OfferedTypeAnswered(body: GenerateBody, reply: Backend.ModelReply)
    requires body.diagramType in Generator.SelectOptions && reply.Reply?
    ensures var o := Served(body, reply); var header := Backend.PrefixFor(body.diagramType);
      && o.Ok? && header.Some? && |header.value| > 0
      && header.value <= o.code && o.code != "" && !Contains(o.code, Backend.Fence)
  {
    ServedOutcome(body, reply);
    var header := Backend.PrefixFor(body.diagramType).value;
    var i :| 0 <= i < |Backend.DiagramTypes| && Backend.DiagramTypes[i] == (body.diagramType, header);
    Backend.HeadersAreSafe(i);
  }

  /**
   * The React generator against the backend: a non-blank description of an
   * offered type, answered by the model, ends with the diagram panel showing
   * headed, unfenced code; when Mermaid draws it, the <div> holds that code's
   * drawing unless the answer equals code that was not drawn before.
   */
  method GenerateThroughBackend(g: Generator.DiagramGenerator, reply: Backend.ModelReply)
    returns (sent: Option<GenerateBody>)
    requires g.Valid() && !g.isLoading
    requires g.diagramType in Generator.SelectOptions && reply.Reply?
    requires Strip(JavaScript, g.text) != ""
    modifies g`isLoading, g`error, g`mermaidCode, g`host
    ensures g.Valid() && !g.isLoading
    ensures sent == Some(GenerateBody(g.text, g.diagramType))
    ensures g.Shown() == Generator.DiagramPanel(g.mermaidCode)
    ensures g.mermaidCode != old(g.mermaidCode) || old(g.ShowsCurrent()) ==> g.ShowsCurrent()
    ensures Backend.PrefixFor(g.diagramType).Some? && Backend.PrefixFor(g.diagramType).value <= g.Shown().code
    ensures !Contains(g.Shown().code, Backend.Fence)
  {
    var outcome := Served(GenerateBody(g.text, g.diagramType), reply);
    OfferedTypeAnswered(GenerateBody(g.text, g.diagramType), reply);
    sent := Generator.Generate(g, outcome, true);
  }

  /**
   * The plain-script dashboard against the backend: the trimmed description is
   * sent, and a rendered answer for an offered type shows headed code on the canvas.
   */
  method ClickGenerateThroughBackend(d: DashboardScript.Dashboard, reply: Backend.ModelReply)
    returns (sent: Option<GenerateBody>)
    requires d.Valid()
    requires d.selectedType in Generator.SelectOptions && reply.Reply?
    requires Strip(JavaScript, d.input) != ""
    modifies d`canvas, d`currentMermaidCode
    ensures d.Valid()
    ensures sent == Some(GenerateBody(Strip(JavaScript, d.input), d.selectedType))
    ensures d.canvas == DashboardScript.DiagramState(d.currentMermaidCode)
    ensures Backend.PrefixFor(d.selectedType).Some? && Backend.PrefixFor(d.selectedType).value <= d.currentMermaidCode
  {
    var body := GenerateBody(Strip(JavaScript, d.input), d.selectedType);
    var outcome := Served(body, reply);
    OfferedTypeAnswered(body, reply);
    ghost var header := Backend.PrefixFor(d.selectedType).value;
    assert outcome.Ok? && header <= outcome.code;
    sent := d.ClickGenerate(outcome, true);
    assert d.currentMermaidCode == outcome.code;
  }

  /**
   * A browser session through the Next.js pages: the demo login admits the
   * dashboard, the header's logout makes the next dashboard visit redirect.
   */
  method LoginVisitLogout(store: Session.Storage)
    modifies store
    ensures !Session.Admits(store.items)
    ensures store.items == Session.SignedOut(old(store.items))
  {
    var login := new Login.LoginPage(store);
    login.email := Login.DemoEmail;
    login.password := Login.DemoPassword;
    login.HandleSubmit();
    assert login.navigatedTo == Some("/dashboard");

    var page := new DashboardPage.DashboardPage(store);
    page.CheckSession();
    assert page.Rendered() == DashboardPage.DashboardView;

    var header := new Header.Header(store);
    header.ClickAvatar();
    header.Logout();
    Session.SignOutUndoesSignIn(old(store.items), Login.DemoEmail);
    Session.SignOutRefuses(old(store.items));

    var again := new DashboardPage.DashboardPage(store);
    again.CheckSession();
    assert again.navigatedTo == Some("/login") && again.Rendered() == DashboardPage.LoadingView;
  }

  /** A signup with matching, long-enough passwords and the terms accepted admits the dashboard. */
  method SignupVisit(store: Session.Storage, email: string, password: string)
    requires Utf16Length(password) >= Signup.MinLength
    modifies store
    ensures Session.Admits(store.items)
    ensures Session.EmailKey in store.items && store.items[Session.EmailKey] == email
  {
    var page := new Signup.SignupPage(store);
    page.email := email;
    page.password := password;
    page.confirmPassword := password;
    page.acceptTerms := true;
    page.HandleSubmit();

    var dashboard := new DashboardPage.DashboardPage(store);
    dashboard.CheckSession();
    assert dashboard.Rendered() == DashboardPage.DashboardView;
  }
}
