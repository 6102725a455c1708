/**
 * The root component: a step cursor over the five wizard screens, the two
 * artifacts the screens hand forward (foot photos, then the design record),
 * and the render selection that decides what is on screen.
 */
module App {
  import opened Wrappers
  import DesignStudioPage
  import FootScannerPage

  type DesignRecord = DesignStudioPage.DesignRecord

  datatype AppStep = Home | Scanner | Design | Preview | Download

  /** The header's buttons, in order; a click passes the button's step on. */
  const HeaderSteps: seq<AppStep> := [Home, Scanner, Design, Preview, Download]

  datatype User = User(id: string, email: string, displayName: Option<string>)

  /** A wizard screen mounted in the main area, with the props it receives. */
  datatype Page =
    | ShowHome
    | ShowScanner
    | ShowDesign(photos: seq<string>)
    | ShowPreview(design: DesignRecord)
    | ShowDownload(design: DesignRecord)

  /** What the root component renders. */
  datatype View = LoadingView | SignInView | WizardView(header: AppStep, main: seq<Page>)

  /**
   * The main area: five independent guarded elements, in source order. The
   * design screen needs a non-empty photo list, preview and download need a
   * stored design.
   */
  function MainPages(step: AppStep, photos: seq<string>, design: Option<DesignRecord>): (pages: seq<Page>)
    ensures |pages| <= 1
    ensures pages == [ShowHome] <==> step == Home
    ensures pages == [ShowScanner] <==> step == Scanner
    ensures pages == [ShowDesign(photos)] <==> step == Design && |photos| > 0
    ensures design.Some? ==> (pages == [ShowPreview(design.value)] <==> step == Preview)
    ensures design.Some? ==> (pages == [ShowDownload(design.value)] <==> step == Download)
    ensures pages == [] <==> (step == Design && |photos| == 0) || (step in {Preview, Download} && design.None?)
  {
    var pages :=
      (if step == Home then [ShowHome] else []) +
      (if step == Scanner then [ShowScanner] else []) +
      (if step == Design && |photos| > 0 then [ShowDesign(photos)] else []) +
      (if step == Preview && design.Some? then [ShowPreview(design.value)] else []) +
      (if step == Download && design.Some? then [ShowDownload(design.value)] else []);
    assert pages != [] ==> (pages[0] == ShowHome <==> step == Home);
    pages
  }

  /** Loading wins; then a signed-out user sees only the sign-in screen; then the wizard. */
  function Render(loading: bool, user: Option<User>, step: AppStep, photos: seq<string>,
                  design: Option<DesignRecord>): (v: View)
    ensures loading ==> v == LoadingView
    ensures !loading && user.None? ==> v == SignInView
    ensures v.WizardView? <==> !loading && user.Some?
    ensures v.WizardView? ==> v.header == step && v.main == MainPages(step, photos, design)
    ensures v.WizardView? ==> |v.main| <= 1
  {
    if loading then LoadingView
    else if user.None? then SignInView
    else WizardView(step, MainPages(step, photos, design))
  }

  /** The wizard's navigation state. */
  datatype AppState = AppState(step: AppStep, photos: seq<string>, design: Option<DesignRecord>)

  const Initial := AppState(Home, [], None)

  /** What can move the cursor: a screen's completion callback or a header click. */
  datatype AppEvent =
    | GetStarted
    | ScanComplete(photos: seq<string>)
    | DesignComplete(design: DesignRecord)
    | PreviewComplete
    | StepChange(target: AppStep)

  /**
   * A callback moves the cursor to its fixed target step (the header to the
   * clicked one); only the scan hand-over replaces the photos and only the
   * design hand-over replaces the design.
   */
  function Handle(s: AppState, e: AppEvent): (r: AppState)
    ensures r.step == (match e
      case GetStarted => Scanner
      case ScanComplete(_) => Design
      case DesignComplete(_) => Preview
      case PreviewComplete => Download
      case StepChange(target) => target)
    ensures r.photos == if e.ScanComplete? then e.photos else s.photos
    ensures r.design == if e.DesignComplete? then Some(e.design) else s.design
  {
    match e
    case GetStarted => s.(step := Scanner)
    case ScanComplete(photos) => s.(photos := photos, step := Design)
    case DesignComplete(design) => s.(design := Some(design), step := Preview)
    case PreviewComplete => s.(step := Download)
    case StepChange(target) => s.(step := target)
  }

  /**
   * Whether the event's source is on screen: a completion callback fires
   * only from its mounted screen; the header is always mounted.
   */
  predicate Enabled(s: AppState, e: AppEvent)
  {
    var pages := MainPages(s.step, s.photos, s.design);
    match e
    case GetStarted => ShowHome in pages
    case ScanComplete(_) => ShowScanner in pages
    case DesignComplete(_) => ShowDesign(s.photos) in pages
    case PreviewComplete => s.design.Some? && ShowPreview(s.design.value) in pages
    case StepChange(_) => true
  }

  /** A step's prerequisite artifact is stored. */
  predicate Prepared(s: AppState)
  {
    (s.step == Design ==> |s.photos| > 0) && (s.step in {Preview, Download} ==> s.design.Some?)
  }

  /** Events that fire only when enabled; disabled ones are not delivered. */
  function Fire(s: AppState, events: seq<AppEvent>): AppState
    decreases |events|
  {
    if events == [] then s
    else Fire(if Enabled(s, events[0]) then Handle(s, events[0]) else s, events[1..])
  }

  /**
   * The screens' own callbacks. The scanner hands over one photo per angle,
   * as `FootScannerPage.RunKeepsCursor` proves of every hand-over.
   */
  predicate ScreenEvent(e: AppEvent)
  {
    !e.StepChange? && (e.ScanComplete? ==> |e.photos| == |FootScannerPage.ScanSteps|)
  }

  /**
   * Driven only by the screens' own callbacks, the wizard never reaches a
   * step without its prerequisite, so the main area is never blank.
   */
  lemma {:induction false} ScreenEventsKeepPrepared(s: AppState, events: seq<AppEvent>)
    requires Prepared(s)
    requires forall i :: 0 <= i < |events| ==> ScreenEvent(events[i])
    ensures Prepared(Fire(s, events))
    ensures |MainPages(Fire(s, events).step, Fire(s, events).photos, Fire(s, events).design)| == 1
    decreases |events|
  {
    if events == [] {
    } else {
      var next := if Enabled(s, events[0]) then Handle(s, events[0]) else s;
      assert ScreenEvent(events[0]);
      assert Prepared(next);
      ScreenEventsKeepPrepared(next, events[1..]);
    }
  }

  /**
   * The header click is unguarded: any step can be entered from any state,
   * including one whose prerequisite is missing, where the main area renders
   * nothing.
   */
  lemma HeaderJumpIsUnguarded(s: AppState, target: AppStep)
    requires target in HeaderSteps
    ensures Enabled(s, StepChange(target)) && Handle(s, StepChange(target)).step == target
    ensures Handle(Initial, StepChange(Preview)).step == Preview
    ensures MainPages(Preview, Initial.photos, Initial.design) == []
    ensures !Prepared(Handle(Initial, StepChange(Design)))
  {
  }

  /** The root component's state, updated in place by its handlers. */
  class Wizard {
    var user: Option<User>
    var loading: bool
    var currentStep: AppStep
    var footPhotos: seq<string>
    var shoeDesign: Option<DesignRecord>

    function State(): AppState
      reads this
    {
      AppState(currentStep, footPhotos, shoeDesign)
    }

    /** What is on screen now. */
    function Screen(): (v: View)
      reads this
    {
      Render(loading, user, currentStep, footPhotos, shoeDesign)
    }

    constructor ()
      ensures State() == Initial && loading && user.None?
      ensures Screen() == LoadingView
    {
      user, loading := None, true;
      currentStep, footPhotos, shoeDesign := Home, [], None;
    }

    /** The authentication subscription's callback. */
    method OnAuthStateChanged(newUser: Option<User>, isLoading: bool)
      modifies this
      ensures user == newUser && loading == isLoading && State() == old(State())
    {
      user := newUser;
      loading := isLoading;
    }

    method HandleStepChange(step: AppStep)
      modifies this
      ensures State() == Handle(old(State()), StepChange(step))
      ensures currentStep == step && footPhotos == old(footPhotos) && shoeDesign == old(shoeDesign)
      ensures user == old(user) && loading == old(loading)
    {
      currentStep := step;
    }

    method HandleGetStarted()
      modifies this
      ensures State() == Handle(old(State()), GetStarted)
      ensures currentStep == Scanner && footPhotos == old(footPhotos) && shoeDesign == old(shoeDesign)
      ensures user == old(user) && loading == old(loading)
    {
      currentStep := Scanner;
    }

    method HandleScanComplete(photos: seq<string>)
      modifies this
      ensures State() == Handle(old(State()), ScanComplete(photos))
      ensures currentStep == Design && footPhotos == photos && shoeDesign == old(shoeDesign)
      ensures user == old(user) && loading == old(loading)
    {
      footPhotos := photos;
      currentStep := Design;
    }

    method HandleDesignComplete(design: DesignRecord)
      modifies this
      ensures State() == Handle(old(State()), DesignComplete(design))
      ensures currentStep == Preview && shoeDesign == Some(design) && footPhotos == old(footPhotos)
      ensures user == old(user) && loading == old(loading)
    {
      shoeDesign := Some(design);
      currentStep := Preview;
    }

    method HandlePreviewComplete()
      modifies this
      ensures State() == Handle(old(State()), PreviewComplete)
      ensures currentStep == Download && footPhotos == old(footPhotos) && shoeDesign == old(shoeDesign)
      ensures user == old(user) && loading == old(loading)
    {
      currentStep := Download;
    }
  }
}
