/**
 * The observable page as a value -- the state record, the visibility flags
 * of the page's elements and the two browser stores -- and, for each event
 * handler, the page it leaves behind.
 */
module Views {
  import opened Wrappers
  import opened Applications

  /** The three screens. */
  datatype View = Applicant | Login | Admin

  /** What the dashboard shows for one application. */
  datatype Card = Card(fullName: string, email: string, phone: string,
                       submittedAt: string, links: seq<FileData>)

  /** The dashboard's content: as the markup left it, the empty-list message, or one card per application. */
  datatype Dashboard = Markup | EmptyMessage | Cards(cards: seq<Card>)

  /** The element flags the script toggles; `…Hidden` is the element's `hidden` class. */
  datatype Dom = Dom(
    applicantHidden: bool,
    loginHidden: bool,
    adminHidden: bool,
    adminLoginLinkHidden: bool,
    applicantViewLinkHidden: bool,
    loginErrorHidden: bool,
    submitDisabled: bool,
    submitTextHidden: bool,
    spinnerHidden: bool,
    dashboard: Dashboard)

  /** The global `state` record. */
  datatype State = State(currentView: View, isLoggedIn: bool, applications: seq<Application>)

  /** The session store's "isAdminLoggedIn" value and the durable store's "applications" value. */
  datatype Stores = Stores(session: Option<string>, local: Option<string>)

  datatype Page = Page(state: State, dom: Dom, stores: Stores)

  const AdminUsername: string := "admin"
  const AdminPassword: string := "password123"
  /** The marker the session store holds while the administrator is logged in. */
  const LoggedInMarker: string := "true"

  // ---- Rendering ----------------------------------------------------------

  /** The number of slots that hold a file. */
  function PresentCount(files: seq<Option<FileData>>): nat
  {
    if files == [] then 0 else (if files[0].Some? then 1 else 0) + PresentCount(files[1..])
  }

  /**
   * The download links of one application: one per slot that holds a
   * file, in slot order -- the file of slot `i` is the link numbered by
   * how many filled slots come before it.
   */
  function Links(files: seq<Option<FileData>>): (r: seq<FileData>)
    ensures |r| == PresentCount(files)
    ensures forall i | 0 <= i < |files| && files[i].Some? ::
      PresentCount(files[..i]) < |r| && r[PresentCount(files[..i])] == files[i].value
    ensures forall f :: f in r <==> Some(f) in files
  {
    if files == [] then []
    else
      var rest := Links(files[1..]);
      assert files == [files[0]] + files[1..];
      assert forall i | 0 < i <= |files| :: files[..i] == [files[0]] + files[1..][..i-1];
      assert files[..0] == [];
      match files[0]
      case None => rest
      case Some(f) => [f] + rest
  }

  function CardOf(app: Application): Card
  {
    Card(app.fullName, app.email, app.phone, app.submittedAt, Links(app.files))
  }

  /** The dashboard for a list: the empty message exactly when the list is empty, else one card per entry in list order. */
  function RenderDashboard(apps: seq<Application>): (d: Dashboard)
    ensures d == EmptyMessage <==> apps == []
    ensures d != Markup
    ensures d.Cards? ==> |d.cards| == |apps| && forall i | 0 <= i < |apps| :: d.cards[i] == CardOf(apps[i])
  {
    if |apps| == 0 then EmptyMessage
    else Cards(seq(|apps|, i requires 0 <= i < |apps| => CardOf(apps[i])))
  }

  // ---- Visibility ---------------------------------------------------------

  /** The panel and link flags `updateView` sets for view `v`. */
  function ShowView(d: Dom, v: View): (e: Dom)
    ensures ExactlyOnePanel(e) && VisiblePanel(e) == v
    ensures LinksAgree(e, v)
    ensures e.loginErrorHidden == d.loginErrorHidden && e.dashboard == d.dashboard
    ensures e.submitDisabled == d.submitDisabled && e.submitTextHidden == d.submitTextHidden
    ensures e.spinnerHidden == d.spinnerHidden
  {
    d.(applicantHidden := v != Applicant,
       loginHidden := v != Login,
       adminHidden := v != Admin,
       adminLoginLinkHidden := v != Applicant,
       applicantViewLinkHidden := v == Applicant)
  }

  /** Exactly one of the three panels is visible. */
  predicate ExactlyOnePanel(d: Dom)
  {
    || (!d.applicantHidden && d.loginHidden && d.adminHidden)
    || (d.applicantHidden && !d.loginHidden && d.adminHidden)
    || (d.applicantHidden && d.loginHidden && !d.adminHidden)
  }

  /** The one visible panel. */
  function VisiblePanel(d: Dom): View
    requires ExactlyOnePanel(d)
  {
    if !d.applicantHidden then Applicant else if !d.loginHidden then Login else Admin
  }

  /** The two navigation links agree with the view. */
  predicate LinksAgree(d: Dom, v: View)
  {
    (!d.adminLoginLinkHidden <==> v == Applicant) && (!d.applicantViewLinkHidden <==> v != Applicant)
  }

  /** The submit control is idle: enabled, its text shown and the spinner hidden. */
  predicate Idle(d: Dom)
  {
    !d.submitDisabled && !d.submitTextHidden && d.spinnerHidden
  }

  /**
   * What the page keeps between events: one panel shown and it is the
   * current view's, the links agree, admin is shown only while logged
   * in, and the in-memory flag agrees with the session store.
   */
  predicate Consistent(p: Page)
  {
    && ExactlyOnePanel(p.dom)
    && VisiblePanel(p.dom) == p.state.currentView
    && LinksAgree(p.dom, p.state.currentView)
    && (p.state.currentView == Admin ==> p.state.isLoggedIn)
    && (p.state.isLoggedIn <==> p.stores.session == Some(LoggedInMarker))
  }

  // ---- Handlers -----------------------------------------------------------

  /**
   * `navigateTo(v)`: the view becomes `v`, except that admin while logged
   * out is redirected to login; the panels and links follow the view and
   * the dashboard is rendered exactly when admin is reached.
   */
  function AfterNavigate(p: Page, v: View): (q: Page)
    ensures ExactlyOnePanel(q.dom) && VisiblePanel(q.dom) == q.state.currentView
    ensures LinksAgree(q.dom, q.state.currentView)
    ensures q.state.currentView == Admin ==> q.state.isLoggedIn
    ensures v != Admin || p.state.isLoggedIn ==> q.state.currentView == v
    ensures v == Admin && !p.state.isLoggedIn ==> q.state.currentView == Login
    ensures q.dom.dashboard ==
      if q.state.currentView == Admin then RenderDashboard(p.state.applications) else p.dom.dashboard
    ensures q.state.isLoggedIn == p.state.isLoggedIn && q.state.applications == p.state.applications
    ensures q.stores == p.stores
    ensures q.dom.loginErrorHidden == p.dom.loginErrorHidden
    ensures q.dom.submitDisabled == p.dom.submitDisabled && q.dom.submitTextHidden == p.dom.submitTextHidden
    ensures q.dom.spinnerHidden == p.dom.spinnerHidden
  {
    var w := if v == Admin && !p.state.isLoggedIn then Login else v;
    var shown := ShowView(p.dom, w);
    Page(p.state.(currentView := w),
         if w == Admin then shown.(dashboard := RenderDashboard(p.state.applications)) else shown,
         p.stores)
  }

  /** The exact credential test: case-sensitive, no trimming. */
  predicate Accepted(username: string, password: string)
  {
    username == AdminUsername && password == AdminPassword
  }

  /**
   * `handleAdminLogin`: on the fixed credentials the administrator is
   * logged in, the marker is stored and the dashboard shown; on any other
   * pair only the error message appears.
   */
  function AfterLogin(p: Page, username: string, password: string): (q: Page)
    ensures Accepted(username, password) ==>
      && q.state.isLoggedIn
      && q.stores.session == Some(LoggedInMarker)
      && q.state.currentView == Admin
      && ExactlyOnePanel(q.dom) && VisiblePanel(q.dom) == Admin
      && q.dom.loginErrorHidden
      && q.dom.dashboard == RenderDashboard(p.state.applications)
      && q.dom.submitDisabled == p.dom.submitDisabled && q.dom.submitTextHidden == p.dom.submitTextHidden
      && q.dom.spinnerHidden == p.dom.spinnerHidden
    ensures !Accepted(username, password) ==>
      && q.state == p.state
      && q.stores == p.stores
      && q.dom == p.dom.(loginErrorHidden := false)
    ensures q.state.applications == p.state.applications && q.stores.local == p.stores.local
    ensures Accepted(username, password) ==> Consistent(q)
    ensures Consistent(p) ==> Consistent(q)
  {
    var cleared := p.dom.(loginErrorHidden := true);
    if Accepted(username, password) then
      AfterNavigate(Page(p.state.(isLoggedIn := true), cleared,
                         p.stores.(session := Some(LoggedInMarker))), Admin)
    else
      p.(dom := cleared.(loginErrorHidden := false))
  }

  /** `handleLogout`: logged out, marker removed, login shown -- from any page. */
  function AfterLogout(p: Page): (q: Page)
    ensures !q.state.isLoggedIn && q.stores.session == None
    ensures q.state.currentView == Login && ExactlyOnePanel(q.dom) && VisiblePanel(q.dom) == Login
    ensures q.state.applications == p.state.applications && q.stores.local == p.stores.local
    ensures q.dom.dashboard == p.dom.dashboard && q.dom.loginErrorHidden == p.dom.loginErrorHidden
    ensures q.dom.submitDisabled == p.dom.submitDisabled && q.dom.submitTextHidden == p.dom.submitTextHidden
    ensures q.dom.spinnerHidden == p.dom.spinnerHidden
    ensures Consistent(q)
    ensures AfterNavigate(q, Admin).state.currentView == Login
  {
    AfterNavigate(Page(p.state.(isLoggedIn := false), p.dom, p.stores.(session := None)), Login)
  }

  /** `setLoading`: the submit control, its text and the spinner follow the flag. */
  function SetLoading(d: Dom, isLoading: bool): (e: Dom)
    ensures Idle(e) <==> !isLoading
    ensures isLoading ==> e.submitDisabled && e.submitTextHidden && !e.spinnerHidden
    ensures e.(submitDisabled := d.submitDisabled, submitTextHidden := d.submitTextHidden,
               spinnerHidden := d.spinnerHidden) == d
  {
    d.(submitDisabled := isLoading, submitTextHidden := isLoading, spinnerHidden := !isLoading)
  }

  /**
   * `handleApplicationSubmit`: when every file reads, one record is
   * appended with the given id and timestamp, the form's fields and three
   * file slots, and the whole list is saved; when a read fails nothing is
   * kept. Either way the submit control ends idle.
   */
  function AfterSubmit(p: Page, form: ApplicationForm, id: int, submittedAt: string,
                       serialize: seq<Application> -> string, writeOk: bool): (q: Page)
    ensures Idle(q.dom)
    ensures q.dom == SetLoading(p.dom, false)
    ensures q.state.currentView == p.state.currentView && q.state.isLoggedIn == p.state.isLoggedIn
    ensures q.stores.session == p.stores.session
    ensures |p.state.applications| <= |q.state.applications| &&
            q.state.applications[..|p.state.applications|] == p.state.applications
    ensures (forall i | 0 <= i < 3 :: Readable(FilesToRead(form)[i])) ==>
      var n := |p.state.applications|;
      && |q.state.applications| == n + 1
      && var app := q.state.applications[n];
      && app.id == id && app.submittedAt == submittedAt
      && app.fullName == form.fullName && app.email == form.email && app.phone == form.phone
      && |app.files| == 3
      && (forall i | 0 <= i < 3 :: app.files[i].None? <==> FilesToRead(form)[i].None?)
      && (forall i | 0 <= i < 3 :: ReadFileAsDataUrl(FilesToRead(form)[i]) == Success(app.files[i]))
      && q.stores.local == SavedValue(p.stores.local, q.state.applications, serialize, writeOk)
    ensures !(forall i | 0 <= i < 3 :: Readable(FilesToRead(form)[i])) ==>
      q.state == p.state && q.stores == p.stores
    ensures Consistent(p) ==> Consistent(q)
  {
    var idle := SetLoading(p.dom, false);
    match ReadAll(FilesToRead(form))
    case Failure(_) => p.(dom := idle)
    case Success(files) =>
      var apps := p.state.applications + [Application(id, submittedAt, form.fullName, form.email, form.phone, files)];
      Page(p.state.(applications := apps), idle,
           p.stores.(local := SavedValue(p.stores.local, apps, serialize, writeOk)))
  }

  /**
   * `initialize` after the listeners are wired: the list is loaded, the
   * flag is read from the session store and the first view is admin
   * exactly when logged in, applicant otherwise.
   */
  function AfterInitialize(p: Page, parse: string -> Option<seq<Application>>): (q: Page)
    ensures q.state.isLoggedIn <==> p.stores.session == Some(LoggedInMarker)
    ensures q.state.currentView == Admin <==> q.state.isLoggedIn
    ensures !q.state.isLoggedIn ==> q.state.currentView == Applicant
    ensures q.state.applications == LoadedList(p.stores.local, parse)
    ensures q.state.currentView == Admin ==> q.dom.dashboard == RenderDashboard(q.state.applications)
    ensures q.state.currentView != Admin ==> q.dom.dashboard == p.dom.dashboard
    ensures q.dom.loginErrorHidden == p.dom.loginErrorHidden
    ensures q.dom.submitDisabled == p.dom.submitDisabled && q.dom.submitTextHidden == p.dom.submitTextHidden
    ensures q.dom.spinnerHidden == p.dom.spinnerHidden
    ensures q.stores == p.stores
    ensures Consistent(q)
  {
    var loaded := p.(state := p.state.(applications := LoadedList(p.stores.local, parse)));
    var checked := loaded.(state := loaded.state.(isLoggedIn := p.stores.session == Some(LoggedInMarker)));
    if checked.state.isLoggedIn then AfterNavigate(checked, Admin) else AfterNavigate(checked, Applicant)
  }

  // ---- Properties relating several handlers -------------------------------

  /** Navigating twice to the same view leaves the page as navigating once. */
  lemma NavigateIdempotent(p: Page, v: View)
    ensures AfterNavigate(AfterNavigate(p, v), v) == AfterNavigate(p, v)
  {
  }

  /** Navigating to the view already shown changes nothing on a consistent page, except refreshing the dashboard. */
  lemma NavigateToCurrent(p: Page)
    requires Consistent(p)
    ensures var q := AfterNavigate(p, p.state.currentView);
      q.state == p.state && q.stores == p.stores &&
      (p.state.currentView != Admin ==> q.dom == p.dom)
  {
  }

  /**
   * A slot that arrives as a file with an empty name still reads and is
   * kept as a file: three such slots give three non-null entries and three
   * links, not `[null, null, null]`.
   */
  lemma EmptyNamedFilesAreKept(p: Page, fullName: string, email: string, phone: string, url: string,
                               id: int, submittedAt: string,
                               serialize: seq<Application> -> string, writeOk: bool)
    ensures var empty := Some(ChosenFile("", Loaded(url)));
      var q := AfterSubmit(p, ApplicationForm(fullName, email, phone, empty, empty, empty),
                           id, submittedAt, serialize, writeOk);
      var app := q.state.applications[|p.state.applications|];
      && app.files == [Some(FileData("", url)), Some(FileData("", url)), Some(FileData("", url))]
      && |CardOf(app).links| == 3
  {
    var empty := Some(ChosenFile("", Loaded(url)));
    var q := AfterSubmit(p, ApplicationForm(fullName, email, phone, empty, empty, empty),
                         id, submittedAt, serialize, writeOk);
    var app := q.state.applications[|p.state.applications|];
    var x := Some(FileData("", url));
    assert forall i | 0 <= i < 3 :: app.files[i] == x;
    assert app.files == [x, x, x];
    assert [x, x, x][1..] == [x, x] && [x, x][1..] == [x] && [x][1..] == [];
  }

  /** The credential test accepts "admin"/"password123" and rejects case and whitespace variants. */
  lemma CredentialExamples()
    ensures Accepted("admin", "password123")
    ensures !Accepted("Admin", "password123")
    ensures !Accepted("admin ", "password123")
    ensures !Accepted("admin", "Password123")
    ensures !Accepted("", "")
  {
  }
}
