/**
 * The running page: the global `state` record, the element flags the
 * script toggles and the two browser stores, held as fields and updated in
 * place by the event handlers. Each handler is proved to leave exactly the
 * page its specification function in `Views` describes.
 */
module Portal {
  import opened Wrappers
  import opened Applications
  import opened Views

  class PortalState {
    // the `state` record
    var currentView: View
    var isLoggedIn: bool
    var applications: seq<Application>

    // the elements' `hidden` classes and the submit control
    var applicantViewHidden: bool
    var loginViewHidden: bool
    var adminViewHidden: bool
    var adminLoginLinkHidden: bool
    var applicantViewLinkHidden: bool
    var loginErrorHidden: bool
    var submitDisabled: bool
    var submitTextHidden: bool
    var submitSpinnerHidden: bool
    var applicationsList: Dashboard

    // sessionStorage "isAdminLoggedIn" and localStorage "applications"
    var sessionFlag: Option<string>
    var storedApplications: Option<string>

    /** The whole page as a value. */
    function Snapshot(): Page
      reads this
    {
      Page(State(currentView, isLoggedIn, applications),
           Dom(applicantViewHidden, loginViewHidden, adminViewHidden,
               adminLoginLinkHidden, applicantViewLinkHidden, loginErrorHidden,
               submitDisabled, submitTextHidden, submitSpinnerHidden, applicationsList),
           Stores(sessionFlag, storedApplications))
    }

    /** The page as loaded: the initial `state` record, the markup's flags and the stores' current values. */
    constructor (markup: Dom, session: Option<string>, local: Option<string>)
      ensures Snapshot() == Page(State(Applicant, false, []), markup, Stores(session, local))
    {
      currentView, isLoggedIn, applications := Applicant, false, [];
      applicantViewHidden := markup.applicantHidden;
      loginViewHidden := markup.loginHidden;
      adminViewHidden := markup.adminHidden;
      adminLoginLinkHidden := markup.adminLoginLinkHidden;
      applicantViewLinkHidden := markup.applicantViewLinkHidden;
      loginErrorHidden := markup.loginErrorHidden;
      submitDisabled := markup.submitDisabled;
      submitTextHidden := markup.submitTextHidden;
      submitSpinnerHidden := markup.spinnerHidden;
      applicationsList := markup.dashboard;
      sessionFlag, storedApplications := session, local;
    }

    /** `loadApplications`. */
    method LoadApplications(parse: string -> Option<seq<Application>>)
      modifies this
      ensures Snapshot() == old(Snapshot()).(state := old(Snapshot()).state.(
                applications := LoadedList(old(storedApplications), parse)))
    {
      applications := LoadedList(storedApplications, parse);
    }

    /** `saveApplications`; `writeOk` is false when the store refuses the write. */
    method SaveApplications(serialize: seq<Application> -> string, writeOk: bool)
      modifies this
      ensures Snapshot() == old(Snapshot()).(stores := old(Snapshot()).stores.(
                local := SavedValue(old(storedApplications), applications, serialize, writeOk)))
    {
      if writeOk {
        storedApplications := Some(serialize(applications));
      }
    }

    /** `checkLoginStatus`. */
    method CheckLoginStatus()
      modifies this
      ensures Snapshot() == old(Snapshot()).(state := old(Snapshot()).state.(
                isLoggedIn := old(sessionFlag) == Some(LoggedInMarker)))
    {
      isLoggedIn := sessionFlag == Some(LoggedInMarker);
    }

    /**
     * `updateView`: sets the panels and links for the current view; on
     * admin it redirects to login while logged out, else renders the
     * dashboard. It behaves as navigating to the view already set.
     */
    method UpdateView()
      modifies this
      decreases if currentView == Admin then 1 else 0, 0
      ensures Snapshot() == AfterNavigate(old(Snapshot()), old(currentView))
    {
      applicantViewHidden := currentView != Applicant;
      loginViewHidden := currentView != Login;
      adminViewHidden := currentView != Admin;
      adminLoginLinkHidden := currentView != Applicant;
      applicantViewLinkHidden := currentView == Applicant;

      if currentView == Admin {
        if !isLoggedIn {
          NavigateTo(Login);
          return;
        }
        RenderAdminDashboard();
      }
    }

    /** `renderAdminDashboard`: rebuilds the list from the in-memory applications. */
    method RenderAdminDashboard()
      modifies this
      ensures Snapshot() == old(Snapshot()).(dom := old(Snapshot()).dom.(
                dashboard := RenderDashboard(applications)))
    {
      if |applications| == 0 {
        applicationsList := EmptyMessage;
        return;
      }
      var apps := applications;
      applicationsList := Cards(seq(|apps|, i requires 0 <= i < |apps| => CardOf(apps[i])));
    }

    /** `navigateTo`. */
    method NavigateTo(view: View)
      modifies this
      decreases if view == Admin then 1 else 0, 1
      ensures Snapshot() == AfterNavigate(old(Snapshot()), view)
    {
      currentView := view;
      UpdateView();
    }

    /** `setLoading`. */
    method SetLoading(isLoading: bool)
      modifies this
      ensures Snapshot() == old(Snapshot()).(dom := Views.SetLoading(old(Snapshot()).dom, isLoading))
    {
      submitDisabled := isLoading;
      submitTextHidden := isLoading;
      submitSpinnerHidden := !isLoading;
    }

    /**
     * `handleApplicationSubmit`, with the file reads' outcomes carried by
     * the form and the id and timestamp passed in.
     */
    method HandleApplicationSubmit(form: ApplicationForm, id: int, submittedAt: string,
                                   serialize: seq<Application> -> string, writeOk: bool)
      modifies this
      ensures Snapshot() == AfterSubmit(old(Snapshot()), form, id, submittedAt, serialize, writeOk)
    {
      SetLoading(true);
      var files := ReadAll(FilesToRead(form));
      if files.Success? {
        var newApplication := Application(id, submittedAt, form.fullName, form.email, form.phone, files.value);
        applications := applications + [newApplication];
        SaveApplications(serialize, writeOk);
      }
      SetLoading(false);
    }

    /** `handleAdminLogin`. */
    method HandleAdminLogin(username: string, password: string)
      modifies this
      ensures Snapshot() == AfterLogin(old(Snapshot()), username, password)
    {
      loginErrorHidden := true;
      if username == AdminUsername && password == AdminPassword {
        isLoggedIn := true;
        sessionFlag := Some(LoggedInMarker);
        NavigateTo(Admin);
      } else {
        loginErrorHidden := false;
      }
    }

    /** `handleLogout`. */
    method HandleLogout()
      modifies this
      ensures Snapshot() == AfterLogout(old(Snapshot()))
    {
      isLoggedIn := false;
      sessionFlag := None;
      NavigateTo(Login);
    }

    /** `initialize`, without the listener wiring. */
    method Initialize(parse: string -> Option<seq<Application>>)
      modifies this
      ensures Snapshot() == AfterInitialize(old(Snapshot()), parse)
      ensures Consistent(Snapshot())
    {
      LoadApplications(parse);
      CheckLoginStatus();
      if isLoggedIn {
        NavigateTo(Admin);
      } else {
        NavigateTo(Applicant);
      }
    }
  }
}
