/**
 * Sequences of user events after start-up: what any run of the handlers
 * keeps (the guard and panel invariant, the agreement of the login flag
 * with the session store) and how the list of applications grows.
 */
module Traces {
  import opened Wrappers
  import opened Applications
  import opened Views

  /** One handled event; a submission carries its id, its timestamp and whether the store accepts the write. */
  datatype Event =
    | Navigation(view: View)
    | LoginSubmitted(username: string, password: string)
    | LogoutClicked
    | ApplicationSubmitted(form: ApplicationForm, id: int, submittedAt: string, writeOk: bool)

  function Step(p: Page, e: Event, serialize: seq<Application> -> string): Page
  {
    match e
    case Navigation(v) => AfterNavigate(p, v)
    case LoginSubmitted(u, pw) => AfterLogin(p, u, pw)
    case LogoutClicked => AfterLogout(p)
    case ApplicationSubmitted(form, id, at, ok) => AfterSubmit(p, form, id, at, serialize, ok)
  }

  function Run(p: Page, events: seq<Event>, serialize: seq<Application> -> string): Page
    decreases |events|
  {
    if events == [] then p else Run(Step(p, events[0], serialize), events[1..], serialize)
  }

  /** Whether a submission's three files all read. */
  predicate IsStored(e: Event)
  {
    e.ApplicationSubmitted? && forall i | 0 <= i < 3 :: Readable(FilesToRead(e.form)[i])
  }

  /** The number of submissions in `events` whose files all read. */
  function StoredCount(events: seq<Event>): nat
  {
    if events == [] then 0 else (if IsStored(events[0]) then 1 else 0) + StoredCount(events[1..])
  }

  predicate OnlyNavigation(events: seq<Event>)
  {
    forall i | 0 <= i < |events| :: events[i].Navigation?
  }

  /** Every run of handlers from a consistent page ends on a consistent page. */
  lemma {:induction false} RunKeepsConsistent(p: Page, events: seq<Event>, serialize: seq<Application> -> string)
    requires Consistent(p)
    ensures Consistent(Run(p, events, serialize))
    decreases |events|
  {
    if events != [] {
      var q := Step(p, events[0], serialize);
      assert Consistent(q);
      RunKeepsConsistent(q, events[1..], serialize);
    }
  }

  /**
   * The list only grows at its end, by one record for each submission
   * whose files read, and every record added has three file slots.
   */
  lemma {:induction false} RunAppendOnly(p: Page, events: seq<Event>, serialize: seq<Application> -> string)
    ensures var apps := Run(p, events, serialize).state.applications;
      && |apps| == |p.state.applications| + StoredCount(events)
      && apps[..|p.state.applications|] == p.state.applications
      && forall i | |p.state.applications| <= i < |apps| :: |apps[i].files| == 3
    decreases |events|
  {
    if events != [] {
      var q := Step(p, events[0], serialize);
      var n := |p.state.applications|;
      assert |q.state.applications| == n + (if IsStored(events[0]) then 1 else 0);
      assert q.state.applications[..n] == p.state.applications;
      if IsStored(events[0]) {
        assert |q.state.applications[n].files| == 3;
      }
      RunAppendOnly(q, events[1..], serialize);
      var apps := Run(q, events[1..], serialize).state.applications;
      assert apps[..n] == apps[..|q.state.applications|][..n];
    }
  }

  /** Navigation alone never touches the list, the login flag or either store. */
  lemma {:induction false} NavigationKeepsData(p: Page, events: seq<Event>, serialize: seq<Application> -> string)
    requires OnlyNavigation(events)
    ensures var q := Run(p, events, serialize);
      q.state.applications == p.state.applications && q.state.isLoggedIn == p.state.isLoggedIn &&
      q.stores == p.stores
    decreases |events|
  {
    if events != [] {
      assert events[0].Navigation?;
      NavigationKeepsData(Step(p, events[0], serialize), events[1..], serialize);
    }
  }

  /**
   * From start-up on, whatever the events, the page stays consistent: one
   * panel, the current view's; the links agree; the admin panel is never
   * shown while logged out; the flag agrees with the session marker.
   */
  lemma SessionNeverShowsAdminLoggedOut(p: Page, parse: string -> Option<seq<Application>>,
                                        events: seq<Event>, serialize: seq<Application> -> string)
    ensures Consistent(Run(AfterInitialize(p, parse), events, serialize))
  {
    RunKeepsConsistent(AfterInitialize(p, parse), events, serialize);
  }
}
