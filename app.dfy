/**
 * The application shell: the signed-in user's record and the updaters the
 * pages call on it (patch merge, alignment score, saved projects, reset),
 * and the shell's own state: which overlay or modal is open, whether the
 * user is logged in, and which page the sidebar shows. The delayed steps
 * after login, signup and onboarding are timers the handler schedules and
 * the environment fires later.
 */
module App {
  import opened Wrappers
  import opened Lists
  import Auth
  import Projects

  datatype Plan = Free | Monthly | Yearly

  /** `UserData`: the record every page reads. */
  datatype UserData = UserData(
    name: string, email: string, role: string,
    alignmentScore: int, isPremium: bool, plan: Plan,
    tasksCompleted: int, timeSpent: int,
    goals: seq<string>, savedProjects: seq<Projects.Project>)

  /** The alignment score never exceeds this value. */
  const MaxScore := 100

  /** `getInitialState`. */
  function InitialUser(): UserData {
    UserData(
      "Khushi", "khushi@example.com", "SDE @ Product",
      0, false, Free, 0, 124,
      ["Master React", "System Design LLD", "Mock Interviews"], [])
  }

  /** `Partial<UserData>`: the fields a page wants to overwrite. */
  datatype Patch = Patch(
    name: Option<string>, email: Option<string>, role: Option<string>,
    alignmentScore: Option<int>, isPremium: Option<bool>, plan: Option<Plan>,
    tasksCompleted: Option<int>, timeSpent: Option<int>,
    goals: Option<seq<string>>, savedProjects: Option<seq<Projects.Project>>)

  /** The patch that names no field. */
  function NoFields(): Patch {
    Patch(None, None, None, None, None, None, None, None, None, None)
  }

  /** The patch that names every field, with the values of `u`. */
  function AllFields(u: UserData): Patch {
    Patch(Some(u.name), Some(u.email), Some(u.role), Some(u.alignmentScore), Some(u.isPremium),
      Some(u.plan), Some(u.tasksCompleted), Some(u.timeSpent), Some(u.goals), Some(u.savedProjects))
  }

  /** `updateUserData`: `{ ...prev, ...patch }`. */
  function Merge(u: UserData, p: Patch): UserData {
    UserData(
      p.name.GetOr(u.name), p.email.GetOr(u.email), p.role.GetOr(u.role),
      p.alignmentScore.GetOr(u.alignmentScore), p.isPremium.GetOr(u.isPremium),
      p.plan.GetOr(u.plan), p.tasksCompleted.GetOr(u.tasksCompleted),
      p.timeSpent.GetOr(u.timeSpent), p.goals.GetOr(u.goals),
      p.savedProjects.GetOr(u.savedProjects))
  }

  /** `{ ...p, ...q }`: the later patch wins field by field. */
  function Then(p: Patch, q: Patch): Patch {
    Patch(
      if q.name.Some? then q.name else p.name,
      if q.email.Some? then q.email else p.email,
      if q.role.Some? then q.role else p.role,
      if q.alignmentScore.Some? then q.alignmentScore else p.alignmentScore,
      if q.isPremium.Some? then q.isPremium else p.isPremium,
      if q.plan.Some? then q.plan else p.plan,
      if q.tasksCompleted.Some? then q.tasksCompleted else p.tasksCompleted,
      if q.timeSpent.Some? then q.timeSpent else p.timeSpent,
      if q.goals.Some? then q.goals else p.goals,
      if q.savedProjects.Some? then q.savedProjects else p.savedProjects)
  }

  /** A merge changes a field only when the patch names it, and then to the patch's value. */
  lemma MergeOverwritesExactly(u: UserData, p: Patch)
    ensures var r := Merge(u, p);
      && (if p.name.Some? then r.name == p.name.value else r.name == u.name)
      && (if p.email.Some? then r.email == p.email.value else r.email == u.email)
      && (if p.role.Some? then r.role == p.role.value else r.role == u.role)
      && (if p.alignmentScore.Some? then r.alignmentScore == p.alignmentScore.value
          else r.alignmentScore == u.alignmentScore)
      && (if p.isPremium.Some? then r.isPremium == p.isPremium.value else r.isPremium == u.isPremium)
      && (if p.plan.Some? then r.plan == p.plan.value else r.plan == u.plan)
      && (if p.tasksCompleted.Some? then r.tasksCompleted == p.tasksCompleted.value
          else r.tasksCompleted == u.tasksCompleted)
      && (if p.timeSpent.Some? then r.timeSpent == p.timeSpent.value else r.timeSpent == u.timeSpent)
      && (if p.goals.Some? then r.goals == p.goals.value else r.goals == u.goals)
      && (if p.savedProjects.Some? then r.savedProjects == p.savedProjects.value
          else r.savedProjects == u.savedProjects)
  {
  }

  /** An empty patch changes nothing; a full patch replaces the record. */
  lemma MergeExtremes(u: UserData, v: UserData)
    ensures Merge(u, NoFields()) == u
    ensures Merge(u, AllFields(v)) == v
  {
  }

  /** Two updates in a row are one update with the combined patch, and repeating an update changes nothing more. */
  lemma MergeThen(u: UserData, p: Patch, q: Patch)
    ensures Merge(Merge(u, p), q) == Merge(u, Then(p, q))
    ensures Merge(Merge(u, p), p) == Merge(u, p)
  {
  }

  /** `increaseAlignment`: add `amount` to the score, capped at 100. */
  function IncreaseAlignment(u: UserData, amount: int): (r: UserData)
    ensures r == u.(alignmentScore := r.alignmentScore)
    ensures r.alignmentScore <= MaxScore
    ensures r.alignmentScore == u.alignmentScore + amount || r.alignmentScore == MaxScore
    ensures u.alignmentScore + amount <= MaxScore ==> r.alignmentScore == u.alignmentScore + amount
  {
    var sum := u.alignmentScore + amount;
    u.(alignmentScore := if sum < MaxScore then sum else MaxScore)
  }

  /** With non-negative increments a score in 0..100 stays in 0..100 and never falls. */
  lemma ScoreStaysInRange(u: UserData, amount: int)
    requires 0 <= u.alignmentScore <= MaxScore && amount >= 0
    ensures u.alignmentScore <= IncreaseAlignment(u, amount).alignmentScore <= MaxScore
  {
  }

  /** Whether a project with the same id is already saved (`find(p => p.id === project.id)`). */
  predicate IsSaved(u: UserData, p: Projects.Project) {
    exists q <- u.savedProjects :: q.id == p.id
  }

  /** `handleSaveProject`: nothing changes when the id is already saved; otherwise the project goes last. */
  function SaveProject(u: UserData, p: Projects.Project): (r: UserData)
    ensures r == u.(savedProjects := r.savedProjects)
    ensures IsSaved(u, p) <==> r == u
    ensures !IsSaved(u, p) ==> r.savedProjects == u.savedProjects + [p]
    ensures p.id in Projects.Ids(r.savedProjects)
    ensures NoDup(Projects.Ids(u.savedProjects)) ==> NoDup(Projects.Ids(r.savedProjects))
  {
    if IsSaved(u, p) then
      var q :| q in u.savedProjects && q.id == p.id;
      var k :| 0 <= k < |u.savedProjects| && u.savedProjects[k] == q;
      assert Projects.Ids(u.savedProjects)[k] == p.id;
      u
    else
      var r := u.(savedProjects := u.savedProjects + [p]);
      assert Projects.Ids(r.savedProjects) == Projects.Ids(u.savedProjects) + [p.id];
      assert p.id !in Projects.Ids(u.savedProjects) by {
        forall k | 0 <= k < |u.savedProjects| ensures Projects.Ids(u.savedProjects)[k] != p.id {
          assert u.savedProjects[k] in u.savedProjects;
        }
      }
      r
  }

  /** Saving the same project twice is the same as saving it once. */
  lemma SaveTwice(u: UserData, p: Projects.Project)
    ensures SaveProject(SaveProject(u, p), p) == SaveProject(u, p)
  {
    assert IsSaved(SaveProject(u, p), p) by {
      var r := SaveProject(u, p);
      var k := IndexOf(Projects.Ids(r.savedProjects), p.id);
      assert r.savedProjects[k] in r.savedProjects;
    }
  }

  /** An id is saved exactly when it is among the ids of the saved projects. */
  lemma IsSavedIff(u: UserData, p: Projects.Project)
    ensures IsSaved(u, p) <==> p.id in Projects.Ids(u.savedProjects)
  {
    if IsSaved(u, p) {
      var q :| q in u.savedProjects && q.id == p.id;
      var k :| 0 <= k < |u.savedProjects| && u.savedProjects[k] == q;
      assert Projects.Ids(u.savedProjects)[k] == p.id;
    }
    if p.id in Projects.Ids(u.savedProjects) {
      var k := IndexOf(Projects.Ids(u.savedProjects), p.id);
      assert u.savedProjects[k] in u.savedProjects;
    }
  }

  /** Save clicks one after another, in click order. */
  function SaveAll(u: UserData, ps: seq<Projects.Project>): UserData
    decreases |ps|
  {
    if ps == [] then u else SaveProject(SaveAll(u, ps[..|ps| - 1]), ps[|ps| - 1])
  }

  /** The saved ids are exactly the clicked ids. */
  ghost predicate SameIds(r: seq<Projects.Project>, ps: seq<Projects.Project>) {
    forall x :: x in Projects.Ids(r) <==> x in Projects.Ids(ps)
  }

  /** Each saved project is the one clicked first with its id. */
  ghost predicate FirstOfEach(r: seq<Projects.Project>, ps: seq<Projects.Project>) {
    forall i :: 0 <= i < |r| ==>
      r[i].id in Projects.Ids(ps) && r[i] == ps[IndexOf(Projects.Ids(ps), r[i].id)]
  }

  /** Saved projects appear in the order their ids were first clicked. */
  ghost predicate InClickOrder(r: seq<Projects.Project>, ps: seq<Projects.Project>) {
    forall i, j :: 0 <= i < j < |r| ==>
      IndexOf(Projects.Ids(ps), r[i].id) < IndexOf(Projects.Ids(ps), r[j].id)
  }

  /** What a list of saved projects owes to the clicks `ps` that built it. */
  ghost predicate FirstClicks(r: seq<Projects.Project>, ps: seq<Projects.Project>) {
    NoDup(Projects.Ids(r)) && SameIds(r, ps) && FirstOfEach(r, ps) && InClickOrder(r, ps)
  }

  /** One more click does not move the first click of an id seen before, and a new id is first clicked last. */
  lemma ClickIndex(init: seq<Projects.Project>, p: Projects.Project, x: string)
    ensures Projects.Ids(init + [p]) == Projects.Ids(init) + [p.id]
    ensures x in Projects.Ids(init) ==>
      var k := IndexOf(Projects.Ids(init), x);
      IndexOf(Projects.Ids(init + [p]), x) == k && (init + [p])[k] == init[k]
    ensures x !in Projects.Ids(init) && x == p.id ==> IndexOf(Projects.Ids(init + [p]), x) == |init|
  {
    assert Projects.Ids(init + [p]) == Projects.Ids(init) + [p.id];
    IndexOfAppend(Projects.Ids(init), p.id, x);
  }

  /** A click on a saved id keeps the list and what it owes to the clicks. */
  lemma {:induction false} KnownClick(r: seq<Projects.Project>, init: seq<Projects.Project>, p: Projects.Project)
    requires FirstClicks(r, init) && p.id in Projects.Ids(init)
    ensures FirstClicks(r, init + [p])
  {
    var ps := init + [p];
    ClickIndex(init, p, p.id);
    assert SameIds(r, ps);
    forall i | 0 <= i < |r| ensures r[i].id in Projects.Ids(ps) && r[i] == ps[IndexOf(Projects.Ids(ps), r[i].id)] {
      ClickIndex(init, p, r[i].id);
    }
    forall i, j | 0 <= i < j < |r|
      ensures IndexOf(Projects.Ids(ps), r[i].id) < IndexOf(Projects.Ids(ps), r[j].id)
    {
      ClickIndex(init, p, r[i].id);
      ClickIndex(init, p, r[j].id);
    }
  }

  /** A click on a new id appends the project and keeps what the list owes to the clicks. */
  lemma {:induction false} NewClick(r: seq<Projects.Project>, init: seq<Projects.Project>, p: Projects.Project)
    requires FirstClicks(r, init) && p.id !in Projects.Ids(init)
    ensures FirstClicks(r + [p], init + [p])
  {
    var ps, r2 := init + [p], r + [p];
    ClickIndex(init, p, p.id);
    assert Projects.Ids(r2) == Projects.Ids(r) + [p.id];
    assert NoDup(Projects.Ids(r2));
    assert SameIds(r2, ps);
    forall i | 0 <= i < |r2| ensures r2[i].id in Projects.Ids(ps) && r2[i] == ps[IndexOf(Projects.Ids(ps), r2[i].id)] {
      if i < |r| {
        assert r2[i] == r[i];
        ClickIndex(init, p, r[i].id);
      }
    }
    forall i, j | 0 <= i < j < |r2|
      ensures IndexOf(Projects.Ids(ps), r2[i].id) < IndexOf(Projects.Ids(ps), r2[j].id)
    {
      assert r2[i] == r[i];
      ClickIndex(init, p, r[i].id);
      if j < |r| {
        assert r2[j] == r[j];
        ClickIndex(init, p, r[j].id);
      }
    }
  }

  /**
   * Starting from no saved projects, the saved list holds one project per
   * clicked id, in the order each id was first clicked, and for each id the
   * project of its first click.
   */
  lemma {:induction false} SaveAllFirstWins(u: UserData, ps: seq<Projects.Project>)
    requires u.savedProjects == []
    ensures FirstClicks(SaveAll(u, ps).savedProjects, ps)
    decreases |ps|
  {
    if ps != [] {
      var init, p := ps[..|ps| - 1], ps[|ps| - 1];
      assert ps == init + [p];
      SaveAllFirstWins(u, init);
      var before := SaveAll(u, init);
      IsSavedIff(before, p);
      if p.id in Projects.Ids(init) {
        KnownClick(before.savedProjects, init, p);
      } else {
        NewClick(before.savedProjects, init, p);
      }
    } else {
      assert Projects.Ids(ps) == [];
    }
  }

  /** `handleClearData`: the initial record, keeping the current name and email, with nothing saved. */
  function ClearData(u: UserData): (r: UserData)
    ensures r.name == u.name && r.email == u.email && r.savedProjects == []
    ensures r == InitialUser().(name := u.name, email := u.email)
  {
    InitialUser().(name := u.name, email := u.email, savedProjects := [])
  }

  /** After a reset nothing of the old record but its name and email remains. */
  lemma ClearForgets(u: UserData, v: UserData)
    requires u.name == v.name && u.email == v.email
    ensures ClearData(u) == ClearData(v)
    ensures ClearData(ClearData(u)) == ClearData(u)
    ensures ClearData(u) == Merge(InitialUser(), NoFields().(name := Some(u.name), email := Some(u.email)))
  {
  }

  /** What the record always satisfies: the score within 0..100 and no project saved twice. */
  ghost predicate UserInv(u: UserData) {
    0 <= u.alignmentScore <= MaxScore && NoDup(Projects.Ids(u.savedProjects))
  }

  /** A patch that keeps the record's invariant: the pages' patches name only name, role, plan and premium status. */
  ghost predicate PatchOk(p: Patch) {
    && (p.alignmentScore.Some? ==> 0 <= p.alignmentScore.value <= MaxScore)
    && (p.savedProjects.Some? ==> NoDup(Projects.Ids(p.savedProjects.value)))
  }

  datatype Page = OnDashboard | OnRoadmap | OnProjects | OnPremium | OnSettings

  /** The shell's `useState` variables. */
  datatype AppState = AppState(
    roadmapOpen: bool, authOpen: bool, onboardingOpen: bool, loggedIn: bool,
    logoutOpen: bool, page: Page, authMode: Auth.Mode, user: UserData)

  function InitialApp(): AppState {
    AppState(false, false, false, false, false, OnDashboard, Auth.LoginMode, InitialUser())
  }

  /** The callbacks the handlers schedule with `setTimeout`. */
  datatype Timer = ShowOnboarding | EnterAfterLogin | EnterAfterOnboarding

  /** The delay, in milliseconds, each timer is scheduled with. */
  function Delay(t: Timer): (ms: int)
    ensures ms == (if t == EnterAfterOnboarding then 500 else 300)
  {
    match t
    case ShowOnboarding => 300
    case EnterAfterLogin => 300
    case EnterAfterOnboarding => 500
  }

  datatype Event =
    | OpenAuth(mode: Auth.Mode)
    | CloseAuth
    | SignupSuccess
    | LoginSuccess
    | OnboardingComplete
    | Fire(timer: Timer)
    | OpenRoadmap
    | CloseRoadmap
    | Navigate(target: Page)
    | AskLogout
    | LogoutConfirm
    | LogoutCancel
    | UpdateUser(patch: Patch)
    | IncreaseScore(amount: int)
    | SaveClicked(project: Projects.Project)
    | ClearClicked

  datatype Reaction = Reaction(state: AppState, scheduled: Option<Timer>)

  /**
   * One event. The login button, the hero and the footer exist only on the
   * landing page (logged out); the sidebar only when logged in; the logout
   * modal's buttons only while it is open. Timers fire whatever is on screen.
   */
  function Step(s: AppState, e: Event): Reaction {
    match e
    case OpenAuth(m) =>
      Reaction(if s.loggedIn then s else s.(authMode := m, authOpen := true), None)
    case CloseAuth => Reaction(s.(authOpen := false), None)
    case SignupSuccess => Reaction(s.(authOpen := false), Some(ShowOnboarding))
    case LoginSuccess => Reaction(s.(authOpen := false), Some(EnterAfterLogin))
    case OnboardingComplete => Reaction(s.(onboardingOpen := false), Some(EnterAfterOnboarding))
    case Fire(t) =>
      (match t
       case ShowOnboarding => Reaction(s.(onboardingOpen := true), None)
       case _ => Reaction(s.(loggedIn := true, page := OnDashboard), None))
    case OpenRoadmap => Reaction(if s.loggedIn then s else s.(roadmapOpen := true), None)
    case CloseRoadmap => Reaction(s.(roadmapOpen := false), None)
    case Navigate(p) => Reaction(if s.loggedIn then s.(page := p) else s, None)
    case AskLogout => Reaction(if s.loggedIn then s.(logoutOpen := true) else s, None)
    case LogoutConfirm =>
      Reaction(if s.logoutOpen then s.(logoutOpen := false, loggedIn := false, page := OnDashboard) else s, None)
    case LogoutCancel =>
      Reaction(if s.logoutOpen then s.(logoutOpen := false, page := OnDashboard) else s, None)
    case UpdateUser(p) => Reaction(s.(user := Merge(s.user, p)), None)
    case IncreaseScore(n) => Reaction(s.(user := IncreaseAlignment(s.user, n)), None)
    case SaveClicked(p) => Reaction(s.(user := SaveProject(s.user, p)), None)
    case ClearClicked => Reaction(s.(user := ClearData(s.user)), None)
  }

  /** Login success closes the modal at once and, when its timer fires, logs in on the dashboard. */
  lemma LoginPath(s: AppState)
    ensures var r := Step(s, LoginSuccess);
      && !r.state.authOpen && r.state.loggedIn == s.loggedIn && r.scheduled == Some(EnterAfterLogin)
      && var t := Step(r.state, Fire(EnterAfterLogin)).state;
         t.loggedIn && t.page == OnDashboard && !t.authOpen && t.user == s.user
  {
  }

  /** Signup success opens onboarding after its timer and does not log the user in. */
  lemma SignupPath(s: AppState)
    ensures var r := Step(s, SignupSuccess);
      && !r.state.authOpen && r.scheduled == Some(ShowOnboarding)
      && var t := Step(r.state, Fire(ShowOnboarding)).state;
         t.onboardingOpen && t.loggedIn == s.loggedIn && !t.authOpen
  {
  }

  /** Completing onboarding closes it and, after its timer, logs in on the dashboard. */
  lemma OnboardingPath(s: AppState)
    ensures var r := Step(s, OnboardingComplete);
      && !r.state.onboardingOpen && r.scheduled == Some(EnterAfterOnboarding)
      && var t := Step(r.state, Fire(EnterAfterOnboarding)).state;
         t.loggedIn && t.page == OnDashboard && !t.onboardingOpen
  {
  }

  /** Confirming logout logs out; cancelling keeps the session; both close the modal and show the dashboard. */
  lemma LogoutPaths(s: AppState)
    requires s.logoutOpen
    ensures var c := Step(s, LogoutConfirm).state;
      !c.loggedIn && !c.logoutOpen && c.page == OnDashboard && c.user == s.user
    ensures var k := Step(s, LogoutCancel).state;
      k.loggedIn == s.loggedIn && !k.logoutOpen && k.page == OnDashboard && k.user == s.user
  {
  }

  /** Only a fired login or onboarding timer logs a user in. */
  lemma {:induction false} LoginOnlyByTimer(s: AppState, e: Event)
    requires !s.loggedIn && Step(s, e).state.loggedIn
    ensures e == Fire(EnterAfterLogin) || e == Fire(EnterAfterOnboarding)
  {
  }

  /** Events the pages can send without breaking the record's invariant. */
  ghost predicate EventOk(e: Event) {
    && (e.IncreaseScore? ==> e.amount >= 0)
    && (e.UpdateUser? ==> PatchOk(e.patch))
  }

  /** Every event keeps the score within 0..100 and saved ids distinct. */
  lemma {:induction false} StepKeepsUserInv(s: AppState, e: Event)
    requires UserInv(s.user) && EventOk(e)
    ensures UserInv(Step(s, e).state.user)
  {
    match e {
      case UpdateUser(p) =>
        MergeOverwritesExactly(s.user, p);
      case IncreaseScore(n) =>
        ScoreStaysInRange(s.user, n);
      case ClearClicked =>
        assert Projects.Ids(ClearData(s.user).savedProjects) == [];
      case _ =>
    }
  }

  class AppView {
    var isRoadmapOpen: bool
    var isAuthOpen: bool
    var isOnboardingOpen: bool
    var isLoggedIn: bool
    var isLogoutModalOpen: bool
    var activePage: Page
    var authMode: Auth.Mode
    var userData: UserData

    function State(): AppState
      reads this
    {
      AppState(isRoadmapOpen, isAuthOpen, isOnboardingOpen, isLoggedIn,
        isLogoutModalOpen, activePage, authMode, userData)
    }

    constructor ()
      ensures State() == InitialApp()
    {
      isRoadmapOpen := false;
      isAuthOpen := false;
      isOnboardingOpen := false;
      isLoggedIn := false;
      isLogoutModalOpen := false;
      activePage := OnDashboard;
      authMode := Auth.LoginMode;
      userData := InitialUser();
    }

    /** `openAuth`, from the login button, the hero or the footer. */
    method OpenAuthModal(mode: Auth.Mode)
      modifies this
      ensures Reaction(State(), None) == Step(old(State()), OpenAuth(mode))
    {
      if !isLoggedIn {
        authMode := mode;
        isAuthOpen := true;
      }
    }

    /** The auth modal's close button. */
    method CloseAuthModal()
      modifies this
      ensures Reaction(State(), None) == Step(old(State()), CloseAuth)
    {
      isAuthOpen := false;
    }

    /** `handleSignupSuccess`; returns the timer it schedules. */
    method HandleSignupSuccess() returns (timer: Option<Timer>)
      modifies this
      ensures Reaction(State(), timer) == Step(old(State()), SignupSuccess)
    {
      isAuthOpen := false;
      timer := Some(ShowOnboarding);
    }

    /** `handleLoginSuccess`; returns the timer it schedules. */
    method HandleLoginSuccess() returns (timer: Option<Timer>)
      modifies this
      ensures Reaction(State(), timer) == Step(old(State()), LoginSuccess)
    {
      isAuthOpen := false;
      timer := Some(EnterAfterLogin);
    }

    /** `handleOnboardingComplete`; returns the timer it schedules. */
    method HandleOnboardingComplete() returns (timer: Option<Timer>)
      modifies this
      ensures Reaction(State(), timer) == Step(old(State()), OnboardingComplete)
    {
      isOnboardingOpen := false;
      timer := Some(EnterAfterOnboarding);
    }

    /** A scheduled callback runs. */
    method TimerFires(t: Timer)
      modifies this
      ensures Reaction(State(), None) == Step(old(State()), Fire(t))
    {
      if t == ShowOnboarding {
        isOnboardingOpen := true;
      } else {
        isLoggedIn := true;
        activePage := OnDashboard;
      }
    }

    /** The hero's roadmap button. */
    method OpenRoadmapOverlay()
      modifies this
      ensures Reaction(State(), None) == Step(old(State()), OpenRoadmap)
    {
      if !isLoggedIn { isRoadmapOpen := true; }
    }

    /** The roadmap overlay's close button. */
    method CloseRoadmapOverlay()
      modifies this
      ensures Reaction(State(), None) == Step(old(State()), CloseRoadmap)
    {
      isRoadmapOpen := false;
    }

    /** A sidebar entry, or the dashboard's roadmap button. */
    method NavigateTo(target: Page)
      modifies this
      ensures Reaction(State(), None) == Step(old(State()), Navigate(target))
    {
      if isLoggedIn { activePage := target; }
    }

    /** The sidebar's logout button. */
    method LogoutClicked()
      modifies this
      ensures Reaction(State(), None) == Step(old(State()), AskLogout)
    {
      if isLoggedIn { isLogoutModalOpen := true; }
    }

    /** `handleLogoutConfirm`. */
    method HandleLogoutConfirm()
      modifies this
      ensures Reaction(State(), None) == Step(old(State()), LogoutConfirm)
    {
      if isLogoutModalOpen {
        isLogoutModalOpen := false;
        isLoggedIn := false;
        activePage := OnDashboard;
      }
    }

    /** `handleLogoutCancel`. */
    method HandleLogoutCancel()
      modifies this
      ensures Reaction(State(), None) == Step(old(State()), LogoutCancel)
    {
      if isLogoutModalOpen {
        isLogoutModalOpen := false;
        activePage := OnDashboard;
      }
    }

    /** `updateUserData`. */
    method UpdateUserData(patch: Patch)
      modifies this
      ensures Reaction(State(), None) == Step(old(State()), UpdateUser(patch))
    {
      userData := Merge(userData, patch);
    }

    /** `increaseAlignment`. */
    method IncreaseAlignmentBy(amount: int)
      modifies this
      ensures Reaction(State(), None) == Step(old(State()), IncreaseScore(amount))
    {
      userData := IncreaseAlignment(userData, amount);
    }

    /** `handleSaveProject`. */
    method HandleSaveProject(project: Projects.Project)
      modifies this
      ensures Reaction(State(), None) == Step(old(State()), SaveClicked(project))
    {
      userData := SaveProject(userData, project);
    }

    /** `handleClearData`. */
    method HandleClearData()
      modifies this
      ensures Reaction(State(), None) == Step(old(State()), ClearClicked)
    {
      userData := ClearData(userData);
    }
  }
}
