/**
 * The premium page: two plan cards, and the activation modal a card opens.
 * The modal's form starts from the user record; the activate button works
 * only once the demo disclaimer is agreed to; activation builds the e-mail
 * payload, waits for the send, and then unlocks premium through the shell
 * whether the send succeeded or threw.
 *
 * The send is asynchronous: `Activate` is the click, which sets `loading`
 * and hands the payload out; `Settled` is the awaited send coming back,
 * with whether it threw.
 */
module Premium {
  import opened Wrappers
  import App

  /** The two plans the cards offer. */
  datatype PlanType = MonthlyPlan | YearlyPlan

  /** The plan as the user record stores it. */
  function AsUserPlan(p: PlanType): (r: App.Plan)
    ensures r != App.Free
    ensures r == App.Yearly <==> p == YearlyPlan
  {
    match p
    case MonthlyPlan => App.Monthly
    case YearlyPlan => App.Yearly
  }

  /** The configured e-mail service id, and the placeholder that means "not configured". */
  const ServiceId := "service_placeholder"
  const PlaceholderServiceId := "service_placeholder"

  /** What a monthly payload carries instead of a long-term goal. */
  const NotApplicable := "N/A"

  const DefaultPurpose := "All of the above"
  const DefaultGoal := "Placement"

  /** The choices the purpose buttons and the two drop-downs offer. */
  const PurposeOptions: seq<string> := ["Resume improvement", "Projects", "Roadmaps", "All of the above"]
  const RoleOptions: seq<string> := ["Software Engineer", "Frontend", "Backend", "Data", "Other"]
  const GoalOptions: seq<string> := ["Internship", "Placement", "Higher Studies", "Startup"]

  /** The modal's form fields. */
  datatype Form = Form(name: string, email: string, role: string, purpose: string, longTermGoal: string, agree: bool)

  /** The form as the modal mounts: name, e-mail and role from the user record, the disclaimer unchecked. */
  function InitialForm(u: App.UserData): Form {
    Form(u.name, u.email, u.role, DefaultPurpose, DefaultGoal, false)
  }

  /** The e-mail template's parameters. */
  datatype TemplateParams = TemplateParams(
    name: string, email: string, plan: PlanType, role: string, purpose: string, longTermGoal: string)

  /**
   * `templateParams`: the form's fields and the plan; the long-term goal
   * goes out only for the yearly plan.
   */
  function Payload(plan: PlanType, f: Form): (r: TemplateParams)
    ensures r.plan == plan
    ensures r.name == f.name && r.email == f.email && r.role == f.role && r.purpose == f.purpose
    ensures plan == YearlyPlan ==> r.longTermGoal == f.longTermGoal
    ensures plan == MonthlyPlan ==> r.longTermGoal == NotApplicable
  {
    TemplateParams(f.name, f.email, plan, f.role, f.purpose,
      if plan == YearlyPlan then f.longTermGoal else NotApplicable)
  }

  /**
   * A monthly payload does not depend on the chosen long-term goal; a yearly
   * payload tells any two goals apart. The disclaimer box never shows in it.
   */
  lemma PayloadGoalRule(f: Form, goal: string)
    ensures Payload(MonthlyPlan, f.(longTermGoal := goal)) == Payload(MonthlyPlan, f)
    ensures Payload(YearlyPlan, f.(longTermGoal := goal)) == Payload(YearlyPlan, f) <==> goal == f.longTermGoal
    ensures Payload(YearlyPlan, f.(agree := !f.agree)) == Payload(YearlyPlan, f)
  {
    if Payload(YearlyPlan, f.(longTermGoal := goal)) == Payload(YearlyPlan, f) {
      assert Payload(YearlyPlan, f.(longTermGoal := goal)).longTermGoal == goal;
    }
  }

  /** What leaves the page when activating: a real send, or the console log of the unconfigured demo. */
  datatype Outbound = EmailSend(params: TemplateParams) | MockLog(params: TemplateParams)

  /** The send goes out through the e-mail service only once a real service id is configured. */
  function Dispatch(params: TemplateParams): (o: Outbound)
    ensures o.params == params
    ensures o.EmailSend? <==> ServiceId != PlaceholderServiceId
  {
    if ServiceId != PlaceholderServiceId then EmailSend(params) else MockLog(params)
  }

  /** With the placeholder id in place, every activation only logs the payload. */
  lemma DemoOnlyLogs(params: TemplateParams)
    ensures Dispatch(params) == MockLog(params)
  {
  }

  /** The modal's own `useState` variables. */
  datatype ModalState = ModalState(form: Form, loading: bool, success: bool)

  function InitialModal(u: App.UserData): ModalState {
    ModalState(InitialForm(u), false, false)
  }

  datatype Event =
    | EditName(name: string)
    | EditEmail(email: string)
    | ChooseRole(role: string)
    | ChoosePurpose(purpose: string)
    | ChooseGoal(goal: string)
    | ToggleAgree
    | Activate
    | Settled(failed: bool)

  /**
   * What an event changes and sends out: the payload handed to the mail
   * service or the log, the plan passed to `onSuccess`, whether an alert is
   * shown, and whether the 2.5 s close timer is set.
   */
  datatype Reaction = Reaction(
    state: ModalState, outbound: Option<Outbound>, notified: Option<PlanType>,
    alerted: bool, closeScheduled: bool)

  function Quiet(s: ModalState): Reaction {
    Reaction(s, None, None, false, false)
  }

  /** The activate button is shown (the form is, until success) and enabled. */
  predicate CanActivate(s: ModalState) {
    !s.success && s.form.agree && !s.loading
  }

  /**
   * One event for the modal opened on `plan`. The form and its buttons are
   * on screen only until success; the goal drop-down only on the yearly
   * plan; drop-downs and buttons offer only their own options.
   */
  function Step(plan: PlanType, s: ModalState, e: Event): Reaction {
    match e
    case EditName(v) => Quiet(if s.success then s else s.(form := s.form.(name := v)))
    case EditEmail(v) => Quiet(if s.success then s else s.(form := s.form.(email := v)))
    case ChooseRole(v) =>
      Quiet(if !s.success && v in RoleOptions then s.(form := s.form.(role := v)) else s)
    case ChoosePurpose(v) =>
      Quiet(if !s.success && v in PurposeOptions then s.(form := s.form.(purpose := v)) else s)
    case ChooseGoal(v) =>
      Quiet(if !s.success && plan == YearlyPlan && v in GoalOptions then s.(form := s.form.(longTermGoal := v)) else s)
    case ToggleAgree => Quiet(if s.success then s else s.(form := s.form.(agree := !s.form.agree)))
    case Activate =>
      if CanActivate(s) then Reaction(s.(loading := true), Some(Dispatch(Payload(plan, s.form))), None, false, false)
      else Quiet(s)
    case Settled(failed) => Reaction(s.(loading := false, success := true), None, Some(plan), failed, true)
  }

  /**
   * `handleActivate` sends exactly when the button is enabled, with the
   * payload of the current form; with the box unchecked nothing at all
   * happens.
   */
  lemma ActivateGuard(plan: PlanType, s: ModalState)
    ensures Step(plan, s, Activate).outbound.Some? <==> CanActivate(s)
    ensures CanActivate(s) ==> Step(plan, s, Activate).outbound == Some(Dispatch(Payload(plan, s.form)))
    ensures CanActivate(s) ==> Step(plan, s, Activate).state.loading
    ensures !s.form.agree ==> Step(plan, s, Activate) == Quiet(s)
    ensures Step(plan, s, Activate).notified.None?
  {
  }

  /**
   * The try path and the catch path end alike: loading off, success on,
   * `onSuccess(plan)` called, the close timer set. Only the catch path
   * shows the alert.
   */
  lemma BothPathsUnlock(plan: PlanType, s: ModalState)
    ensures Step(plan, s, Settled(false)).state == Step(plan, s, Settled(true)).state
    ensures Step(plan, s, Settled(false)).notified == Step(plan, s, Settled(true)).notified == Some(plan)
    ensures Step(plan, s, Settled(true)).state.success && !Step(plan, s, Settled(true)).state.loading
    ensures Step(plan, s, Settled(false)).closeScheduled && Step(plan, s, Settled(true)).closeScheduled
    ensures Step(plan, s, Settled(true)).alerted && !Step(plan, s, Settled(false)).alerted
  {
  }

  /** A send comes back only while one is pending. */
  predicate EventOk(s: ModalState, e: Event) {
    e.Settled? ==> s.loading
  }

  /** Every event of `es` is possible when it arrives. */
  predicate TraceOk(plan: PlanType, s: ModalState, es: seq<Event>)
    decreases |es|
  {
    es == [] || (EventOk(s, es[0]) && TraceOk(plan, Step(plan, s, es[0]).state, es[1..]))
  }

  /** The state after `es`, and how many times `onSuccess` was called on the way. */
  function Run(plan: PlanType, s: ModalState, es: seq<Event>): (ModalState, nat)
    decreases |es|
  {
    if es == [] then (s, 0)
    else
      var r := Step(plan, s, es[0]);
      var rest := Run(plan, r.state, es[1..]);
      (rest.0, rest.1 + if r.notified.Some? then 1 else 0)
  }

  /** While a send is pending the modal has not succeeded yet. */
  predicate ModalInv(s: ModalState) {
    s.loading ==> !s.success
  }

  /** Along any possible trace, `onSuccess` is called once when the modal turns to success and never otherwise. */
  lemma {:induction false} RunNotifiesOnce(plan: PlanType, s: ModalState, es: seq<Event>)
    requires ModalInv(s) && TraceOk(plan, s, es)
    ensures ModalInv(Run(plan, s, es).0)
    ensures s.success ==> Run(plan, s, es).0.success && Run(plan, s, es).1 == 0
    ensures !s.success ==> Run(plan, s, es).1 == if Run(plan, s, es).0.success then 1 else 0
    decreases |es|
  {
    if es != [] {
      var r := Step(plan, s, es[0]);
      RunNotifiesOnce(plan, r.state, es[1..]);
    }
  }

  /** From the freshly mounted modal, `onSuccess` is called at most once, and exactly once if the modal shows success. */
  lemma ActivationNotifiesAtMostOnce(plan: PlanType, u: App.UserData, es: seq<Event>)
    requires TraceOk(plan, InitialModal(u), es)
    ensures Run(plan, InitialModal(u), es).1 <= 1
    ensures Run(plan, InitialModal(u), es).1 == 1 <==> Run(plan, InitialModal(u), es).0.success
  {
    RunNotifiesOnce(plan, InitialModal(u), es);
  }

  /** The purpose and the long-term goal always hold one of their options. */
  ghost predicate FormInv(f: Form) {
    f.purpose in PurposeOptions && f.longTermGoal in GoalOptions
  }

  /** Every event keeps the purpose and the goal among their options, starting from the mounted form. */
  lemma StepKeepsOptions(plan: PlanType, u: App.UserData, s: ModalState, e: Event)
    requires FormInv(s.form)
    ensures FormInv(InitialForm(u))
    ensures FormInv(Step(plan, s, e).state.form)
  {
    assert PurposeOptions[3] == DefaultPurpose && GoalOptions[1] == DefaultGoal;
  }

  /** Hence a payload's purpose is one of the four options and its goal one of the four goals or "N/A". */
  lemma PayloadFromOptions(plan: PlanType, f: Form)
    requires FormInv(f)
    ensures Payload(plan, f).purpose in PurposeOptions
    ensures Payload(plan, f).longTermGoal in GoalOptions || Payload(plan, f).longTermGoal == NotApplicable
  {
  }

  /** `onSuccess`'s update to the user record: premium on, with the chosen plan. */
  function UnlockPatch(plan: PlanType): (p: App.Patch)
    ensures forall u :: App.Merge(u, p) == u.(isPremium := true, plan := AsUserPlan(plan))
  {
    App.NoFields().(isPremium := Some(true), plan := Some(AsUserPlan(plan)))
  }

  /**
   * Through the shell's `updateUserData`, activation turns premium on and
   * sets the plan; nothing else in the shell changes, and a second
   * activation of the same plan changes nothing more.
   */
  lemma UnlockThroughShell(s: App.AppState, plan: PlanType)
    ensures var r := App.Step(s, App.UpdateUser(UnlockPatch(plan)));
      && r.state == s.(user := s.user.(isPremium := true, plan := AsUserPlan(plan)))
      && r.scheduled.None?
      && r.state.user.isPremium && r.state.user.plan != App.Free
    ensures var once := App.Step(s, App.UpdateUser(UnlockPatch(plan))).state;
      App.Step(once, App.UpdateUser(UnlockPatch(plan))).state == once
  {
  }

  /** The page's own state: which plan's modal is open, if any. */
  class PremiumPageView {
    var selectedPlan: Option<PlanType>

    constructor ()
      ensures selectedPlan.None?
    {
      selectedPlan := None;
    }

    /** A card's button; the cards are under the modal's backdrop while it is open. */
    method SelectPlan(p: PlanType)
      modifies this
      ensures selectedPlan == if old(selectedPlan).None? then Some(p) else old(selectedPlan)
    {
      if selectedPlan.None? {
        selectedPlan := Some(p);
      }
    }

    /** `onClose`: the backdrop, the close and cancel buttons, or the close timer. */
    method Close()
      modifies this
      ensures selectedPlan.None?
    {
      selectedPlan := None;
    }
  }

  /** The activation modal's own `useState` variables, for the plan it was opened on. */
  class ActivationModalView {
    const plan: PlanType
    var name: string
    var email: string
    var role: string
    var purpose: string
    var longTermGoal: string
    var agree: bool
    var loading: bool
    var success: bool

    function State(): ModalState
      reads this
    {
      ModalState(Form(name, email, role, purpose, longTermGoal, agree), loading, success)
    }

    constructor (p: PlanType, u: App.UserData)
      ensures plan == p && State() == InitialModal(u)
    {
      plan := p;
      name := u.name;
      email := u.email;
      role := u.role;
      purpose := DefaultPurpose;
      longTermGoal := DefaultGoal;
      agree := false;
      loading := false;
      success := false;
    }

    /** A text field, a drop-down, a purpose button or the disclaimer box. */
    method Edit(e: Event)
      requires !e.Activate? && !e.Settled?
      modifies this
      ensures Quiet(State()) == Step(plan, old(State()), e)
    {
      if success {
        return;
      }
      match e {
        case EditName(v) => name := v;
        case EditEmail(v) => email := v;
        case ChooseRole(v) => if v in RoleOptions { role := v; }
        case ChoosePurpose(v) => if v in PurposeOptions { purpose := v; }
        case ChooseGoal(v) => if plan == YearlyPlan && v in GoalOptions { longTermGoal := v; }
        case ToggleAgree => agree := !agree;
      }
    }

    /** `handleActivate` up to the awaited send; `outbound` is what it sends or logs. */
    method HandleActivate() returns (outbound: Option<Outbound>)
      modifies this
      ensures Reaction(State(), outbound, None, false, false) == Step(plan, old(State()), Activate)
    {
      outbound := None;
      if success || !agree || loading {
        return;
      }
      loading := true;
      var params := TemplateParams(name, email, plan, role, purpose,
        if plan == YearlyPlan then longTermGoal else NotApplicable);
      outbound := Some(Dispatch(params));
    }

    /**
     * `handleActivate` after the send: the try path, or the catch path when
     * it threw; `notified` is the plan passed to `onSuccess`.
     */
    method SendSettled(failed: bool) returns (notified: Option<PlanType>, alerted: bool, closeScheduled: bool)
      modifies this
      ensures Reaction(State(), None, notified, alerted, closeScheduled) == Step(plan, old(State()), Settled(failed))
    {
      loading := false;
      alerted := failed;
      success := true;
      notified := Some(plan);
      closeScheduled := true;
    }
  }
}
