/**
 * The onboarding wizard: seven questions answered one step at a time, a
 * per-step validity check that enables the Next button, multi-selects for
 * roles (at most three) and strengths, and the "processing" sequence that
 * the final step starts.
 *
 * Every handler is a pure transition on `WizardState`; the class
 * `OnboardingModalView` holds the component's state variables as fields and
 * its methods are specified by those transitions. The `setTimeout` calls of
 * the submit handler become explicit `Timer` values that fire later.
 */
module Onboarding {
  import opened Lists

  datatype Preferences = Preferences(companies: string, learningStyle: string)

  /** The answers collected so far. */
  datatype FormData = FormData(
    academicStage: string,
    primaryGoal: string,
    roles: seq<string>,
    confidence: int,
    strengths: seq<string>,
    timeCommitment: string,
    preferences: Preferences)

  /** The choices each step offers. */
  const Years: seq<string> := ["1st Year", "2nd Year", "3rd Year", "Final Year"]
  const Goals: seq<string> := ["Placement", "Higher Studies", "Internship", "Startup / Freelance"]
  const RoleOptions: seq<string> :=
    ["Software Engineer", "Web Developer", "Data / AI", "UI/UX Designer", "Product Manager"]
  const StrengthOptions: seq<string> :=
    ["Logical Thinking", "Visual Creativity", "Consistency", "Communication"]
  const TimeOptions: seq<string> := ["< 1 hour", "1–2 hours", "2–3 hours", "3+ hours"]
  const LearningStyles: seq<string> := ["Video", "Text", "Hands-on"]

  /** The labels of the submit sequence; only their number matters to the schedule. */
  const Stages: seq<string> :=
    ["Analyzing your inputs...", "Mapping skill paths...", "Aligning goals...", "Finalizing Roadmap"]

  const LastStep := 7
  const MaxRoles := 3
  const StageDelay := 1200
  const CompleteGrace := 500

  function EmptyForm(): FormData {
    FormData("", "", [], 1, [], "", Preferences("", ""))
  }

  /** Whether the Next button is enabled on `step` for the answers in `f`. */
  function IsStepValid(step: int, f: FormData): (ok: bool)
    ensures ok ==> 1 <= step <= LastStep
  {
    match step
    case 1 => f.academicStage != ""
    case 2 => f.primaryGoal != ""
    case 3 => |f.roles| > 0
    case 4 => true
    case 5 => |f.strengths| > 0
    case 6 => f.timeCommitment != ""
    case 7 => f.preferences.learningStyle != ""
    case _ => false
  }

  /** A blank form only passes the confidence step, whose slider always holds a value. */
  lemma EmptyFormValidOnlyAtConfidence(step: int)
    ensures IsStepValid(step, EmptyForm()) <==> step == 4
  {
  }

  /** The role chip handler: deselect a chosen role, add a new one while fewer than three are chosen. */
  function ToggleRole(roles: seq<string>, role: string): (r: seq<string>)
    ensures role in roles ==> role !in r && forall y :: y in r <==> y in roles && y != role
    ensures role !in roles && |roles| < MaxRoles ==> r == roles + [role]
    ensures role !in roles && |roles| >= MaxRoles ==> r == roles
    ensures |roles| <= MaxRoles ==> |r| <= MaxRoles
    ensures NoDup(roles) ==> NoDup(r)
  {
    if role in roles then RemoveAll(roles, role)
    else if |roles| < MaxRoles then
      assert NoDup(roles) ==> NoDup(roles + [role]) by {
        if NoDup(roles) { NoDupAppend(roles, role); }
      }
      roles + [role]
    else roles
  }

  /** The strength card handler: deselect a chosen strength, otherwise add it; there is no cap. */
  function ToggleStrength(strengths: seq<string>, s: string): (r: seq<string>)
    ensures s in strengths ==> s !in r && forall y :: y in r <==> y in strengths && y != s
    ensures s !in strengths ==> r == strengths + [s]
    ensures NoDup(strengths) ==> NoDup(r)
  {
    if s in strengths then RemoveAll(strengths, s)
    else
      assert NoDup(strengths) ==> NoDup(strengths + [s]) by {
        if NoDup(strengths) { NoDupAppend(strengths, s); }
      }
      strengths + [s]
  }

  /** Choosing a new role and then deselecting it restores the earlier selection. */
  lemma ToggleRoleTwiceRestores(roles: seq<string>, role: string)
    requires role !in roles && |roles| < MaxRoles
    ensures ToggleRole(ToggleRole(roles, role), role) == roles
  {
    RemoveAllAppend(roles, role, role);
  }

  /** Deselecting a chosen role and choosing it again moves it to the end of the selection. */
  lemma ToggleRoleTwiceMovesLast(roles: seq<string>, role: string)
    requires role in roles && |roles| <= MaxRoles
    ensures ToggleRole(ToggleRole(roles, role), role) == RemoveAll(roles, role) + [role]
  {
  }

  /** Adding a new strength and then deselecting it restores the earlier selection. */
  lemma ToggleStrengthTwiceRestores(strengths: seq<string>, s: string)
    requires s !in strengths
    ensures ToggleStrength(ToggleStrength(strengths, s), s) == strengths
  {
    RemoveAllAppend(strengths, s, s);
  }

  /** One click or keystroke on the panel of a step. */
  datatype Answer =
    | PickYear(year: string)
    | PickGoal(goal: string)
    | ToggleRoleOf(role: string)
    | PickConfidence(level: int)
    | ToggleStrengthOf(strength: string)
    | PickTime(time: string)
    | PickStyle(style: string)
    | TypeCompanies(text: string)

  /** The step whose panel shows the control that produces `a`. */
  function AnswerStep(a: Answer): int {
    match a
    case PickYear(_) => 1
    case PickGoal(_) => 2
    case ToggleRoleOf(_) => 3
    case PickConfidence(_) => 4
    case ToggleStrengthOf(_) => 5
    case PickTime(_) => 6
    case PickStyle(_) => 7
    case TypeCompanies(_) => 7
  }

  /** The panels only offer these values; the companies field takes any text. */
  predicate Offered(a: Answer) {
    match a
    case PickYear(y) => y in Years
    case PickGoal(g) => g in Goals
    case ToggleRoleOf(r) => r in RoleOptions
    case PickConfidence(c) => 0 <= c <= 2
    case ToggleStrengthOf(s) => s in StrengthOptions
    case PickTime(t) => t in TimeOptions
    case PickStyle(s) => s in LearningStyles
    case TypeCompanies(_) => true
  }

  /** The form after answer `a`: each setter spreads the old form and replaces one field. */
  function Apply(f: FormData, a: Answer): FormData {
    match a
    case PickYear(y) => f.(academicStage := y)
    case PickGoal(g) => f.(primaryGoal := g)
    case ToggleRoleOf(r) => f.(roles := ToggleRole(f.roles, r))
    case PickConfidence(c) => f.(confidence := c)
    case ToggleStrengthOf(s) => f.(strengths := ToggleStrength(f.strengths, s))
    case PickTime(t) => f.(timeCommitment := t)
    case PickStyle(s) => f.(preferences := f.preferences.(learningStyle := s))
    case TypeCompanies(c) => f.(preferences := f.preferences.(companies := c))
  }

  /** Answering on one step never changes whether another step is valid. */
  lemma AnswerKeepsOtherSteps(f: FormData, a: Answer, k: int)
    requires k != AnswerStep(a)
    ensures IsStepValid(k, Apply(f, a)) == IsStepValid(k, f)
  {
  }

  /** An offered single-choice answer makes its own step valid. */
  lemma ChoiceValidatesStep(f: FormData, a: Answer)
    requires Offered(a) && !a.ToggleRoleOf? && !a.ToggleStrengthOf? && !a.TypeCompanies?
    ensures IsStepValid(AnswerStep(a), Apply(f, a))
  {
  }

  /** The component's state: `stage` is `processingStage`, `processing` is `isProcessing`. */
  datatype WizardState = WizardState(
    step: int, direction: int, processing: bool, stage: int, form: FormData)

  function Initial(): WizardState {
    WizardState(1, 0, false, 0, EmptyForm())
  }

  /**
   * The Next button. It is disabled while the step is invalid; below the last
   * step it advances, on the last step it submits. While processing the wizard
   * is not on screen.
   */
  function Next(s: WizardState): WizardState {
    if s.processing || !IsStepValid(s.step, s.form) then s
    else if s.step < LastStep then s.(direction := 1, step := s.step + 1)
    else s.(processing := true)
  }

  /** The Back button: steps back above the first step, otherwise does nothing. */
  function Back(s: WizardState): WizardState {
    if s.processing then s
    else if s.step > 1 then s.(direction := -1, step := s.step - 1)
    else s
  }

  /** An answer, which only the panel of the current step can produce. */
  function Choose(s: WizardState, a: Answer): WizardState {
    if s.processing || AnswerStep(a) != s.step then s
    else s.(form := Apply(s.form, a))
  }

  /** A timer set by the submit handler. */
  datatype Timer = StageAt(delay: int, index: int) | CompleteAt(delay: int)

  /** The timers the submit handler sets for `n` stages: one per stage, then completion. */
  function Schedule(n: nat): seq<Timer> {
    seq(n, k requires 0 <= k < n => StageAt(k * StageDelay, k)) + [CompleteAt(n * StageDelay + CompleteGrace)]
  }

  /** A timer firing: a stage timer shows its stage, the completion timer calls `onComplete`. */
  function Fire(s: WizardState, t: Timer): WizardState {
    match t
    case StageAt(_, k) => s.(stage := k)
    case CompleteAt(_) => s
  }

  /** The timers of `ts` fired in order. */
  function FireAll(s: WizardState, ts: seq<Timer>): WizardState
    decreases |ts|
  {
    if ts == [] then s else FireAll(Fire(s, ts[0]), ts[1..])
  }

  /** How many times `onComplete` is called when the timers of `ts` fire. */
  function CompleteCalls(ts: seq<Timer>): nat
    decreases |ts|
  {
    if ts == [] then 0 else (if ts[0].CompleteAt? then 1 else 0) + CompleteCalls(ts[1..])
  }

  function Delay(t: Timer): int {
    match t
    case StageAt(d, _) => d
    case CompleteAt(d) => d
  }

  /** Stage timers of a submission fire in the order they are listed, completion last. */
  lemma ScheduleInDelayOrder(n: nat)
    ensures |Schedule(n)| == n + 1
    ensures forall i, j :: 0 <= i < j < |Schedule(n)| ==> Delay(Schedule(n)[i]) < Delay(Schedule(n)[j])
    ensures forall k :: 0 <= k < n ==> Schedule(n)[k] == StageAt(k * StageDelay, k)
    ensures Schedule(n)[n].CompleteAt?
  {
  }

  /** Stage timers alone never call `onComplete`, and leave the last stage they name on screen. */
  lemma {:induction false} StagesThenComplete(s: WizardState, n: nat, m: nat)
    requires m <= n
    ensures CompleteCalls(Schedule(n)[m..]) == 1
    ensures FireAll(s, Schedule(n)[m..]) == (if m < n then s.(stage := n - 1) else s)
    decreases n - m
  {
    var ts := Schedule(n)[m..];
    if m == n {
      assert ts == [CompleteAt(n * StageDelay + CompleteGrace)];
      assert ts[1..] == [];
    } else {
      assert ts[0] == StageAt(m * StageDelay, m);
      assert ts[1..] == Schedule(n)[m + 1..];
      StagesThenComplete(Fire(s, ts[0]), n, m + 1);
    }
  }

  /** Submitting walks the processing view through stages 0..3 and then calls `onComplete` once. */
  lemma SubmitRunsEveryStage(s: WizardState)
    ensures CompleteCalls(Schedule(|Stages|)) == 1
    ensures FireAll(s, Schedule(|Stages|)).stage == |Stages| - 1 == 3
  {
    StagesThenComplete(s, |Stages|, 0);
    assert Schedule(|Stages|)[0..] == Schedule(|Stages|);
  }

  /** The submit handler's `stages.forEach(... setTimeout ...)` followed by the completion timer. */
  method ScheduleSubmit(stages: seq<string>) returns (timers: seq<Timer>)
    ensures timers == Schedule(|stages|)
  {
    timers := [];
    for index := 0 to |stages|
      invariant timers == seq(index, k requires 0 <= k < index => StageAt(k * StageDelay, k))
    {
      timers := timers + [StageAt(index * StageDelay, index)];
    }
    timers := timers + [CompleteAt(|stages| * StageDelay + CompleteGrace)];
  }

  /** The answers kept on a form: no role or strength twice, at most three roles, a confidence level. */
  ghost predicate FormInv(f: FormData) {
    && NoDup(f.roles) && |f.roles| <= MaxRoles
    && (forall r <- f.roles :: r in RoleOptions)
    && NoDup(f.strengths)
    && (forall x <- f.strengths :: x in StrengthOptions)
    && 0 <= f.confidence <= 2
  }

  /**
   * What holds in every reachable state: the step stays in 1..7, every step
   * already passed is still valid, and a submitted form answers all seven steps.
   */
  ghost predicate Inv(s: WizardState) {
    && 1 <= s.step <= LastStep
    && -1 <= s.direction <= 1
    && (forall k :: 1 <= k < s.step ==> IsStepValid(k, s.form))
    && (s.processing ==> s.step == LastStep && IsStepValid(LastStep, s.form))
    && FormInv(s.form)
  }

  lemma InitialInv()
    ensures Inv(Initial())
  {
  }

  lemma {:induction false} NextKeepsInv(s: WizardState)
    requires Inv(s)
    ensures Inv(Next(s))
  {
    var t := Next(s);
    forall k | 1 <= k < t.step ensures IsStepValid(k, t.form) {
      if k >= s.step { assert k == s.step; }
    }
  }

  lemma {:induction false} BackKeepsInv(s: WizardState)
    requires Inv(s)
    ensures Inv(Back(s))
  {
  }

  lemma {:induction false} ChooseKeepsInv(s: WizardState, a: Answer)
    requires Inv(s) && Offered(a)
    ensures Inv(Choose(s, a))
  {
    var t := Choose(s, a);
    if t != s {
      forall k | 1 <= k < t.step ensures IsStepValid(k, t.form) {
        AnswerKeepsOtherSteps(s.form, a, k);
      }
      if a.ToggleRoleOf? {
        var r := ToggleRole(s.form.roles, a.role);
        forall y <- r ensures y in RoleOptions {
          assert y in s.form.roles || y == a.role;
        }
      }
      if a.ToggleStrengthOf? {
        var r := ToggleStrength(s.form.strengths, a.strength);
        forall y <- r ensures y in StrengthOptions {
          assert y in s.form.strengths || y == a.strength;
        }
      }
    }
  }

  lemma {:induction false} FireKeepsInv(s: WizardState, t: Timer)
    requires Inv(s)
    ensures Inv(Fire(s, t))
  {
  }

  /** Processing starts only from a valid last step, and then every step of the form is answered. */
  lemma {:induction false} SubmitNeedsCompleteForm(s: WizardState)
    requires Inv(s) && !s.processing && Next(s).processing
    ensures s.step == LastStep
    ensures forall k :: 1 <= k <= LastStep ==> IsStepValid(k, s.form)
  {
    forall k | 1 <= k <= LastStep ensures IsStepValid(k, s.form) {
      if k == LastStep { assert IsStepValid(s.step, s.form); }
    }
  }

  /** Next moves forward and Back moves back, recording the direction of the slide. */
  lemma NextThenBack(s: WizardState)
    requires !s.processing && 1 <= s.step < LastStep && IsStepValid(s.step, s.form)
    ensures Next(s).step == s.step + 1 && Next(s).direction == 1
    ensures Back(Next(s)) == s.(direction := -1)
  {
  }

  /**
   * The modal is rendered for the whole session and returns nothing while closed, so its state
   * survives a close: a wizard that finished its run is still processing on the last stage when
   * it opens again. In that state every button and answer is ignored and no timer is pending,
   * so `onComplete` is never called for a second signup.
   */
  lemma {:induction false} ReopenKeepsFinishedWizard(s: WizardState)
    requires Inv(s) && !s.processing && Next(s).processing
    ensures var kept := FireAll(Next(s), Schedule(|Stages|));
      && kept.processing && kept.stage == |Stages| - 1
      && Next(kept) == kept && Back(kept) == kept
      && (forall a :: Choose(kept, a) == kept)
  {
    SubmitRunsEveryStage(Next(s));
    StagesThenComplete(Next(s), |Stages|, 0);
    assert Schedule(|Stages|)[0..] == Schedule(|Stages|);
  }

  /**
   * The suggested fix, not what the component does: opening the modal with a fresh wizard,
   * as remounting it on each opening would give. The component itself keeps its state.
   */
  function Reopen(s: WizardState): (r: WizardState)
    ensures Inv(r) && !r.processing && r.step == 1
  {
    Initial()
  }

  /** After `Reopen`, seven answers and seven Next clicks submit the wizard again, and its timers call `onComplete` once. */
  lemma ReopenedWizardCompletes(s: WizardState)
    ensures var t0 := Reopen(s);
      var t1 := Next(Choose(t0, PickYear("1st Year")));
      var t2 := Next(Choose(t1, PickGoal("Placement")));
      var t3 := Next(Choose(t2, ToggleRoleOf("Software Engineer")));
      var t4 := Next(t3);
      var t5 := Next(Choose(t4, ToggleStrengthOf("Logical Thinking")));
      var t6 := Next(Choose(t5, PickTime("< 1 hour")));
      var t7 := Choose(t6, PickStyle("Video"));
      && !t7.processing && t7.step == LastStep
      && Next(t7).processing
      && CompleteCalls(Schedule(|Stages|)) == 1
  {
    SubmitRunsEveryStage(Reopen(s));
  }

  class OnboardingModalView {
    var step: int
    var direction: int
    var isProcessing: bool
    var processingStage: int
    var formData: FormData

    function State(): WizardState
      reads this
    {
      WizardState(step, direction, isProcessing, processingStage, formData)
    }

    constructor ()
      ensures State() == Initial()
    {
      step := 1;
      direction := 0;
      isProcessing := false;
      processingStage := 0;
      formData := EmptyForm();
    }

    /** Next; on the last step the returned timers are the ones the submit handler sets. */
    method NextButton() returns (timers: seq<Timer>)
      modifies this
      ensures State() == Next(old(State()))
      ensures timers == if old(State()).step == LastStep && Next(old(State())) != old(State())
        then Schedule(|Stages|) else []
    {
      timers := [];
      if isProcessing || !IsStepValid(step, formData) {
        return;
      }
      if step < LastStep {
        direction := 1;
        step := step + 1;
      } else {
        isProcessing := true;
        timers := ScheduleSubmit(Stages);
      }
    }

    method BackButton()
      modifies this
      ensures State() == Back(old(State()))
    {
      if !isProcessing && step > 1 {
        direction := -1;
        step := step - 1;
      }
    }

    method Respond(a: Answer)
      modifies this
      ensures State() == Choose(old(State()), a)
    {
      if !isProcessing && AnswerStep(a) == step {
        formData := Apply(formData, a);
      }
    }

    /** A submit timer firing; the result says whether it called `onComplete`. */
    method TimerFires(t: Timer) returns (completed: bool)
      modifies this
      ensures State() == Fire(old(State()), t)
      ensures completed == t.CompleteAt?
    {
      completed := false;
      match t {
        case StageAt(_, k) => processingStage := k;
        case CompleteAt(_) => completed := true;
      }
    }
  }
}
