# careerGPS front end, modelled in Dafny

careerGPS is a single-page React application that guides students through a
career plan. It has an onboarding wizard, a career roadmap with a guided tour, a
dashboard checklist that feeds an "alignment score", a catalog of portfolio
projects with starter code, a demo resume analysis, and a premium upgrade.
There is no backend. Sign-in, the AI analysis and the upgrade e-mail are
mock rules and timers inside the components.

This project models the stateful core of those components. Each source file
becomes one module:

| module | source | what it holds |
|---|---|---|
| `RoadmapPage` | components/RoadmapPage.tsx | the role → graph dataset and its well-formedness, the default-selection effect, the wrapping tour, role/play/node handlers |
| `RoadmapOverlay` | components/RoadmapOverlay.tsx | the sample tree and its shape, the demo that stops after the last node, the lit connection, Escape, the curve control points of both views |
| `Onboarding` | components/OnboardingModal.tsx | the seven-step wizard, per-step validity, the capped role multi-select, the strength toggle set, the timed processing stages |
| `Auth` | components/AuthModal.tsx | the five-rule strength meter, the ordered signup and reset checks, the mock login/signup/reset outcomes, the view machine |
| `App` | App.tsx | the user record and its updaters (patch merge, capped score, de-duplicated saves, reset), and the shell's login/onboarding/logout/page state with its timers |
| `Dashboard` | components/Dashboard.tsx | the greeting by hour, the completion toggle and its +5 bonus, the add-task form, the one-time notification prompt in browser storage |
| `Projects` | components/ProjectsPage.tsx | the thirty-project catalog and its shape, the domain filter, snippet lookup with its fallback, card rules, Save, the resume-analysis steps |
| `Premium` | components/PremiumPage.tsx | plan selection, the activation form, the e-mail payload rule, the agreement guard, unlocking on both the success and the failure path |
| `Lists`, `Wrappers` | — | the array operations the components use (`indexOf`, `filter(e => e !== x)`, `includes`, group flattening) and `Option` for `null`/`undefined` |

Each component is modelled twice, and the two are tied together:

- A pure transition function on a state datatype, where the properties are
  proved as lemmas.
- A `class` whose fields are the component's `useState` variables. Each
  handler is a `method` with a `modifies` clause, and its `ensures` says that
  the new state is the transition function applied to the old one.

An effect that a state change triggers runs in the same transition as the
handler that caused it.

Timers, intervals and awaited promises become explicit events that the
environment delivers later: `Fire`, `Tick`, `...Done`, `Settled`. Their
durations are dropped. The wall clock, the hour of day, the file picked and
the outcome of the e-mail send are parameters.

## Model

| member | source | states |
|---|---|---|
| RoadmapPage.RoadmapDataWellFormed | components/RoadmapPage.tsx:48-118 | every role gets a well-formed graph (a node, distinct ids, edges between existing nodes, coordinates in 0..100); roles other than frontend and backend get the generalist graph |
| RoadmapPage.WellFormedByIds | components/RoadmapPage.tsx:48-118 | a graph whose id column is repetition-free, covers every edge end and whose coordinates are percentages is well formed |
| RoadmapPage.FrontendIds | components/RoadmapPage.tsx:58-76 | the frontend graph's ids are htmlcss, js, react, perf, a11y, system, all distinct |
| RoadmapPage.FrontendEdges | components/RoadmapPage.tsx:58-76 | every frontend edge runs between two of those ids |
| RoadmapPage.FrontendCoordinates | components/RoadmapPage.tsx:58-76 | every frontend node lies within 0..100 on both axes |
| RoadmapPage.BackendIds | components/RoadmapPage.tsx:77-96 | the backend graph's ids are lang, db, api, auth, cache, scale, all distinct |
| RoadmapPage.BackendEdges | components/RoadmapPage.tsx:77-96 | every backend edge runs between two of those ids |
| RoadmapPage.BackendCoordinates | components/RoadmapPage.tsx:77-96 | every backend node lies within 0..100 on both axes |
| RoadmapPage.SdeIds | components/RoadmapPage.tsx:97-116 | the generalist graph's ids are prog, dsa, oop, db, os, sys, all distinct |
| RoadmapPage.SdeEdges | components/RoadmapPage.tsx:97-116 | every generalist edge runs between two of those ids |
| RoadmapPage.SdeCoordinates | components/RoadmapPage.tsx:97-116 | every generalist node lies within 0..100 on both axes |
| RoadmapPage.FrontendWellFormed | components/RoadmapPage.tsx:58-76 | the frontend graph is well formed |
| RoadmapPage.BackendWellFormed | components/RoadmapPage.tsx:77-96 | the backend graph is well formed |
| RoadmapPage.SdeWellFormed | components/RoadmapPage.tsx:97-116 | the generalist graph is well formed |
| RoadmapPage.Nodes | components/RoadmapPage.tsx:131 | the page always renders at least one node, whatever the role |
| RoadmapPage.FindNode | components/RoadmapPage.tsx:132 | the node lookup finds a node exactly when the selection is some node's id, and then returns that node |
| RoadmapPage.SelectedIndex | components/RoadmapPage.tsx:146 | the index is -1 exactly when the lookup finds nothing, else the selected node's position |
| RoadmapPage.DefaultSelection | components/RoadmapPage.tsx:135-140 | the default is a node of the graph: the first active node when there is one, else the first node |
| RoadmapPage.StepMod | components/RoadmapPage.tsx:150 | `(c + 1) % n` is the next index with wrap-around |
| RoadmapPage.TourNext | components/RoadmapPage.tsx:146-151 | a tour step always lands on a node of the graph |
| RoadmapPage.RolesCoverEveryRole | components/RoadmapPage.tsx:34-45 | every role id appears in the sidebar, and no role id appears twice |
| RoadmapPage.DefaultIsFirstActive | components/RoadmapPage.tsx:137-138 | whichever node is the first active one is the default |
| RoadmapPage.FrontendDefault | components/RoadmapPage.tsx:135-140 | on the frontend graph the default selection is `js`, its first active node |
| RoadmapPage.BackendDefault | components/RoadmapPage.tsx:135-140 | on the backend graph the default selection is `db`, its first active node |
| RoadmapPage.SdeDefault | components/RoadmapPage.tsx:135-140 | on the generalist graph the default selection is `dsa`, its first active node |
| RoadmapPage.RoleDefaults | components/RoadmapPage.tsx:135-140 | the default is `js` for frontend, `db` for backend and `dsa` for every other role |
| RoadmapPage.FindNodeAt | components/RoadmapPage.tsx:132-146 | with distinct ids a node is found, and indexed, by its own id |
| RoadmapPage.ClickWhileIdleShowsNode | components/RoadmapPage.tsx:285-319 | clicking any node (locked ones too) while idle selects it and the detail panel shows it |
| RoadmapPage.ClickDuringTourResets | components/RoadmapPage.tsx:285 | clicking during a tour stops it and the effect resets the selection to the default, not the clicked node |
| RoadmapPage.ChooseRoleOutcome | components/RoadmapPage.tsx:135-178 | choosing a role stops the tour; the selection becomes the role's default unless neither dependency changed |
| RoadmapPage.TogglePlayOutcome | components/RoadmapPage.tsx:232 | starting the tour keeps the selection; pausing it resets to the default |
| RoadmapPage.TourNextFrom | components/RoadmapPage.tsx:146-151 | from a resolving node the tour moves to the next index, wrapping after the last |
| RoadmapPage.TourFromUnresolved | components/RoadmapPage.tsx:146-147 | from an unresolved selection the tour continues as if from node 0 |
| RoadmapPage.TickStep | components/RoadmapPage.tsx:149-153 | k ticks are one tick after k-1 ticks |
| RoadmapPage.TourPosition | components/RoadmapPage.tsx:143-156 | k ticks (k at most the node count) from node i select node i+k modulo the node count, and the tour keeps running |
| RoadmapPage.TourReturnsAfterOneLap | components/RoadmapPage.tsx:143-156 | one tick per node brings the tour back to where it started |
| RoadmapPage.RoleTourReturns | components/RoadmapPage.tsx:131-156 | on every role's graph a tour is back on its start node after one lap |
| RoadmapPage.IntervalStep | components/RoadmapPage.tsx:149-153 | one firing of the interval closure agrees with one tick of the page |
| RoadmapPage.TourTrace | components/RoadmapPage.tsx:149-153 | m ticks produce m selections |
| RoadmapPage.TraceExtends | components/RoadmapPage.tsx:149-153 | recording the selection of the next tick extends the record of the tour by exactly that selection |
| RoadmapPage.TourInterval | components/RoadmapPage.tsx:144-153 | the closure with its private `currentIndex` shows exactly the selections the page's ticks make |
| RoadmapPage.RoadmapPageView.constructor | components/RoadmapPage.tsx:121-140 | the first render: role `sde`, tour off, the default node selected |
| RoadmapPage.RoadmapPageView.SelectRole | components/RoadmapPage.tsx:178 | a role button performs the role transition |
| RoadmapPage.RoadmapPageView.PlayButton | components/RoadmapPage.tsx:232 | the play button performs the play transition |
| RoadmapPage.RoadmapPageView.NodeClick | components/RoadmapPage.tsx:285 | a node button performs the click transition |
| RoadmapPage.RoadmapPageView.TourTick | components/RoadmapPage.tsx:143-156 | an interval firing performs one tick on the current role's graph |
| RoadmapPage.RoadmapPageView.CloseDetailPanel | components/RoadmapPage.tsx:337 | the panel's close button clears the selection |
| RoadmapOverlay.SampleColumns | components/RoadmapOverlay.tsx:45-79 | the sample's ten nodes carry, in order, the ids root, b1, b1-1, b1-2, b2, b2-1, b2-2, b3, b3-1, b3-2 and the parent links root, b1, b1, root, b2, b2, root, b3, b3 |
| RoadmapOverlay.SampleColumnsOrdered | components/RoadmapOverlay.tsx:45-79 | those ids are distinct and every parent link after the first names an earlier id |
| RoadmapOverlay.TreeFacts | components/RoadmapOverlay.tsx:45-79 | a parents-first tree has distinct ids and a parent for every node after the first |
| RoadmapOverlay.SampleShape | components/RoadmapOverlay.tsx:45-79 | the sample has ten nodes with distinct ids, only the first has no parent, and every parent appears before its children |
| RoadmapOverlay.FindNode | components/RoadmapOverlay.tsx:130 | the lookup finds a node exactly when the id is some node's id, and then returns that node |
| RoadmapOverlay.SelectedIndex | components/RoadmapOverlay.tsx:87 | the index is -1 exactly when the lookup finds nothing, else the selected node's position |
| RoadmapOverlay.SelectedIndexAt | components/RoadmapOverlay.tsx:87-130 | with distinct ids a node is found, and indexed, by its own id |
| RoadmapOverlay.PanelHeading | components/RoadmapOverlay.tsx:285 | the panel heading is "Start Point" for the root, else the node's month when it is non-empty, else "Phase Detail" |
| RoadmapOverlay.SampleHeadings | components/RoadmapOverlay.tsx:285 | on the sample tree the root is headed "Start Point", the three branches "Month 1" to "Month 3", and a leaf "Phase Detail" |
| RoadmapOverlay.EdgeOf | components/RoadmapOverlay.tsx:216-233 | the edge into a node runs from its resolved parent to it, starting at the parent's position and ending at the node's in the current view (`x`/`y` in map view, `timelineX`/`timelineY` in timeline view), and glows exactly when it is the lit connection |
| RoadmapOverlay.Links | components/RoadmapOverlay.tsx:215-235 | every drawn edge is the edge into one of the nodes, from its resolved parent, between the two view positions; every node whose non-empty parent id names a node gets its edge; an edge glows exactly when it is the lit connection |
| RoadmapOverlay.TargetsAmong | components/RoadmapOverlay.tsx:215-235 | an id that no node carries is the target of no edge |
| RoadmapOverlay.OneEdgePerNode | components/RoadmapOverlay.tsx:215-235 | with distinct node ids, no node has two edges drawn into it |
| RoadmapOverlay.NoEdgeWithoutParent | components/RoadmapOverlay.tsx:216-218 | with distinct node ids, a node whose parent id is missing, empty or names no node has no edge drawn into it |
| RoadmapOverlay.EdgeCurve | components/RoadmapOverlay.tsx:337-347 | the curve starts and ends at the edge's endpoints; map view bends vertically through the middle height, timeline view horizontally through the middle width |
| RoadmapOverlay.TransitionsKeepSettled | components/RoadmapOverlay.tsx:112-114 | every event keeps the lit edge cleared while the demo is off |
| RoadmapOverlay.PlayStartsAtFirstNode | components/RoadmapOverlay.tsx:170-174 | Play selects the first node and lights nothing yet |
| RoadmapOverlay.DemoTicksStep | components/RoadmapOverlay.tsx:85-110 | k ticks are one tick after k-1 ticks |
| RoadmapOverlay.DemoStep | components/RoadmapOverlay.tsx:87-109 | from node j a tick selects node j+1 and lights the edge from its parent |
| RoadmapOverlay.DemoStopsAfterLast | components/RoadmapOverlay.tsx:88-94 | from the last node a tick stops the demo, keeps the selection and clears the lit edge |
| RoadmapOverlay.DemoWalk | components/RoadmapOverlay.tsx:82-116 | k ticks from node i, in a list with distinct ids where every node after the first has a parent, select node i+k with the edge from its parent lit; the demo keeps running and nothing else changes |
| RoadmapOverlay.DemoRunsToEndThenStops | components/RoadmapOverlay.tsx:82-116 | after Play the demo walks every node in array order to the last and the next tick stops it with nothing lit |
| RoadmapOverlay.SampleDemo | components/RoadmapOverlay.tsx:45-116 | on the sample: Play selects `root`, nine ticks reach `b3-2`, the tenth stops the demo |
| RoadmapOverlay.LitEdgeIsDrawn | components/RoadmapOverlay.tsx:215-226 | the edge the demo lights is always one of the drawn edges, in either view |
| RoadmapOverlay.EscapeDuringDemoRestarts | components/RoadmapOverlay.tsx:87-128 | Escape during the demo only clears the selection; the next tick restarts at the first node and lights a first-node-to-itself connection that matches no drawn edge, so no edge glows and none enters the first node, in either view |
| RoadmapOverlay.EscapeWithoutSelectionCloses | components/RoadmapOverlay.tsx:119-128 | Escape with nothing selected asks the owner to close and changes nothing; a closed overlay ignores the key |
| RoadmapOverlay.OverlayView.constructor | components/RoadmapOverlay.tsx:31-34 | the component renders the sample nodes and starts in map view, nothing selected, demo off, no lit edge |
| RoadmapOverlay.OverlayView.BecomeVisible | components/RoadmapOverlay.tsx:37-42 | opening on a narrow screen forces the timeline view |
| RoadmapOverlay.OverlayView.ViewButton | components/RoadmapOverlay.tsx:156-162 | the Map and Timeline buttons set the view |
| RoadmapOverlay.OverlayView.PlayButton | components/RoadmapOverlay.tsx:170-174 | Play performs the play transition on the sample nodes |
| RoadmapOverlay.OverlayView.DemoIntervalFires | components/RoadmapOverlay.tsx:85-110 | an interval firing performs one demo tick on the sample nodes |
| RoadmapOverlay.OverlayView.NodeClick | components/RoadmapOverlay.tsx:246 | a node click selects it |
| RoadmapOverlay.OverlayView.CloseDetailButton | components/RoadmapOverlay.tsx:278 | closing the panel clears the selection, and the lit edge unless the demo runs |
| RoadmapOverlay.OverlayView.EscapeKey | components/RoadmapOverlay.tsx:119-128 | the key handler performs the Escape transition and reports the close request |
| Onboarding.IsStepValid | components/OnboardingModal.tsx:41-52 | Next can be enabled only on steps 1 to 7 |
| Onboarding.EmptyFormValidOnlyAtConfidence | components/OnboardingModal.tsx:30-52 | on the blank form exactly the confidence step (4) is valid |
| Onboarding.ToggleRole | components/OnboardingModal.tsx:210-214 | a chosen role is removed and nothing else; a new role is appended while fewer than three are chosen, otherwise ignored; the cap of three and the absence of repeats are kept |
| Onboarding.ToggleStrength | components/OnboardingModal.tsx:296-300 | a chosen strength is removed and nothing else; a new one is appended, with no cap; no repeats |
| Onboarding.ToggleRoleTwiceRestores | components/OnboardingModal.tsx:210-214 | choosing a new role and deselecting it restores the selection exactly |
| Onboarding.ToggleRoleTwiceMovesLast | components/OnboardingModal.tsx:210-214 | deselecting and re-choosing a role moves it to the end |
| Onboarding.ToggleStrengthTwiceRestores | components/OnboardingModal.tsx:296-300 | adding a new strength and deselecting it restores the selection exactly |
| Onboarding.AnswerKeepsOtherSteps | components/OnboardingModal.tsx:153-370 | an answer on one step never changes the validity of another step |
| Onboarding.ChoiceValidatesStep | components/OnboardingModal.tsx:41-52 | picking an offered single choice makes its step valid |
| Onboarding.ScheduleInDelayOrder | components/OnboardingModal.tsx:73-83 | the submit handler sets one timer per stage at 0, 1200, 2400, 3600 ms and the completion timer last, all in increasing delay |
| Onboarding.StagesThenComplete | components/OnboardingModal.tsx:75-83 | the remaining timers call `onComplete` exactly once and leave the last stage on screen |
| Onboarding.SubmitRunsEveryStage | components/OnboardingModal.tsx:70-84 | a submission shows stage 3 last and calls `onComplete` once |
| Onboarding.ScheduleSubmit | components/OnboardingModal.tsx:75-83 | the `forEach` loop sets exactly the scheduled timers |
| Onboarding.InitialInv | components/OnboardingModal.tsx:25-38 | the initial wizard satisfies the invariant |
| Onboarding.NextKeepsInv | components/OnboardingModal.tsx:54-61 | Next keeps the step in 1..7 with every passed step valid, and submits only from a valid step 7 |
| Onboarding.BackKeepsInv | components/OnboardingModal.tsx:63-68 | Back keeps the invariant |
| Onboarding.ChooseKeepsInv | components/OnboardingModal.tsx:153-370 | offered answers keep the invariant: no repeats, at most three roles, options only, confidence 0..2 |
| Onboarding.FireKeepsInv | components/OnboardingModal.tsx:76-83 | submit timers keep the invariant |
| Onboarding.SubmitNeedsCompleteForm | components/OnboardingModal.tsx:54-61 | processing starts only on step 7 with all seven steps answered |
| Onboarding.NextThenBack | components/OnboardingModal.tsx:54-68 | Next advances with direction 1 and Back undoes it with direction -1 |
| Onboarding.OnboardingModalView.constructor | components/OnboardingModal.tsx:25-38 | step 1, no direction, not processing, the blank form |
| Onboarding.OnboardingModalView.NextButton | components/OnboardingModal.tsx:54-61 | the Next button performs the Next transition and, on submission, sets the scheduled timers |
| Onboarding.OnboardingModalView.BackButton | components/OnboardingModal.tsx:63-68 | the Back button performs the Back transition |
| Onboarding.OnboardingModalView.Respond | components/OnboardingModal.tsx:153-370 | a control on the current step's panel applies its answer |
| Onboarding.OnboardingModalView.TimerFires | components/OnboardingModal.tsx:76-83 | a stage timer shows its stage; the completion timer reports `onComplete` |
| Onboarding.ReopenKeepsFinishedWizard | components/OnboardingModal.tsx:24-99 | after a finished run the kept state is still processing on the last stage, and Next, Back and every answer leave it unchanged, so no new timer is set |
| Onboarding.Reopen | components/OnboardingModal.tsx:25-38 | the suggested fix, which the component does not do (it keeps its state while mounted): a wizard reset on opening meets the invariant, starts on step 1 and is not processing |
| Onboarding.ReopenedWizardCompletes | components/OnboardingModal.tsx:54-83 | after reopening, seven answers and Next clicks submit the wizard again, and its timers call `onComplete` once |
| Auth.CountTrue | components/AuthModal.tsx:233 | the count of true rules is at most the number of rules, and equals it exactly when every rule holds |
| Auth.CountTrueCounts | components/AuthModal.tsx:233 | the count is the number of occurrences of `true` in the list |
| Auth.CountFive | components/AuthModal.tsx:233 | five rule outcomes count as the sum of their 0/1 scores |
| Auth.Strength | components/AuthModal.tsx:227-233 | the strength is the number of the five rules the password meets (one point each for length, upper case, lower case, digit, special character), so at most 5, and 5 exactly when all hold |
| Auth.Meter | components/AuthModal.tsx:280-284 | bar `s` of the five is lit exactly when the strength is at least `s`, and emerald exactly when all rules hold |
| Auth.LowerCaseMeter | components/AuthModal.tsx:227-284 | eight lower-case letters meet two rules and light two rose bars |
| Auth.PreviousSignupPasswordIsStrong | components/AuthModal.tsx:227-257 | the password the mock history rejects meets every strength rule, so that check is reachable |
| Auth.SignupCheck | components/AuthModal.tsx:235-249 | signup passes its local checks exactly when the passwords match, all rules hold and the rules box is ticked; a mismatch is reported first, then weakness, then the unticked rules box |
| Auth.SignupMock | components/AuthModal.tsx:255-264 | the mock accepts exactly when the password is not the reused one and the address is not the registered one; reuse is reported first, then the registered address as taken |
| Auth.LoginMock | components/AuthModal.tsx:168-175 | login is refused exactly when the address contains "error", with "Invalid credentials." |
| Auth.ResetCheck | components/AuthModal.tsx:406-415 | a reset passes exactly when the passwords match and differ from the old one; a mismatch is reported first, then reuse of the old password |
| Auth.ResetIgnoresStrength | components/AuthModal.tsx:406-415 | a reset accepts a password that signup refuses as weak |
| Auth.OpenedResets | components/AuthModal.tsx:21-27 | opening shows the requested form with no error and no loading |
| Auth.EmailSentOnlyAfterRequest | components/AuthModal.tsx:341-347 | the "email sent" screen is reached only by a finished forgot-password request |
| Auth.ResetOnlyFromEmailSent | components/AuthModal.tsx:394 | the reset form is reached only by the link on the "email sent" screen |
| Auth.SignupSucceedsExactly | components/AuthModal.tsx:235-264 | signup reports success to the parent exactly for a form passing every local and mock check |
| Auth.SignupErrorKeepsIdle | components/AuthModal.tsx:235-249 | a failing local check only shows the first failing message |
| Auth.LoginRoundTrip | components/AuthModal.tsx:163-176 | a login submission and its timer end idle, with success exactly when the address does not contain "error", else the error message |
| Auth.ResetRoundTrip | components/AuthModal.tsx:406-421 | a successful reset ends on a clean login form |
| Auth.LoadingOnlyWhileWaiting | components/AuthModal.tsx:165-169 | every timer clears loading and only submissions set it |
| Auth.AuthModalView.constructor | components/AuthModal.tsx:16-18 | the requested form, not loading, no error |
| Auth.AuthModalView.Handle | components/AuthModal.tsx:159-447 | each handler performs the modal's transition and reports the parent callback it fires |
| App.MergeOverwritesExactly | App.tsx:106-108 | a merge sets exactly the fields the patch names, to the patch's values, and keeps every other field |
| App.MergeExtremes | App.tsx:106-108 | an empty patch changes nothing; a patch naming every field replaces the record |
| App.MergeThen | App.tsx:106-108 | two merges are one merge of the combined patch, and repeating a merge changes nothing more |
| App.IncreaseAlignment | App.tsx:110-115 | only the score changes; it becomes the sum, capped at 100, and is exact whenever the sum is at most 100 |
| App.ScoreStaysInRange | App.tsx:110-115 | non-negative increments keep a score in 0..100 and never lower it |
| App.SaveProject | App.tsx:117-123 | only the saved list changes; the record is unchanged exactly when the id is already saved, else the project goes last; the id is saved afterwards; ids stay distinct |
| App.SaveTwice | App.tsx:117-123 | saving the same project twice equals saving it once |
| App.IsSavedIff | App.tsx:120 | the duplicate check finds a project exactly when its id is among the saved ids |
| App.ClickIndex | App.tsx:117-123 | a further click does not move the first click of a known id; a new id is first clicked last |
| App.KnownClick | App.tsx:120 | a click on a saved id keeps the list as the clicks determine it |
| App.NewClick | App.tsx:121 | a click on a new id appends it and keeps the list as the clicks determine it |
| App.SaveAllFirstWins | App.tsx:117-123 | from an empty list, any run of save clicks leaves one project per clicked id, the project of the first click on it, in first-click order, ids distinct |
| App.ClearData | App.tsx:125-135 | clearing keeps name and email, saves nothing, and is otherwise the initial record |
| App.ClearForgets | App.tsx:125-135 | the result depends only on name and email; clearing twice equals once; it equals the initial record patched with the name and email |
| App.Delay | App.tsx:72-90 | the login and signup timers wait 300 ms, the onboarding timer 500 ms |
| App.LoginPath | App.tsx:77-83 | login success closes the modal at once and its timer logs in on the dashboard, user unchanged |
| App.SignupPath | App.tsx:70-75 | signup success closes the modal and its timer opens onboarding without logging in |
| App.OnboardingPath | App.tsx:85-91 | completing onboarding closes it and its timer logs in on the dashboard |
| App.LogoutPaths | App.tsx:93-103 | confirming logs out, cancelling keeps the session; both close the modal and show the dashboard; the user record is untouched |
| App.LoginOnlyByTimer | App.tsx:36-135 | only a fired login or onboarding timer logs a user in |
| App.StepKeepsUserInv | App.tsx:106-135 | every event keeps the score in 0..100 and saved ids distinct, given non-negative increments and well-formed patches |
| App.AppView.constructor | App.tsx:36-59 | everything closed, logged out, dashboard page, login mode, the initial user record |
| App.AppView.OpenAuthModal | App.tsx:65-68 | the landing page's buttons set the mode and open the auth modal |
| App.AppView.CloseAuthModal | App.tsx:229 | closing hides the auth modal |
| App.AppView.HandleSignupSuccess | App.tsx:70-75 | closes the auth modal and schedules the onboarding timer |
| App.AppView.HandleLoginSuccess | App.tsx:77-83 | closes the auth modal and schedules the login timer |
| App.AppView.HandleOnboardingComplete | App.tsx:85-91 | closes onboarding and schedules the entry timer |
| App.AppView.TimerFires | App.tsx:72-90 | a fired timer opens onboarding or logs in on the dashboard |
| App.AppView.OpenRoadmapOverlay | App.tsx:161 | the hero's button opens the overlay |
| App.AppView.CloseRoadmapOverlay | App.tsx:224 | the overlay's close request hides it |
| App.AppView.NavigateTo | App.tsx:174-177 | the sidebar sets the active page |
| App.AppView.LogoutClicked | App.tsx:177 | the sidebar's logout opens the confirmation |
| App.AppView.HandleLogoutConfirm | App.tsx:93-97 | confirming performs the logout transition |
| App.AppView.HandleLogoutCancel | App.tsx:99-103 | cancelling performs the cancel transition |
| App.AppView.UpdateUserData | App.tsx:106-108 | merges the patch into the record |
| App.AppView.IncreaseAlignmentBy | App.tsx:110-115 | raises the score with the cap |
| App.AppView.HandleSaveProject | App.tsx:117-123 | saves the project unless its id is saved |
| App.AppView.HandleClearData | App.tsx:125-135 | resets the record, keeping name and email |
| Dashboard.Greeting | components/Dashboard.tsx:34-38 | "Good morning" exactly before 12, "Good afternoon" exactly from 12 to 17, "Good evening" exactly from 18 |
| Dashboard.GreetingOrder | components/Dashboard.tsx:34-38 | the greeting only moves forward through the day |
| Dashboard.ToggleTask | components/Dashboard.tsx:59-66 | the id's membership flips; a new id is appended and earns the bonus of 5; a completed id is removed with no bonus; no id is repeated |
| Dashboard.ToggleFlipsOnlyId | components/Dashboard.tsx:59-66 | a toggle never changes whether another id is completed |
| Dashboard.ToggleTwiceRestores | components/Dashboard.tsx:59-66 | completing and un-completing a task restores the list exactly |
| Dashboard.ToggleNeverLowers | components/Dashboard.tsx:59-66 | with the shell's score update, a toggle never lowers the score nor lifts it past 100 |
| Dashboard.OneCycle | components/Dashboard.tsx:59-66 | completing and un-completing restores the list and adds the bonus once |
| Dashboard.CappedStep | App.tsx:113 | one more capped bonus after n capped bonuses is n+1 capped bonuses |
| Dashboard.IterateBonus | components/Dashboard.tsx:59-66 | repeating any step that keeps the list and adds one bonus adds n bonuses, capped at 100, and changes nothing else |
| Dashboard.CyclesAddBonus | components/Dashboard.tsx:59-66 | n rounds of completing and un-completing the same task restore the list and raise the score by 5 per round up to 100, nothing else changing |
| Dashboard.Submit | components/Dashboard.tsx:223-226 | nothing is added exactly when the name is empty; otherwise the task goes out with the duration defaulting to "30m", and name and duration are cleared while the tag stays |
| Dashboard.SubmitTwiceAddsOnce | components/Dashboard.tsx:226 | a second submit finds the name cleared and adds nothing |
| Dashboard.AddTask | components/Dashboard.tsx:50-57 | the new task is appended after every earlier task, with the clock reading as id, and the form closes; nothing else changes |
| Dashboard.AddTaskKeepsEarlier | components/Dashboard.tsx:50-57 | adding a task never moves or changes an earlier one |
| Dashboard.PromptTimer | components/Dashboard.tsx:41-46 | the prompt opens exactly when storage has no answer recorded; nothing else changes |
| Dashboard.Choose | components/Dashboard.tsx:68-75 | either answer closes the prompt and changes nothing else |
| Dashboard.AnsweredStaysClosed | components/Dashboard.tsx:34-70 | after an answer is stored the prompt never opens on a later mount; without one it opens |
| Dashboard.GoalPatch | components/Dashboard.tsx:156 | the goals modal's save changes the role and nothing else |
| Dashboard.Storage.constructor | components/Dashboard.tsx:42 | storage starts with or without a recorded answer |
| Dashboard.DashboardView.constructor | components/Dashboard.tsx:21-32 | no greeting yet, every modal closed, the two starting tasks, nothing completed |
| Dashboard.DashboardView.Mount | components/Dashboard.tsx:34-38 | the mount effect sets the greeting for the hour |
| Dashboard.DashboardView.PromptTimerFires | components/Dashboard.tsx:41-46 | the delayed check opens the prompt unless storage has an answer |
| Dashboard.DashboardView.NotificationChoice | components/Dashboard.tsx:68-75 | either answer closes the prompt and records the answer in storage |
| Dashboard.DashboardView.Toggle | components/Dashboard.tsx:59-66 | performs the toggle and returns the bonus sent to the shell; completed ids stay distinct |
| Dashboard.DashboardView.AddTaskFrom | components/Dashboard.tsx:50-57 | performs the add-task transition |
| Dashboard.DashboardView.SetModalOpen | components/Dashboard.tsx:88 | opens or closes one modal |
| Dashboard.AddTaskModalView.constructor | components/Dashboard.tsx:223-225 | empty name and duration, tag "Learning" |
| Dashboard.AddTaskModalView.HandleSubmit | components/Dashboard.tsx:226 | performs the submit and returns what is passed to `onAdd` |
| Projects.SnippetKey | components/ProjectsPage.tsx:927 | the key looked up always has a snippet; a project's own id is used exactly when the snippet table has an entry for it, and otherwise the `default` entry |
| Projects.UnknownIdFallsBack | components/ProjectsPage.tsx:927 | an id without its own entry opens the plain-text `default` entry |
| Projects.Filter | components/ProjectsPage.tsx:773-775 | the filtered list is the catalog's projects of the chosen domain, in order |
| Projects.FilterAppend | components/ProjectsPage.tsx:775 | filtering distributes over concatenation, so catalog order is kept |
| Projects.FilterKeepsAll | components/ProjectsPage.tsx:775 | a list whose projects all match is returned whole |
| Projects.FilterDropsAll | components/ProjectsPage.tsx:775 | a list with no matching project filters to nothing |
| Projects.FilterGrouped | components/ProjectsPage.tsx:773-775 | on a catalog laid out in groups of distinct domains, filtering by a group's domain returns exactly that group |
| Projects.IdsAppend | components/ProjectsPage.tsx:77-547 | the ids of a concatenation are the ids of its parts, in order |
| Projects.KeyedIdsDistinct | components/ProjectsPage.tsx:77-547 | groups whose ids start with distinct two-letter keys and are distinct within the group have distinct ids throughout |
| Projects.MedicalGroupOk | components/ProjectsPage.tsx:78-123 | the Medical group holds three Medical projects with distinct "me" ids, each with its own snippet, at least three skills and a non-empty first tag |
| Projects.ProductivityGroupOk | components/ProjectsPage.tsx:125-170 | the same for the Productivity group with key "pr" |
| Projects.FinTechGroupOk | components/ProjectsPage.tsx:172-217 | the same for the FinTech group with key "fi" |
| Projects.ECommerceGroupOk | components/ProjectsPage.tsx:219-264 | the same for the E-commerce group with key "ec" |
| Projects.EducationGroupOk | components/ProjectsPage.tsx:266-311 | the same for the Education group with key "ed" |
| Projects.SocialImpactGroupOk | components/ProjectsPage.tsx:313-358 | the same for the Social Impact group with key "so" |
| Projects.MachineLearningGroupOk | components/ProjectsPage.tsx:360-405 | the same for the AI / Machine Learning group with key "ai" |
| Projects.DeveloperToolsGroupOk | components/ProjectsPage.tsx:407-452 | the same for the Developer Tools group with key "de" |
| Projects.CreativeTechGroupOk | components/ProjectsPage.tsx:454-499 | the same for the Creative Tech group with key "cr" |
| Projects.SecurityGroupOk | components/ProjectsPage.tsx:501-546 | the same for the Security & Auth group with key "se" |
| Projects.TenGroups | components/ProjectsPage.tsx:750-761 | ten groups that each meet their domain's conditions, in the order of the domain bar, form a well-laid-out catalog |
| Projects.GroupsOk | components/ProjectsPage.tsx:77-547 | the catalog as written is well laid out: group i belongs to the i-th domain of the domain bar |
| Projects.DomainIndex | components/ProjectsPage.tsx:750-761 | every domain has a position on the domain bar, holding that domain |
| Projects.DomainIndexOf | components/ProjectsPage.tsx:750-761 | the position of the domain at a position is that position, so the domain bar has no repeats |
| Projects.CatalogOkSize | components/ProjectsPage.tsx:77-547 | a well-laid-out catalog holds thirty projects |
| Projects.IdKeysDistinct | components/ProjectsPage.tsx:77-547 | the ten two-letter id prefixes are distinct |
| Projects.CatalogOkIds | components/ProjectsPage.tsx:77-547 | a well-laid-out catalog has no two projects with one id |
| Projects.CatalogOkListing | components/ProjectsPage.tsx:773-775 | in a well-laid-out catalog, filtering by the i-th domain gives the i-th group |
| Projects.CatalogOkMember | components/ProjectsPage.tsx:77-547 | every project of a well-laid-out catalog has its own snippet, the id prefix of its domain, at least three skills and a non-empty first tag |
| Projects.CatalogSize | components/ProjectsPage.tsx:77-547 | the catalog holds thirty projects |
| Projects.CatalogIdsDistinct | components/ProjectsPage.tsx:77-547 | no two catalog projects share an id, so the grid's React keys are unique |
| Projects.DomainListing | components/ProjectsPage.tsx:773-775 | choosing a domain on the bar lists exactly that domain's group, in catalog order |
| Projects.ThreePerDomain | components/ProjectsPage.tsx:773-775 | every domain lists three projects |
| Projects.EverySnippetOwn | components/ProjectsPage.tsx:927 | every catalog project opens its own starter code, never the fallback |
| Projects.CardSkills | components/ProjectsPage.tsx:907 | a card shows a prefix of the skills of length at most three, exactly three when there are that many, all of them otherwise |
| Projects.CardBadge | components/ProjectsPage.tsx:917 | the badge is never empty; it is the first tag when that is a non-empty string, and anything but "Premium" only then |
| Projects.CatalogCards | components/ProjectsPage.tsx:907-917 | every catalog card shows exactly three skills and its own first tag |
| Projects.SaveTarget | components/ProjectsPage.tsx:1007 | the open project goes to the save callback exactly when a project is open and the page was given a callback |
| Projects.ResumeStepKeepsInv | components/ProjectsPage.tsx:1071-1147 | every step of the resume flow keeps the invariant: a file is held past the upload screen, and the results screen and stored result are the demo analysis |
| Projects.ResumeHappyPath | components/ProjectsPage.tsx:1071-1147 | choosing a file, analysing and waiting reaches the results with that file and score 42; Reset returns to the upload screen |
| Projects.NoFileNoProgress | components/ProjectsPage.tsx:1071-1076 | a file dialog closed without a file leaves the resume flow unchanged |
| Projects.ProjectsPageView.constructor | components/ProjectsPage.tsx:768-770 | the page opens on the projects tab, all domains, no project open |
| Projects.ProjectsPageView.TabClick | components/ProjectsPage.tsx:790-791 | a tab button changes only the tab |
| Projects.ProjectsPageView.DomainClick | components/ProjectsPage.tsx:807-816 | a domain button changes only the domain filter |
| Projects.ProjectsPageView.Listed | components/ProjectsPage.tsx:773-775 | the grid lists the visible projects for the current filter, each from the catalog and matching the filter |
| Projects.ProjectsPageView.CardClick | components/ProjectsPage.tsx:796-829 | clicking a card listed on the projects tab opens that project and changes nothing else |
| Projects.ProjectsPageView.CloseDetail | components/ProjectsPage.tsx:851 | closing the detail panel clears only the open project |
| Projects.ProjectsPageView.SaveClick | components/ProjectsPage.tsx:1007 | the Save button hands the open project to the callback exactly as the save rule says, changing nothing |
| Projects.ResumeView.constructor | components/ProjectsPage.tsx:1062-1068 | the resume flow opens on the upload screen with no file, role, description or result |
| Projects.ResumeView.Handle | components/ProjectsPage.tsx:1071-1147 | each event of the resume flow changes the state as the flow's transition function says |
| Premium.AsUserPlan | components/PremiumPage.tsx:96 | the plan handed to `onSuccess` is always a paid plan, yearly exactly when the yearly card was chosen |
| Premium.Payload | components/PremiumPage.tsx:120-127 | the email parameters copy name, email, plan, role and purpose from the form; the long-term goal is sent on the yearly plan and replaced by "N/A" on the monthly one |
| Premium.PayloadGoalRule | components/PremiumPage.tsx:114-127 | a monthly payload does not depend on the goal; a yearly payload changes exactly when the goal changes; the consent toggle is never sent |
| Premium.Dispatch | components/PremiumPage.tsx:132-143 | the parameters are passed on unchanged, and a real email goes out exactly when the service id is not the placeholder |
| Premium.DemoOnlyLogs | components/PremiumPage.tsx:16 | with the service id as shipped, every activation only logs the parameters |
| Premium.ActivateGuard | components/PremiumPage.tsx:116-118 | Activate sends exactly when consent is given, nothing is loading and the success view is not shown; it then sends the form's payload and starts loading; without consent nothing at all happens; Activate alone never notifies the page |
| Premium.BothPathsUnlock | components/PremiumPage.tsx:145-163 | a send that succeeds and one that fails leave the same state (success shown, loading off), both notify the page of the plan and schedule the close; only the failure raises the alert |
| Premium.RunNotifiesOnce | components/PremiumPage.tsx:116-163 | along any sequence of events the modal's invariant (never loading while showing success) holds; after success no more notifications; before it the count is one exactly when success is reached |
| Premium.ActivationNotifiesAtMostOnce | components/PremiumPage.tsx:116-163 | from a freshly opened modal, `onSuccess` is called at most once, and exactly once when the success view is reached |
| Premium.StepKeepsOptions | components/PremiumPage.tsx:105-109 | the opening form and every edit keep purpose and goal among the choices the form offers |
| Premium.PayloadFromOptions | components/PremiumPage.tsx:120-127 | the payload's purpose is one of the four offered, and its goal is one of the four offered or "N/A" |
| Premium.UnlockPatch | components/PremiumPage.tsx:96 | the patch passed up sets the premium flag and the chosen plan on any user record and changes nothing else |
| Premium.UnlockThroughShell | App.tsx:106-108 | the shell applies the unlock patch by changing only the user's premium flag and plan, schedules nothing, and applying it twice is the same as once |
| Premium.PremiumPageView.constructor | components/PremiumPage.tsx:21 | the page opens with no plan selected |
| Premium.PremiumPageView.SelectPlan | components/PremiumPage.tsx:48 | a plan card's button opens that plan's modal; while a modal is open its backdrop covers the cards |
| Premium.PremiumPageView.Close | components/PremiumPage.tsx:94 | closing the modal clears the selected plan |
| Premium.ActivationModalView.constructor | components/PremiumPage.tsx:104-112 | the modal opens with the user's name, email and role, purpose "All of the above", goal "Placement", no consent, not loading, no success |
| Premium.ActivationModalView.Edit | components/PremiumPage.tsx:209-263 | a field edit changes the modal's state as the transition function says and sends nothing |
| Premium.ActivationModalView.HandleActivate | components/PremiumPage.tsx:116-143 | the Activate button changes the state and returns the outgoing message as the transition function says |
| Premium.ActivationModalView.SendSettled | components/PremiumPage.tsx:145-163 | the end of the send changes the state and reports notification, alert and close timer as the transition function says |
| Lists.IndexOf | components/RoadmapPage.tsx:146 | the result is -1 exactly when the element is absent, and otherwise the first position holding it |
| Lists.IndexOfAt | components/RoadmapPage.tsx:146 | in a sequence without repetitions the lookup of the element at a position gives that position back |
| Lists.IndexOfAppend | App.tsx:117-123 | appending never moves the first occurrence of an element already present, and a new element is found at the end |
| Lists.RemoveAll | components/Dashboard.tsx:61 | the result lacks the removed element, holds only elements of the input and every other element of it, is shorter exactly when something was removed, and keeps a repetition-free input repetition-free |
| Lists.RemoveAllAppend | components/OnboardingModal.tsx:212 | removal commutes with appending, so order is kept and only the removed element is dropped |
| Lists.NoDupAppend | components/Dashboard.tsx:63 | appending an absent element keeps a sequence free of repetitions |
| Lists.Contains | components/AuthModal.tsx:170 | the result is true exactly when the pattern occurs as a contiguous piece of the text |
| Lists.NoDupConcat | components/ProjectsPage.tsx:77-547 | two repetition-free sequences with no common element concatenate without repetitions |
| Lists.Flatten | components/ProjectsPage.tsx:77-547 | the flattened catalog holds every member of every group and nothing else |
| Lists.FlattenLength | components/ProjectsPage.tsx:77-547 | groups of equal size flatten to that size times the number of groups |

## Left out

- Animation, layout and styling (framer-motion variants, CSS classes, icons) are presentation only.
- Timer and interval durations (300 ms to 3 s) are wall-clock. `App.Delay` records the shell's three delays, but no property depends on them. The onboarding delays matter only through the order they give the timers (`Onboarding.ScheduleInDelayOrder`).
- `Date.now()` task ids and `new Date().getHours()` are parameters. The code does not guarantee that task ids are unique, so the model does not claim it.
- `localStorage` is the `Dashboard.Storage` class. It holds only the one key the dashboard reads and writes, the notifications-asked flag, as a boolean. Persistence across page loads is not modelled.
- `window.innerWidth` checks are an `isMobile` parameter. Registering and removing the keyboard listener is left out; the Escape key is an event.
- The EmailJS call is a foreign library. Its outcome is the `failed` flag of the `Settled` event, and `console.log` and `alert` are left out. Of the alert, only the fact that the failure path raises it is kept.
- Premium.ActivationModalView: the modal is modelled as mounted until the send settles. A send still pending when the modal is closed is not modelled, although the source would still call `onSuccess` then.
- Floating-point SVG geometry (the dashboard's progress circle) is left out. The overlay's curve control points are stated on Dafny's exact reals, so rounding is not modelled.
- Project titles, descriptions and `details`, and the bodies of the starter-code snippets, are not carried. Each snippet entry keeps only its language, since only the lookup key matters to the properties.
- `fileToGenerativePart` (FileReader and base64) and the unused `GoogleGenAI` import are I/O the demo flow never reaches.
- Strings are sequences of characters. JavaScript's UTF-16 length is taken as the number of characters, and the strength rules' character classes are the ASCII ranges of the source's regular expressions.
- App.ClearData: `handleClearData` reads name and email from the render's `userData`, not from the updater's latest state. The model takes them from the current state, which is the same unless another update is pending in the same batch.
- App.Merge: a patch is a record of optional fields. A patch key present with the value `undefined`, which the source's spread would copy, is not modelled.
- SettingsPage only forwards patches, which `App.Merge` covers, and downloads data through the DOM. It is not part of this model.
- The static views (Hero, TrustStrip, HowItWorks, RoadmapPreview, Pricing, MicroInteractions, ResponsibleAI, Footer, PrivacyModal, TermsModal, LogoutModal, Sidebar) only render and pass callbacks on. They are not part of this model.
- RoadmapPage's `isSidebarOpen` flag only affects layout and is left out.

## Findings

| source | as written | input that shows it | evidently intended | confidence | as-written member | corrected member |
|---|---|---|---|---|---|---|
| App.tsx:233-236 | `OnboardingModal` stays mounted while closed (it returns `null` when `isOpen` is false, after its hooks), so its wizard state outlives a run; the submit leaves `isProcessing` true | sign up and finish onboarding, log out, sign up again: the modal reopens on the finished processing screen, every control is ignored and no timer is pending, so `onComplete` never fires and the user stays on it | each signup starts a fresh wizard that can be completed | not executed | Onboarding.ReopenKeepsFinishedWizard | Onboarding.Reopen |
