/**
 * The projects page: a fixed catalog of thirty portfolio projects, three in
 * each of ten domains, filtered by a domain bar; a starter-code snippet per
 * project with a `default` entry; the rules a project card uses to show its
 * skills and badge; the Save button; and the resume-analysis flow
 * (upload, details, processing, results), which is a demo with fixed results.
 */
module Projects {
  import opened Wrappers
  import opened Lists

  datatype Domain =
    | Medical | Productivity | FinTech | ECommerce | Education
    | SocialImpact | MachineLearning | DeveloperTools | CreativeTech | Security

  datatype Difficulty = Beginner | Intermediate | Advanced

  /**
   * A catalog entry: the fields the page computes with. The display text
   * (title, description and the long-form `details` block) is not part of this model.
   */
  datatype Project = Project(
    id: string, domain: Domain, difficulty: Difficulty,
    skills: seq<string>, premiumTags: seq<string>)

  /** The domain bar, in display order. */
  const Domains: seq<Domain> := [
    Medical, Productivity, FinTech, ECommerce, Education,
    SocialImpact, MachineLearning, DeveloperTools, CreativeTech, Security]

  /** The first two letters of the ids of each domain's projects, in the order of `Domains`. */
  const IdKeys: seq<string> := ["me", "pr", "fi", "ec", "ed", "so", "ai", "de", "cr", "se"]

  /** The catalog as the source lays it out: one group of three per domain, in domain order. */
  function Groups(): seq<seq<Project>> {
    [MedicalGroup(), ProductivityGroup(), FinTechGroup(), ECommerceGroup(), EducationGroup(),
     SocialImpactGroup(), MachineLearningGroup(), DeveloperToolsGroup(), CreativeTechGroup(), SecurityGroup()]
  }

  function MedicalGroup(): seq<Project> {
    [ Project("med1", Medical, Intermediate,
        ["Auth", "RBAC", "PostgreSQL"], ["Data Privacy"]),
      Project("med2", Medical, Advanced,
        ["WebRTC", "Sockets", "React"], ["High Complexity"]),
      Project("med3", Medical, Intermediate,
        ["Data Viz", "Python", "ML"], ["Great for Data Roles"]) ]
  }

  function ProductivityGroup(): seq<Project> {
    [ Project("prod1", Productivity, Beginner,
        ["CRUD", "Local Storage", "React"], ["Frontend Essential"]),
      Project("prod2", Productivity, Intermediate,
        ["Charts", "State Mgmt", "Timers"], ["Interactive UI"]),
      Project("prod3", Productivity, Advanced,
        ["AI API", "NLP", "Next.js"], ["High Interview Interest"]) ]
  }

  function FinTechGroup(): seq<Project> {
    [ Project("fin1", FinTech, Beginner,
        ["Forms", "Charts", "Finance"], ["Clean UI"]),
      Project("fin2", FinTech, Intermediate,
        ["Transactions", "ACID", "Node"], ["Backend Logic"]),
      Project("fin3", FinTech, Advanced,
        ["ML", "API", "Security"], ["Enterprise Ready"]) ]
  }

  function ECommerceGroup(): seq<Project> {
    [ Project("ecom1", ECommerce, Beginner,
        ["Context API", "Filter", "UI"], ["Classic Project"]),
      Project("ecom2", ECommerce, Intermediate,
        ["Admin", "Tables", "CRUD"], ["B2B Feature"]),
      Project("ecom3", ECommerce, Advanced,
        ["Stripe", "Microservices", "DB"], ["Capstone Material"]) ]
  }

  function EducationGroup(): seq<Project> {
    [ Project("edu1", Education, Intermediate,
        ["CRUD", "Relations", "UI"], ["LMS Logic"]),
      Project("edu2", Education, Intermediate,
        ["Logic", "State", "Timer"], ["Interactive"]),
      Project("edu3", Education, Advanced,
        ["Graph", "Recursion", "UI"], ["Meta Project"]) ]
  }

  function SocialImpactGroup(): seq<Project> {
    [ Project("soc1", SocialImpact, Intermediate,
        ["Payment", "Trust", "UI"], ["Ethical Tech"]),
      Project("soc2", SocialImpact, Intermediate,
        ["Maps", "Geo", "Uploads"], ["Civic Tech"]),
      Project("soc3", SocialImpact, Advanced,
        ["A11y", "WCAG", "Voice"], ["Recruiter Favorite"]) ]
  }

  function MachineLearningGroup(): seq<Project> {
    [ Project("ai1", MachineLearning, Intermediate,
        ["NLP", "Python", "API"], ["HR Tech"]),
      Project("ai2", MachineLearning, Advanced,
        ["Vectors", "Filtering", "Backend"], ["Core ML Skill"]),
      Project("ai3", MachineLearning, Advanced,
        ["Regression", "Dashboard", "Data"], ["Data Science"]) ]
  }

  function DeveloperToolsGroup(): seq<Project> {
    [ Project("dev1", DeveloperTools, Intermediate,
        ["HTTP", "State", "UI"], ["Like Postman"]),
      Project("dev2", DeveloperTools, Beginner,
        ["CRUD", "Search", "Tags"], ["Utility"]),
      Project("dev3", DeveloperTools, Advanced,
        ["WebSockets", "Graph", "DevOps"], ["Elite Project"]) ]
  }

  function CreativeTechGroup(): seq<Project> {
    [ Project("cre1", CreativeTech, Intermediate,
        ["Editor", "Preview", "Export"], ["Frontend Heavy"]),
      Project("cre2", CreativeTech, Advanced,
        ["Sockets", "Canvas", "State"], ["Like Figma"]),
      Project("cre3", CreativeTech, Intermediate,
        ["Scroll", "Animation", "Audio"], ["Award Winning Vibe"]) ]
  }

  function SecurityGroup(): seq<Project> {
    [ Project("sec1", Security, Intermediate,
        ["JWT", "OAuth", "Security"], ["Fundamental"]),
      Project("sec2", Security, Intermediate,
        ["Encryption", "Blob", "Link"], ["Privacy Tool"]),
      Project("sec3", Security, Advanced,
        ["Regex", "Network", "Report"], ["Cybersec"]) ]
  }

  /** `PROJECTS`: the groups laid end to end. */
  function Catalog(): seq<Project> {
    Flatten(Groups())
  }

  function Ids(ps: seq<Project>): seq<string> {
    seq(|ps|, i requires 0 <= i < |ps| => ps[i].id)
  }

  const DefaultKey := "default"

  /**
   * `CODE_SNIPPETS`, as the language of each entry: one entry per catalog id
   * and a `default` entry. The code bodies are not part of this model.
   */
  const Snippets: map<string, string> := map[
    "med1" := "javascript",
    "med2" := "javascript",
    "med3" := "python",
    "prod1" := "javascript",
    "prod2" := "javascript",
    "prod3" := "javascript",
    "fin1" := "javascript",
    "fin2" := "javascript",
    "fin3" := "python",
    "ecom1" := "javascript",
    "ecom2" := "javascript",
    "ecom3" := "javascript",
    "edu1" := "python",
    "edu2" := "javascript",
    "edu3" := "javascript",
    "soc1" := "javascript",
    "soc2" := "javascript",
    "soc3" := "html",
    "ai1" := "python",
    "ai2" := "python",
    "ai3" := "r",
    "dev1" := "javascript",
    "dev2" := "sql",
    "dev3" := "javascript",
    "cre1" := "javascript",
    "cre2" := "javascript",
    "cre3" := "javascript",
    "sec1" := "javascript",
    "sec2" := "javascript",
    "sec3" := "python",
    DefaultKey := "text"
  ]

  /** The entry the code view opens for a project id: its own entry, else the `default` entry. */
  function SnippetKey(id: string): (k: string)
    ensures k in Snippets
    ensures id in Snippets <==> k == id
    ensures id !in Snippets ==> k == DefaultKey
  {
    if id in Snippets then id else DefaultKey
  }

  /** An id outside the snippet table opens the plain-text default. */
  lemma UnknownIdFallsBack(id: string)
    requires id !in Snippets
    ensures SnippetKey(id) == DefaultKey && Snippets[SnippetKey(id)] == "text"
  {
  }

  /** The domain bar's choice: every project, or one domain. */
  datatype DomainFilter = All | Only(domain: Domain)

  predicate Matches(f: DomainFilter, p: Project) {
    f.All? || p.domain == f.domain
  }

  /** `filter(p => p.domain === d)`: the matching projects in their original order. */
  function Filter(ps: seq<Project>, f: DomainFilter): (r: seq<Project>)
    ensures |r| <= |ps|
    ensures forall p <- r :: p in ps && Matches(f, p)
    ensures forall p <- ps :: Matches(f, p) ==> p in r
  {
    if ps == [] then []
    else if Matches(f, ps[0]) then [ps[0]] + Filter(ps[1..], f)
    else Filter(ps[1..], f)
  }

  /** The projects listed under the domain bar's choice. */
  function Visible(f: DomainFilter): seq<Project> {
    if f.All? then Catalog() else Filter(Catalog(), f)
  }

  lemma {:induction false} FilterAppend(a: seq<Project>, b: seq<Project>, f: DomainFilter)
    ensures Filter(a + b, f) == Filter(a, f) + Filter(b, f)
  {
    if a == [] {
      assert a + b == b;
    } else {
      assert (a + b)[1..] == a[1..] + b;
      FilterAppend(a[1..], b, f);
    }
  }

  lemma {:induction false} FilterKeepsAll(ps: seq<Project>, f: DomainFilter)
    requires forall p <- ps :: Matches(f, p)
    ensures Filter(ps, f) == ps
  {
    if ps != [] {
      FilterKeepsAll(ps[1..], f);
    }
  }

  lemma {:induction false} FilterDropsAll(ps: seq<Project>, f: DomainFilter)
    requires forall p <- ps :: !Matches(f, p)
    ensures Filter(ps, f) == []
  {
    if ps != [] {
      FilterDropsAll(ps[1..], f);
    }
  }

  /** Group `i` of `gs` holds only projects of domain `ds[i]`. */
  ghost predicate GroupedBy(gs: seq<seq<Project>>, ds: seq<Domain>) {
    |gs| == |ds| && forall i, p :: 0 <= i < |gs| && p in gs[i] ==> p.domain == ds[i]
  }

  /** Filtering a catalog grouped by distinct domains gives back exactly the group of that domain. */
  lemma {:induction false} FilterGrouped(gs: seq<seq<Project>>, ds: seq<Domain>, k: int)
    requires GroupedBy(gs, ds) && NoDup(ds) && 0 <= k < |gs|
    ensures Filter(Flatten(gs), Only(ds[k])) == gs[k]
  {
    var f := Only(ds[k]);
    assert Flatten(gs) == gs[0] + Flatten(gs[1..]);
    FilterAppend(gs[0], Flatten(gs[1..]), f);
    assert GroupedBy(gs[1..], ds[1..]) by {
      forall i, p | 0 <= i < |gs[1..]| && p in gs[1..][i] ensures p.domain == ds[1..][i] {
        assert p in gs[i + 1];
      }
    }
    assert NoDup(ds[1..]) by {
      forall i, j | 0 <= i < j < |ds[1..]| ensures ds[1..][i] != ds[1..][j] {
        assert ds[1..][i] == ds[i + 1] && ds[1..][j] == ds[j + 1];
      }
    }
    if k == 0 {
      FilterKeepsAll(gs[0], f);
      forall p | p in Flatten(gs[1..]) ensures !Matches(f, p) {
        var g :| 0 <= g < |gs[1..]| && p in gs[1..][g];
        assert p in gs[g + 1] && ds[g + 1] != ds[0];
      }
      FilterDropsAll(Flatten(gs[1..]), f);
    } else {
      assert ds[0] != ds[k];
      FilterDropsAll(gs[0], f);
      FilterGrouped(gs[1..], ds[1..], k - 1);
    }
  }

  lemma IdsAppend(a: seq<Project>, b: seq<Project>)
    ensures Ids(a + b) == Ids(a) + Ids(b)
  {
  }

  /** Ids drawn from groups with distinct two-letter keys and distinct within each group never repeat. */
  lemma {:induction false} KeyedIdsDistinct(gs: seq<seq<Project>>, keys: seq<string>)
    requires |gs| == |keys| && NoDup(keys)
    requires forall i :: 0 <= i < |gs| ==> NoDup(Ids(gs[i]))
    requires forall i, p :: 0 <= i < |gs| && p in gs[i] ==> |p.id| >= 2 && p.id[..2] == keys[i]
    ensures NoDup(Ids(Flatten(gs)))
  {
    if gs != [] {
      var head, rest := gs[0], Flatten(gs[1..]);
      assert NoDup(keys[1..]) by {
        forall i, j | 0 <= i < j < |keys[1..]| ensures keys[1..][i] != keys[1..][j] {
          assert keys[1..][i] == keys[i + 1] && keys[1..][j] == keys[j + 1];
        }
      }
      forall i, p | 0 <= i < |gs[1..]| && p in gs[1..][i]
        ensures |p.id| >= 2 && p.id[..2] == keys[1..][i]
      {
        assert p in gs[i + 1];
      }
      KeyedIdsDistinct(gs[1..], keys[1..]);
      forall a, b | 0 <= a < |head| && 0 <= b < |rest| ensures Ids(head)[a] != Ids(rest)[b] {
        assert head[a] in gs[0];
        var q := rest[b];
        assert q in rest;
        var g :| 0 <= g < |gs[1..]| && q in gs[1..][g];
        assert q in gs[g + 1] && keys[g + 1] != keys[0];
      }
      NoDupConcat(Ids(head), Ids(rest));
      IdsAppend(head, rest);
    }
  }

  /**
   * What each catalog group satisfies: three projects of one domain with
   * distinct ids that share a two-letter key, each with its own snippet entry,
   * at least three skills and a non-empty first premium tag.
   */
  ghost predicate GroupOk(g: seq<Project>, d: Domain, key: string) {
    && |g| == 3 && NoDup(Ids(g))
    && forall p <- g ::
      && p.domain == d && |p.id| >= 2 && p.id[..2] == key
      && p.id in Snippets && p.id != DefaultKey
      && |p.skills| >= 3 && |p.premiumTags| > 0 && p.premiumTags[0] != ""
  }

  lemma MedicalGroupOk()
    ensures GroupOk(MedicalGroup(), Medical, "me")
  {
  }

  lemma ProductivityGroupOk()
    ensures GroupOk(ProductivityGroup(), Productivity, "pr")
  {
  }

  lemma FinTechGroupOk()
    ensures GroupOk(FinTechGroup(), FinTech, "fi")
  {
  }

  lemma ECommerceGroupOk()
    ensures GroupOk(ECommerceGroup(), ECommerce, "ec")
  {
  }

  lemma EducationGroupOk()
    ensures GroupOk(EducationGroup(), Education, "ed")
  {
  }

  lemma SocialImpactGroupOk()
    ensures GroupOk(SocialImpactGroup(), SocialImpact, "so")
  {
  }

  lemma MachineLearningGroupOk()
    ensures GroupOk(MachineLearningGroup(), MachineLearning, "ai")
  {
  }

  lemma DeveloperToolsGroupOk()
    ensures GroupOk(DeveloperToolsGroup(), DeveloperTools, "de")
  {
  }

  lemma CreativeTechGroupOk()
    ensures GroupOk(CreativeTechGroup(), CreativeTech, "cr")
  {
  }

  lemma SecurityGroupOk()
    ensures GroupOk(SecurityGroup(), Security, "se")
  {
  }

  /** A sequence of groups laid out as the catalog is: group `i` belongs to `Domains[i]` with key `IdKeys[i]`. */
  ghost predicate CatalogOk(gs: seq<seq<Project>>) {
    |gs| == |Domains| && forall i :: 0 <= i < |gs| ==> GroupOk(gs[i], Domains[i], IdKeys[i])
  }

  /** Ten groups that each satisfy their domain's conditions, in domain order, form a well-laid-out catalog. */
  lemma TenGroups(
    g0: seq<Project>, g1: seq<Project>, g2: seq<Project>, g3: seq<Project>, g4: seq<Project>,
    g5: seq<Project>, g6: seq<Project>, g7: seq<Project>, g8: seq<Project>, g9: seq<Project>)
    requires GroupOk(g0, Medical, "me") && GroupOk(g1, Productivity, "pr")
    requires GroupOk(g2, FinTech, "fi") && GroupOk(g3, ECommerce, "ec")
    requires GroupOk(g4, Education, "ed") && GroupOk(g5, SocialImpact, "so")
    requires GroupOk(g6, MachineLearning, "ai") && GroupOk(g7, DeveloperTools, "de")
    requires GroupOk(g8, CreativeTech, "cr") && GroupOk(g9, Security, "se")
    ensures CatalogOk([g0, g1, g2, g3, g4, g5, g6, g7, g8, g9])
  {
  }

  lemma GroupsOk()
    ensures CatalogOk(Groups())
  {
    MedicalGroupOk(); ProductivityGroupOk(); FinTechGroupOk(); ECommerceGroupOk(); EducationGroupOk();
    SocialImpactGroupOk(); MachineLearningGroupOk(); DeveloperToolsGroupOk(); CreativeTechGroupOk(); SecurityGroupOk();
    TenGroups(
      MedicalGroup(), ProductivityGroup(), FinTechGroup(), ECommerceGroup(), EducationGroup(),
      SocialImpactGroup(), MachineLearningGroup(), DeveloperToolsGroup(), CreativeTechGroup(), SecurityGroup());
  }

  /** The position of a domain on the domain bar. */
  function DomainIndex(d: Domain): (k: int)
    ensures 0 <= k < |Domains| && Domains[k] == d
  {
    match d
    case Medical => 0 case Productivity => 1 case FinTech => 2 case ECommerce => 3
    case Education => 4 case SocialImpact => 5 case MachineLearning => 6
    case DeveloperTools => 7 case CreativeTech => 8 case Security => 9
  }

  lemma DomainIndexOf(k: int)
    requires 0 <= k < |Domains|
    ensures DomainIndex(Domains[k]) == k
  {
  }

  /** Ten groups of three make thirty projects. */
  lemma {:induction false} CatalogOkSize(gs: seq<seq<Project>>)
    requires CatalogOk(gs)
    ensures |Flatten(gs)| == 30
  {
    FlattenLength(gs, 3);
  }

  lemma IdKeysDistinct()
    ensures NoDup(IdKeys)
  {
  }

  /** Distinct keys per group and distinct ids within each group make all ids distinct. */
  lemma {:induction false} CatalogOkIds(gs: seq<seq<Project>>)
    requires CatalogOk(gs)
    ensures NoDup(Ids(Flatten(gs)))
  {
    IdKeysDistinct();
    KeyedIdsDistinct(gs, IdKeys);
  }

  /** Filtering by a domain gives back that domain's group. */
  lemma {:induction false} CatalogOkListing(gs: seq<seq<Project>>, k: int)
    requires CatalogOk(gs) && 0 <= k < |Domains|
    ensures Filter(Flatten(gs), Only(Domains[k])) == gs[k]
  {
    assert NoDup(Domains);
    FilterGrouped(gs, Domains, k);
  }

  /** Each listed project has the properties its group promises. */
  lemma {:induction false} CatalogOkMember(gs: seq<seq<Project>>, p: Project)
    requires CatalogOk(gs) && p in Flatten(gs)
    ensures p.id in Snippets && p.id != DefaultKey
    ensures |p.id| >= 2 && p.id[..2] == IdKeys[DomainIndex(p.domain)]
    ensures |p.skills| >= 3 && |p.premiumTags| > 0 && p.premiumTags[0] != ""
  {
    var g :| 0 <= g < |gs| && p in gs[g];
    assert GroupOk(gs[g], Domains[g], IdKeys[g]);
    DomainIndexOf(g);
  }

  /** The catalog holds thirty projects. */
  lemma CatalogSize()
    ensures |Catalog()| == 30
  {
    GroupsOk();
    CatalogOkSize(Groups());
  }

  /** No two catalog projects share an id. */
  lemma CatalogIdsDistinct()
    ensures NoDup(Ids(Catalog()))
  {
    GroupsOk();
    CatalogOkIds(Groups());
  }

  /** Choosing a domain lists exactly that domain's group, in catalog order. */
  lemma DomainListing(k: int)
    requires 0 <= k < |Domains|
    ensures Visible(Only(Domains[k])) == Groups()[k]
  {
    GroupsOk();
    CatalogOkListing(Groups(), k);
  }

  /** Every domain lists three projects. */
  lemma ThreePerDomain(d: Domain)
    ensures |Visible(Only(d))| == 3
  {
    GroupsOk();
    DomainListing(DomainIndex(d));
  }

  /** Every catalog project opens its own snippet, never the fallback. */
  lemma EverySnippetOwn(p: Project)
    requires p in Catalog()
    ensures p.id in Snippets && p.id != DefaultKey && SnippetKey(p.id) == p.id
  {
    GroupsOk();
    CatalogOkMember(Groups(), p);
  }

  /** A card lists at most the first three skills, in order. */
  function CardSkills(p: Project): (r: seq<string>)
    ensures |r| <= 3 && r <= p.skills
    ensures |p.skills| >= 3 ==> |r| == 3
    ensures |p.skills| < 3 ==> r == p.skills
  {
    if |p.skills| <= 3 then p.skills else p.skills[..3]
  }

  /** A card's badge: the first premium tag when it is a non-empty string, otherwise "Premium". */
  function CardBadge(p: Project): (r: string)
    ensures r != ""
    ensures |p.premiumTags| > 0 && p.premiumTags[0] != "" ==> r == p.premiumTags[0]
    ensures r != "Premium" ==> |p.premiumTags| > 0 && r == p.premiumTags[0]
  {
    if |p.premiumTags| > 0 && p.premiumTags[0] != "" then p.premiumTags[0] else "Premium"
  }

  /** Every catalog project shows exactly three skills and its own first tag. */
  lemma CatalogCards(p: Project)
    requires p in Catalog()
    ensures |CardSkills(p)| == 3
    ensures |p.premiumTags| > 0 && CardBadge(p) == p.premiumTags[0]
  {
    GroupsOk();
    CatalogOkMember(Groups(), p);
  }

  datatype Tab = ProjectsTab | ResumeTab

  /** The page's own state: the tab, the domain bar and the open project. */
  datatype PageState = PageState(tab: Tab, filter: DomainFilter, open: Option<Project>)

  function InitialPage(): PageState {
    PageState(ProjectsTab, All, None)
  }

  /** The Save button: the open project goes to the callback only when the page was given one. */
  function SaveTarget(s: PageState, hasCallback: bool): (r: Option<Project>)
    ensures r.Some? <==> s.open.Some? && hasCallback
    ensures r.Some? ==> r == s.open
  {
    if s.open.Some? && hasCallback then s.open else None
  }

  datatype ResumeStep = Upload | Details | Processing | Results

  datatype Analysis = Analysis(score: int, critique: string, missingSkills: seq<string>, keywordsMatched: seq<string>)

  /** The fixed result the demo shows. */
  const DemoAnalysis := Analysis(42, "Demo Mode: AI Analysis Simulated.", ["API Key Configuration"], ["Effort"])

  datatype ResumeState = ResumeState(
    step: ResumeStep, file: Option<string>, role: string, jobDesc: string, analysis: Option<Analysis>)

  function InitialResume(): ResumeState {
    ResumeState(Upload, None, "", "", None)
  }

  datatype ResumeEvent =
    | FilesPicked(files: seq<string>)
    | RoleSelected(role: string)
    | JobDescTyped(text: string)
    | Analyze
    | AnalysisDone
    | Reset

  /**
   * The resume flow. The file input exists only on the upload screen and moves
   * on only when a file was chosen; the form and Analyze button only on the
   * details screen; the results and Reset only on the results screen. The
   * analysis timer fires whatever is on screen.
   */
  function ResumeStepOf(s: ResumeState, e: ResumeEvent): ResumeState {
    match e
    case FilesPicked(files) =>
      if s.step == Upload && |files| > 0 then s.(file := Some(files[0]), step := Details) else s
    case RoleSelected(r) => if s.step == Details then s.(role := r) else s
    case JobDescTyped(t) => if s.step == Details then s.(jobDesc := t) else s
    case Analyze => if s.step == Details then s.(step := Processing) else s
    case AnalysisDone => s.(analysis := Some(DemoAnalysis), step := Results)
    case Reset => if s.step == Results && s.analysis.Some? then s.(step := Upload) else s
  }

  /** Past the upload screen a file is always held, and the results screen always has the demo analysis. */
  ghost predicate ResumeInv(s: ResumeState) {
    && (s.step != Upload ==> s.file.Some?)
    && (s.step == Results ==> s.analysis == Some(DemoAnalysis))
    && (s.analysis.Some? ==> s.analysis == Some(DemoAnalysis))
  }

  /**
   * The analysis timer is only ever set by Analyze, which leaves the upload screen, so it
   * never fires while the upload screen is shown.
   */
  lemma {:induction false} ResumeStepKeepsInv(s: ResumeState, e: ResumeEvent)
    requires ResumeInv(s) && (e.AnalysisDone? ==> s.step != Upload)
    ensures ResumeInv(ResumeStepOf(s, e))
  {
  }

  /** Choosing a file, analysing and waiting shows the demo score of 42; Reset returns to the upload screen. */
  lemma ResumeHappyPath(s: ResumeState, file: string)
    requires s.step == Upload
    ensures var t := ResumeStepOf(ResumeStepOf(ResumeStepOf(s, FilesPicked([file])), Analyze), AnalysisDone);
      && t.step == Results && t.file == Some(file) && t.analysis.value.score == 42
      && ResumeStepOf(t, Reset).step == Upload
  {
  }

  /** Cancelling the file dialog leaves the upload screen in place. */
  lemma NoFileNoProgress(s: ResumeState)
    requires s.step == Upload
    ensures ResumeStepOf(s, FilesPicked([])) == s
  {
  }

  class ProjectsPageView {
    var activeTab: Tab
    var selectedDomain: DomainFilter
    var selectedProject: Option<Project>

    function State(): PageState
      reads this
    {
      PageState(activeTab, selectedDomain, selectedProject)
    }

    constructor ()
      ensures State() == InitialPage()
    {
      activeTab := ProjectsTab;
      selectedDomain := All;
      selectedProject := None;
    }

    method TabClick(t: Tab)
      modifies this
      ensures State() == old(State()).(tab := t)
    {
      activeTab := t;
    }

    method DomainClick(f: DomainFilter)
      modifies this
      ensures State() == old(State()).(filter := f)
    {
      selectedDomain := f;
    }

    /** The projects the grid shows. */
    method Listed() returns (ps: seq<Project>)
      ensures ps == Visible(State().filter)
      ensures forall p <- ps :: p in Catalog() && Matches(selectedDomain, p)
    {
      if selectedDomain.All? {
        ps := Catalog();
      } else {
        ps := Filter(Catalog(), selectedDomain);
      }
    }

    /** Opening a card of the grid, which is shown on the projects tab only. */
    method CardClick(p: Project)
      requires activeTab == ProjectsTab && p in Visible(selectedDomain)
      modifies this
      ensures State() == old(State()).(open := Some(p))
    {
      selectedProject := Some(p);
    }

    method CloseDetail()
      modifies this
      ensures State() == old(State()).(open := None)
    {
      selectedProject := None;
    }

    /** The Save button; the result is the project handed to the callback, if any. */
    method SaveClick(hasCallback: bool) returns (saved: Option<Project>)
      ensures saved == SaveTarget(State(), hasCallback)
    {
      saved := None;
      if selectedProject.Some? && hasCallback {
        saved := selectedProject;
      }
    }
  }

  class ResumeView {
    var step: ResumeStep
    var file: Option<string>
    var selectedRole: string
    var jobDesc: string
    var analysisData: Option<Analysis>

    function State(): ResumeState
      reads this
    {
      ResumeState(step, file, selectedRole, jobDesc, analysisData)
    }

    constructor ()
      ensures State() == InitialResume()
    {
      step := Upload;
      file := None;
      selectedRole := "";
      jobDesc := "";
      analysisData := None;
    }

    method Handle(e: ResumeEvent)
      modifies this
      ensures State() == ResumeStepOf(old(State()), e)
    {
      match e {
        case FilesPicked(files) =>
          if step == Upload && |files| > 0 {
            file := Some(files[0]);
            step := Details;
          }
        case RoleSelected(r) =>
          if step == Details { selectedRole := r; }
        case JobDescTyped(t) =>
          if step == Details { jobDesc := t; }
        case Analyze =>
          if step == Details { step := Processing; }
        case AnalysisDone =>
          analysisData := Some(DemoAnalysis);
          step := Results;
        case Reset =>
          if step == Results && analysisData.Some? { step := Upload; }
      }
    }
  }
}
