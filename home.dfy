/**
 * The home page's logic: the two navigation dispatchers and the project list that the filter
 * buttons and the search box replace.
 */
module Home {
  import opened Common
  import opened Ascii
  import opened Lists
  import opened Types
  import opened Data

  /** The page sections a dispatcher can scroll to. */
  datatype Section = SkillsSection | ProjectsSection | ResumeSection | ContactSection

  function SectionName(s: Section): string {
    match s
    case SkillsSection => "skills"
    case ProjectsSection => "projects"
    case ResumeSection => "resume"
    case ContactSection => "contact"
  }

  /** The order in which the terminal dispatcher tries the sections. */
  function Rank(s: Section): nat {
    match s
    case SkillsSection => 0
    case ProjectsSection => 1
    case ResumeSection => 2
    case ContactSection => 3
  }

  /**
   * `handleTerminalCommand`: the section scrolled to for a command, the first whose name occurs
   * in the lowered (untrimmed) command; none when no name occurs.
   */
  function TerminalTarget(command: string): (r: Option<Section>)
    ensures r == None <==> forall s: Section :: !Contains(ToLower(command), SectionName(s))
    ensures r.Some? ==> Contains(ToLower(command), SectionName(r.value))
    ensures r.Some? ==> forall s: Section :: Rank(s) < Rank(r.value) ==> !Contains(ToLower(command), SectionName(s))
  {
    var cmd := ToLower(command);
    assert SectionName(SkillsSection) == "skills" && SectionName(ProjectsSection) == "projects";
    assert SectionName(ResumeSection) == "resume" && SectionName(ContactSection) == "contact";
    if Contains(cmd, "skills") then Some(SkillsSection)
    else if Contains(cmd, "projects") then Some(ProjectsSection)
    else if Contains(cmd, "resume") then Some(ResumeSection)
    else if Contains(cmd, "contact") then Some(ContactSection)
    else None
  }

  /** `handleAiNavigation`: a section is chosen only by exact equality with its name. */
  function AiTarget(section: string): (r: Option<Section>)
    ensures forall s: Section :: r == Some(s) <==> section == SectionName(s)
  {
    if section == "skills" then Some(SkillsSection)
    else if section == "projects" then Some(ProjectsSection)
    else if section == "resume" then Some(ResumeSection)
    else if section == "contact" then Some(ContactSection)
    else None
  }

  /**
   * `handleProjectFilter`'s result: "all" gives the whole catalog; any other filter keeps, in
   * catalog order, the projects that list it as a category (exact, case-sensitive equality).
   */
  function ProjectsForFilter(filter: string): (r: seq<Project>)
    ensures filter == "all" ==> r == Projects
    ensures filter != "all" ==> forall p :: p in r <==> p in Projects && filter in p.categories
    ensures IsSubsequence(r, Projects)
  {
    if filter == "all" then Projects
    else Filter(Projects, InCategory(filter))
  }

  /** The filter's test: the project lists the category exactly. */
  function InCategory(filter: string): Project -> bool {
    (p: Project) => filter in p.categories
  }

  /** A project matches an already-lowered term through its title, description or a category. */
  predicate MatchesTerm(term: string, p: Project) {
    || Contains(ToLower(p.title), term)
    || Contains(ToLower(p.description), term)
    || (exists c :: c in p.categories && Contains(ToLower(c), term))
  }

  /**
   * `handleProjectSearch`'s result: a blank term gives the whole catalog; otherwise the projects
   * matching the lowered, untrimmed term, in catalog order.
   */
  function ProjectsForSearch(searchTerm: string): (r: seq<Project>)
    ensures IsBlank(searchTerm) ==> r == Projects
    ensures !IsBlank(searchTerm) ==> forall p :: p in r <==> p in Projects && MatchesTerm(ToLower(searchTerm), p)
    ensures IsSubsequence(r, Projects)
  {
    if IsBlank(searchTerm) then Projects
    else
      var term := ToLower(searchTerm);
      Filter(Projects, (p: Project) => MatchesTerm(term, p))
  }

  /** The search ignores the letter case of the term. */
  lemma SearchIgnoresCase(searchTerm: string)
    ensures ProjectsForSearch(ToLower(searchTerm)) == ProjectsForSearch(searchTerm)
  {
    BlankIffAllSpace(searchTerm);
    BlankIffAllSpace(ToLower(searchTerm));
    ToLowerKeepsSpace(searchTerm);
    ToLowerIdempotent(searchTerm);
  }

  /** The "automation" button keeps RezGuruAI alone. */
  lemma AutomationFilterResult()
    ensures ProjectsForFilter("automation") == [Projects[2]]
  {
    var keep := InCategory("automation");
    AutomationKeepsThird();
    KeepsOnlyThird(Projects, keep);
    FilterOtherThanAll("automation");
  }

  /** Of the four category lists, only RezGuruAI's names "automation". */
  lemma AutomationListedOnce()
    ensures "automation" !in ["blockchain", "fintech", "web3"]
    ensures "automation" !in ["web", "ai", "consultancy"]
    ensures "automation" in ["real-estate", "ai", "automation"]
    ensures "automation" !in ["career", "ai", "productivity"]
  {
    assert |"automation"| == 10;
  }

  /** RezGuruAI is the only catalog project in the "automation" category. */
  lemma AutomationKeepsThird()
    ensures !InCategory("automation")(Projects[0]) && !InCategory("automation")(Projects[1])
    ensures InCategory("automation")(Projects[2]) && !InCategory("automation")(Projects[3])
  {
    CatalogCategories();
    AutomationListedOnce();
  }

  /** Any button but "all" filters the catalog by its category. */
  lemma FilterOtherThanAll(filter: string)
    requires filter != "all"
    ensures ProjectsForFilter(filter) == Filter(Projects, InCategory(filter))
  {
  }

  /** A filter over four elements that accepts only the third returns it alone. */
  lemma KeepsOnlyThird<T(!new)>(s: seq<T>, keep: T -> bool)
    requires |s| == 4 && !keep(s[0]) && !keep(s[1]) && keep(s[2]) && !keep(s[3])
    ensures Filter(s, keep) == [s[2]]
  {
    assert s[3..][1..] == [];
    assert Filter(s[3..], keep) == [];
    assert s[2..][1..] == s[3..];
    assert Filter(s[2..], keep) == [s[2]];
    assert s[1..][1..] == s[2..];
  }

  /** The "ai" button keeps every project but OrionToken. */
  lemma AiFilterResult()
    ensures ProjectsForFilter("ai") == Projects[1..]
  {
    CatalogCategories();
    var keep := InCategory("ai");
    assert !keep(Projects[0]) && keep(Projects[1]) && keep(Projects[2]) && keep(Projects[3]);
    DropsOnlyFirst(Projects, keep);
  }

  /** A filter that rejects only the first element returns the rest. */
  lemma DropsOnlyFirst<T(!new)>(s: seq<T>, keep: T -> bool)
    requires s != [] && !keep(s[0])
    requires forall i :: 1 <= i < |s| ==> keep(s[i])
    ensures Filter(s, keep) == s[1..]
  {
    forall x | x in s[1..]
      ensures keep(x)
    {
      var i :| 0 <= i < |s[1..]| && s[1..][i] == x;
      assert s[i + 1] == x;
    }
    FilterKeepsAll(s[1..], keep);
  }

  /** The page's project state: the list the gallery shows. */
  class Home {
    var filteredProjects: seq<Project>

    constructor ()
      ensures filteredProjects == Projects
    {
      filteredProjects := Projects;
    }

    /** Both handlers start from the catalog, never from the list currently shown. */
    method HandleProjectFilter(filter: string)
      modifies this
      ensures filteredProjects == ProjectsForFilter(filter)
    {
      filteredProjects := ProjectsForFilter(filter);
    }

    method HandleProjectSearch(searchTerm: string)
      modifies this
      ensures filteredProjects == ProjectsForSearch(searchTerm)
    {
      filteredProjects := ProjectsForSearch(searchTerm);
    }

    /** The "Showing n of m projects" note. */
    predicate ShowsCountNote()
      reads this
    {
      0 < |filteredProjects| < |Projects|
    }

    /** The "No matching projects found" block. */
    predicate ShowsNoMatches()
      reads this
    {
      |filteredProjects| == 0
    }

    /**
     * After a button click: "all" shows neither note, while "automation" (1 of 4) and "ai"
     * (3 of 4) show the count note; the two notes never show together.
     */
    lemma NotesAfterFilter(filter: string)
      requires filteredProjects == ProjectsForFilter(filter)
      ensures !(ShowsCountNote() && ShowsNoMatches())
      ensures filter == "all" ==> !ShowsCountNote() && !ShowsNoMatches()
      ensures filter == "automation" || filter == "ai" ==> ShowsCountNote()
    {
      AutomationFilterResult();
      AiFilterResult();
    }
  }
}
