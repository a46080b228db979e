/**
 * The static catalog (skills, their connections, projects, the assistant's opening transcript)
 * and the two canned-reply dispatchers: the terminal's and the assistant's.
 */
module Data {
  import opened Common
  import opened Ascii
  import opened Types

  const Skills: seq<Skill> := [
    Skill("Python", (0.0, 0.0, 0.0), "#00F7FF", 1.2),
    Skill("AWS", (-3.0, 2.0, -3.0), "#00F7FF", 1.1),
    Skill("Kafka", (3.0, -1.0, -2.0), "#00F7FF", 1.0),
    Skill("AI", (2.0, 2.0, 2.0), "#FF00FF", 1.2),
    Skill("React", (-2.0, -2.0, 1.0), "#00F7FF", 0.9),
    Skill("Docker", (-4.0, -1.0, -1.0), "#00F7FF", 0.9),
    Skill("Terraform", (-1.0, 3.0, -2.0), "#00F7FF", 0.8),
    Skill("ML", (4.0, 1.0, 3.0), "#FF00FF", 1.0)
  ]

  const SkillConnections: seq<SkillConnection> := [
    SkillConnection("Python", "AWS"),
    SkillConnection("Python", "Kafka"),
    SkillConnection("Python", "AI"),
    SkillConnection("AWS", "Terraform"),
    SkillConnection("AWS", "Docker"),
    SkillConnection("AI", "ML"),
    SkillConnection("Kafka", "AWS"),
    SkillConnection("React", "Python")
  ]

  const Projects: seq<Project> := [
    Project(
      "orion_token", "OrionToken",
      "A next-generation asset tokenization platform that enables businesses to tokenize, manage, and trade real-world assets (e.g., real estate, invoices, equipment) on public blockchains like Ethereum and Polygon.",
      ["blockchain", "fintech", "web3"], "2023", "orion-token.jpg",
      ["Ethereum/Solidity", "Next.js", "Polygon", "Smart Contracts"],
      Some("https://github.com/Evan620/OrionToken"), Some("#")),
    Project(
      "oriontech", "oriontech.co.ke",
      "A modern, AI-powered website for Orion, a Nairobi-based technology consultancy, showcasing services, portfolio projects, and featuring an intelligent OpenAI-driven chatbot for client interactions.",
      ["web", "ai", "consultancy"], "2023", "oriontech.jpg",
      ["React", "OpenAI API", "TailwindCSS", "Node.js"],
      Some("https://github.com/Evan620/oriontech.co.ke"), Some("https://oriontech.co.ke")),
    Project(
      "rez_guru_ai", "RezGuruAI",
      "A real estate automation platform combining AI-driven analytics, lead management, document generation, and customizable workflow automation to streamline property operations and market intelligence.",
      ["real-estate", "ai", "automation"], "2023", "rezguru.jpg",
      ["Python", "ML/Analytics", "Document AI", "Cloud Infrastructure"],
      Some("https://github.com/Evan620/RezGuruAI"), Some("#")),
    Project(
      "job_genius_ai", "JobGeniusAI",
      "An AI-powered job application assistant that optimizes resumes, matches you to relevant openings, tracks applications, and analyzes skill gaps\U{2014}integrating OAuth sign-ins with GitHub or LinkedIn.",
      ["career", "ai", "productivity"], "2023", "job-genius.jpg",
      ["React", "OpenAI API", "OAuth", "Node.js/Express"],
      Some("https://github.com/Evan620/JobGeniusAI"), Some("#"))
  ]

  const DefaultAIMessages: seq<AIMessage> := [
    AIMessage(System, "AI assistant initialized."),
    AIMessage(Ai, "Welcome to Lazarus Portfolio. I'm your neural guide. To access the portfolio, please authenticate using terminal commands or explore the sections directly.")
  ]

  /** Some skill of `skills` has this name. */
  predicate HasSkill(skills: seq<Skill>, name: string) {
    exists i :: 0 <= i < |skills| && skills[i].name == name
  }

  predicate DistinctNames(skills: seq<Skill>) {
    forall i, j :: 0 <= i < j < |skills| ==> skills[i].name != skills[j].name
  }

  /** Every connection joins two different skills of the catalog. */
  predicate ConnectionsWellFormed(skills: seq<Skill>, connections: seq<SkillConnection>) {
    forall k :: 0 <= k < |connections| ==>
      && HasSkill(skills, connections[k].from)
      && HasSkill(skills, connections[k].to)
      && connections[k].from != connections[k].to
  }

  lemma CatalogWellFormed()
    ensures DistinctNames(Skills)
    ensures ConnectionsWellFormed(Skills, SkillConnections)
  {
    assert Skills[0].name == "Python" && Skills[1].name == "AWS" && Skills[2].name == "Kafka";
    assert Skills[3].name == "AI" && Skills[4].name == "React" && Skills[5].name == "Docker";
    assert Skills[6].name == "Terraform" && Skills[7].name == "ML";
  }

  // ---- terminal replies ----

  const AccessGranted := "Access granted. Portfolio system loaded."
  const CommandList := "Available commands: access, help, projects, skills, contact"
  const ToProjects := "Navigating to projects section..."
  const ToSkills := "Navigating to skills matrix..."

  /** The reply for a command no keyword matches: the command as typed, in double quotes. */
  function NotRecognised(command: string): string {
    "Command not recognized: \"" + command + "\""
  }

  /** Some keyword rule of the terminal applies to the normalised command. */
  predicate TerminalRecognises(command: string) {
    var n := Normalize(command);
    (Contains(n, "access") && Contains(n, "portfolio")) || Contains(n, "help")
      || Contains(n, "projects") || Contains(n, "skills")
  }

  /** `getTerminalResponse`: the first keyword rule that applies to the lowered, trimmed command. */
  function TerminalResponse(command: string): string {
    var n := Normalize(command);
    if Contains(n, "access") && Contains(n, "portfolio") then AccessGranted
    else if Contains(n, "help") then CommandList
    else if Contains(n, "projects") then ToProjects
    else if Contains(n, "skills") then ToSkills
    else NotRecognised(command)
  }

  /** Rules are tried in order: the access rule beats "help", and "help" beats the two section names. */
  lemma TerminalFirstRuleWins(command: string)
    ensures var n := Normalize(command);
      && (Contains(n, "access") && Contains(n, "portfolio") ==> TerminalResponse(command) == AccessGranted)
      && (Contains(n, "help") && !(Contains(n, "access") && Contains(n, "portfolio")) ==> TerminalResponse(command) == CommandList)
  {
  }

  /** The echo reply is given exactly when no rule applies. */
  lemma TerminalEchoIffUnrecognised(command: string)
    ensures TerminalResponse(command) == NotRecognised(command) <==> !TerminalRecognises(command)
  {
    var r := NotRecognised(command);
    assert r[|r| - 1] == '"';
    assert AccessGranted[|AccessGranted| - 1] == '.' && CommandList[|CommandList| - 1] == 't';
    assert ToProjects[|ToProjects| - 1] == '.' && ToSkills[|ToSkills| - 1] == '.';
  }

  /** A recognised command gets the same reply as any command with the same normal form. */
  lemma TerminalReplyDependsOnNormalForm(c: string, d: string)
    requires Normalize(c) == Normalize(d) && TerminalRecognises(c)
    ensures TerminalResponse(c) == TerminalResponse(d)
  {
  }

  /**
   * Sending the normal form instead of the command changes nothing exactly when the command is
   * recognised or already normal: an unrecognised reply echoes the command as typed.
   */
  lemma TerminalNormalFormReply(command: string)
    ensures TerminalResponse(Normalize(command)) == TerminalResponse(command)
        <==> TerminalRecognises(command) || Normalize(command) == command
  {
    var n := Normalize(command);
    NormalizeIdempotent(command);
    if !TerminalRecognises(command) && TerminalResponse(n) == TerminalResponse(command) {
      var prefix := "Command not recognized: \"";
      assert NotRecognised(n) == NotRecognised(command);
      assert |n| == |command|;
      assert n == NotRecognised(n)[|prefix|..|prefix| + |n|];
      assert command == NotRecognised(command)[|prefix|..|prefix| + |command|];
    }
  }

  // ---- assistant replies ----

  const AboutProjects := "I've created various automation projects including an ETL pipeline processing 500M+ daily records. Would you like to see the projects section?"
  const AboutSkills := "My core skills include Python, AWS, AI integration, and data pipeline engineering. The 3D skill web shows how these connect."
  const AboutContact := "You can reach out via the contact form or connect directly on LinkedIn and GitHub. Would you like me to navigate to the contact section?"
  const AboutLazarus := "Lazarus is the code name for this portfolio's owner - a senior automation engineer specializing in AWS, Python development, and AI integration. The name symbolizes bringing legacy systems back to life through modern technology."
  const AboutAssistant := "I can provide information about Lazarus's skills, projects, and work experience. I can also navigate you to different sections of the portfolio. Try asking about specific skills, project details, or how to get in contact."
  const Greeting := "I'm a portfolio AI assistant for Lazarus. I can tell you about my projects, skills, or work experience. How can I help you today?"

  /** `getAIResponse`: the reply of the first keyword group the lowered, trimmed message mentions. */
  function AIResponse(message: string): string {
    var n := Normalize(message);
    if Contains(n, "project") || Contains(n, "work") then AboutProjects
    else if Contains(n, "skill") || Contains(n, "technology") then AboutSkills
    else if Contains(n, "contact") || Contains(n, "hire") then AboutContact
    else if Contains(n, "lazarus") || Contains(n, "you") || Contains(n, "who") then AboutLazarus
    else if Contains(n, "do") || Contains(n, "help") || Contains(n, "can") then AboutAssistant
    else Greeting
  }

  /** The assistant's dispatch as an ordered table: keyword groups, and one reply per group plus a default. */
  const AIKeywordGroups: seq<seq<string>> := [
    ["project", "work"],
    ["skill", "technology"],
    ["contact", "hire"],
    ["lazarus", "you", "who"],
    ["do", "help", "can"]
  ]

  const AIReplies: seq<string> := [AboutProjects, AboutSkills, AboutContact, AboutLazarus, AboutAssistant, Greeting]

  /** `n` contains at least one of the keywords. */
  predicate MentionsAny(n: string, keywords: seq<string>) {
    |keywords| > 0 && (Contains(n, keywords[0]) || MentionsAny(n, keywords[1..]))
  }

  /** `MentionsAny` spelled out for the short keyword lists of the table. */
  lemma MentionsThese(n: string, ws: seq<string>)
    requires 2 <= |ws| <= 3
    ensures |ws| == 2 ==> (MentionsAny(n, ws) <==> Contains(n, ws[0]) || Contains(n, ws[1]))
    ensures |ws| == 3 ==> (MentionsAny(n, ws) <==> Contains(n, ws[0]) || Contains(n, ws[1]) || Contains(n, ws[2]))
  {
    assert MentionsAny(n, ws) <==> Contains(n, ws[0]) || MentionsAny(n, ws[1..]);
    assert MentionsAny(n, ws[1..]) <==> Contains(n, ws[1]) || MentionsAny(n, ws[2..]);
    if |ws| == 2 {
      assert ws[2..] == [];
    } else {
      assert MentionsAny(n, ws[2..]) <==> Contains(n, ws[2]) || MentionsAny(n, ws[3..]);
      assert ws[3..] == [];
    }
  }

  /** The index of the first group `n` mentions, or `|groups|` when it mentions none. */
  function FirstGroup(n: string, groups: seq<seq<string>>): (k: nat)
    ensures k <= |groups|
    ensures k < |groups| ==> MentionsAny(n, groups[k])
    ensures forall j :: 0 <= j < k ==> !MentionsAny(n, groups[j])
  {
    if groups == [] then 0
    else if MentionsAny(n, groups[0]) then 0
    else 1 + FirstGroup(n, groups[1..])
  }

  /** The if/else chain is the table lookup: the reply of the first group mentioned, else the greeting. */
  lemma AIResponseIsTableLookup(message: string)
    ensures AIResponse(message) == AIReplies[FirstGroup(Normalize(message), AIKeywordGroups)]
  {
    var n := Normalize(message);
    var g := AIKeywordGroups;
    assert g[1..][1..][1..][1..][1..] == [];
    MentionsThese(n, g[0]);
    MentionsThese(n, g[1]);
    MentionsThese(n, g[2]);
    MentionsThese(n, g[3]);
    MentionsThese(n, g[4]);
    assert FirstGroup(n, g[1..][1..][1..][1..]) == if MentionsAny(n, g[4]) then 0 else 1;
    assert FirstGroup(n, g[1..][1..][1..]) == if MentionsAny(n, g[3]) then 0 else 1 + FirstGroup(n, g[1..][1..][1..][1..]);
    assert FirstGroup(n, g[1..][1..]) == if MentionsAny(n, g[2]) then 0 else 1 + FirstGroup(n, g[1..][1..][1..]);
    assert FirstGroup(n, g[1..]) == if MentionsAny(n, g[1]) then 0 else 1 + FirstGroup(n, g[1..][1..]);
    assert FirstGroup(n, g) == if MentionsAny(n, g[0]) then 0 else 1 + FirstGroup(n, g[1..]);
  }

  /** A message that mentions group `k` never gets the reply of a later group or the greeting. */
  lemma AIEarlierGroupWins(message: string, k: nat)
    requires k < |AIKeywordGroups| && MentionsAny(Normalize(message), AIKeywordGroups[k])
    ensures forall j :: k < j < |AIReplies| ==> AIResponse(message) != AIReplies[j]
  {
    AIResponseIsTableLookup(message);
    var f := FirstGroup(Normalize(message), AIKeywordGroups);
    assert f <= k;
    RepliesDistinct();
  }

  /** The six replies differ from each other (their lengths already do). */
  lemma RepliesDistinct()
    ensures forall i, j :: 0 <= i < j < |AIReplies| ==> AIReplies[i] != AIReplies[j]
  {
    assert |AboutProjects| == 142 && |AboutSkills| == 124 && |AboutContact| == 136;
    assert |AboutLazarus| == 227 && |AboutAssistant| == 221 && |Greeting| == 129;
  }

  /** All twelve keywords, group after group. */
  const AIKeywords: seq<string> := AIKeywordGroups[0] + AIKeywordGroups[1] + AIKeywordGroups[2] + AIKeywordGroups[3] + AIKeywordGroups[4]

  lemma {:induction false} MentionsAnyAppend(n: string, a: seq<string>, b: seq<string>)
    ensures MentionsAny(n, a + b) <==> MentionsAny(n, a) || MentionsAny(n, b)
  {
    if a == [] {
      assert a + b == b;
    } else {
      assert (a + b)[0] == a[0];
      assert (a + b)[1..] == a[1..] + b;
      MentionsAnyAppend(n, a[1..], b);
    }
  }

  /** The greeting is the reply exactly when the message mentions none of the twelve keywords. */
  lemma AIGreetingIffNoKeyword(message: string)
    ensures AIResponse(message) == Greeting <==> !MentionsAny(Normalize(message), AIKeywords)
  {
    var n := Normalize(message);
    var g := AIKeywordGroups;
    AIResponseIsTableLookup(message);
    MentionsAnyAppend(n, g[0] + g[1] + g[2] + g[3], g[4]);
    MentionsAnyAppend(n, g[0] + g[1] + g[2], g[3]);
    MentionsAnyAppend(n, g[0] + g[1], g[2]);
    MentionsAnyAppend(n, g[0], g[1]);
    var k := FirstGroup(n, g);
    assert k == 5 <==> !MentionsAny(n, AIKeywords);
    RepliesDistinct();
  }

  /** The categories each catalog project lists. */
  lemma CatalogCategories()
    ensures Projects[0].categories == ["blockchain", "fintech", "web3"]
    ensures Projects[1].categories == ["web", "ai", "consultancy"]
    ensures Projects[2].categories == ["real-estate", "ai", "automation"]
    ensures Projects[3].categories == ["career", "ai", "productivity"]
  {
  }
}
