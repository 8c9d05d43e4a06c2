/**
 * The deterministic user generator. Every field of record `i` is integer
 * arithmetic on `i` indexing fixed string tables. The per-field rules are
 * functions; `UserAt(i)` assembles them into the record the generator must
 * produce, and the methods below build the lists and the whole sequence with
 * loops, proved equal to that specification.
 */
module Generator {
  import opened Wrappers
  import opened Text
  import opened UserModel

  const FirstNames: seq<string> := ["John", "Jane", "Alice", "Bob", "Charlie", "Diana", "Eve", "Frank", "Grace", "Henry"]
  const LastNames: seq<string> := ["Smith", "Johnson", "Williams", "Brown", "Jones", "Garcia", "Miller", "Davis", "Rodriguez", "Martinez"]
  const BioTemplates: seq<string> := [
    "Passionate developer who loves coding and building scalable applications",
    "Design enthusiast and creative thinker focused on user experience",
    "Tech lead with 10+ years of experience in distributed systems",
    "Full-stack developer and coffee lover specializing in web technologies",
    "Frontend specialist focused on UX and performance optimization",
    "Backend engineer who loves databases and system architecture",
    "DevOps expert automating everything with modern cloud infrastructure",
    "Mobile developer building native apps for iOS and Android platforms",
    "Data scientist exploring AI/ML and deep learning applications",
    "Product manager shipping features that users love and driving growth"
  ]
  const Companies: seq<string> := ["TechCorp", "StartupXYZ", "MegaSoft", "CloudNine", "DataDynamics", "InnovateLabs", "DevForce", "CodeCraft", "SysOps Inc", "WebWorks"]
  const Positions: seq<string> := ["Senior Engineer", "Lead Developer", "Principal Architect", "Staff Engineer", "Engineering Manager", "Tech Lead", "Software Engineer", "Developer Advocate", "Solutions Architect", "VP of Engineering"]
  const Locations: seq<string> := ["San Francisco, CA", "New York, NY", "Austin, TX", "Seattle, WA", "Boston, MA", "Denver, CO", "Portland, OR", "Chicago, IL", "Los Angeles, CA", "Miami, FL"]
  const Skills: seq<string> := ["JavaScript", "TypeScript", "React", "Node.js", "Python", "Go", "Rust", "Docker", "Kubernetes", "AWS", "Azure", "GraphQL", "PostgreSQL", "MongoDB", "Redis", "CI/CD"]
  const ProjectNames: seq<string> := ["E-Commerce Platform", "Real-time Chat App", "Analytics Dashboard", "Mobile Banking App", "Social Media Platform", "CRM System", "Inventory Management", "Video Streaming Service", "AI Chatbot", "Cloud Infrastructure"]
  const Themes: seq<string> := ["light", "dark", "auto"]
  const Languages: seq<string> := ["en", "es", "fr", "de", "ja", "zh"]

  const ProjectDescriptionPrefix: string := "Led development of "
  const ProjectDescriptionSuffix: string := " using modern technologies and best practices"

  // Per-field rules for record `i`.

  function FirstName(i: nat): string { FirstNames[i % |FirstNames|] }

  function LastName(i: nat): string { LastNames[(i / |FirstNames|) % |LastNames|] }

  function DisplayName(i: nat): string
  {
    FirstName(i) + " " + LastName(i) + " " + NatToString(i / 100)
  }

  function Email(i: nat): string { "user" + NatToString(i) + "@example.com" }

  function Avatar(i: nat): string { "https://picsum.photos/seed/" + NatToString(i) + "/150/150" }

  function SkillCount(i: nat): nat { 3 + i % 5 }

  /** Skill `j` of record `i`. */
  function SkillAt(i: nat, j: nat): string { Skills[(i + j) % |Skills|] }

  function SkillsOf(i: nat): seq<string>
  {
    seq(SkillCount(i), j requires 0 <= j => SkillAt(i, j))
  }

  function ProjectCount(i: nat): nat { 2 + i % 3 }

  /** Project `j` of record `i`: its name, the description built around that name, and its year. */
  function ProjectAt(i: nat, j: nat): Project
  {
    var name := ProjectNames[(i + j) % |ProjectNames|];
    Project(name, ProjectDescriptionPrefix + name + ProjectDescriptionSuffix, 2018 + (i + j) % 7)
  }

  function ProjectsOf(i: nat): seq<Project>
  {
    seq(ProjectCount(i), j requires 0 <= j => ProjectAt(i, j))
  }

  function Twitter(i: nat): Option<string>
  {
    if i % 3 == 0 then Some("@" + ToLower(FirstName(i)) + NatToString(i)) else None
  }

  function LinkedIn(i: nat): Option<string>
  {
    if i % 2 == 0 then
      Some("linkedin.com/in/" + ToLower(FirstName(i)) + "-" + ToLower(LastName(i)) + "-" + NatToString(i))
    else None
  }

  function GitHub(i: nat): Option<string>
  {
    if i % 4 == 0 then Some("github.com/" + ToLower(FirstName(i)) + NatToString(i)) else None
  }

  function PreferencesOf(i: nat): Preferences
  {
    Preferences(Themes[i % |Themes|], Languages[i % |Languages|], i % 2 == 0)
  }

  function StatsOf(i: nat): Stats
  {
    Stats(100 + (i * 7) % 5000, 50 + (i * 3) % 1000, 10 + (i * 11) % 500, 500 + (i * 13) % 10000)
  }

  /** Record `i` around the given skills and projects lists; every other field follows its rule. */
  function RecordWith(i: nat, userSkills: seq<string>, userProjects: seq<Project>): (r: User)
    ensures r.id == i && r.skills == userSkills && r.projects == userProjects
    ensures r.socialLinks.twitter.Some? <==> i % 3 == 0
    ensures r.socialLinks.linkedin.Some? <==> i % 2 == 0
    ensures r.socialLinks.github.Some? <==> i % 4 == 0
    ensures r.preferences.notifications <==> r.socialLinks.linkedin.Some?
  {
    User(i, DisplayName(i), Email(i), Avatar(i),
      BioTemplates[i % |BioTemplates|], Companies[i % |Companies|],
      Positions[i % |Positions|], Locations[i % |Locations|],
      userSkills, userProjects,
      SocialLinks(Twitter(i), LinkedIn(i), GitHub(i)),
      PreferencesOf(i), StatsOf(i))
  }

  /** The record the generator produces for id `i`. */
  function UserAt(i: nat): (r: User)
    ensures r.id == i
    ensures |r.skills| == 3 + i % 5 && |r.projects| == 2 + i % 3
    ensures r.socialLinks.twitter.Some? <==> i % 3 == 0
    ensures r.socialLinks.linkedin.Some? <==> i % 2 == 0
    ensures r.socialLinks.github.Some? <==> i % 4 == 0
  {
    RecordWith(i, SkillsOf(i), ProjectsOf(i))
  }

  /** The number of records a loop `for (i = 1; i <= count; i++)` runs for. */
  function RecordCount(count: int): nat { if count <= 0 then 0 else count }

  /** `users` is the output of the generator for `count`: records 1..count in order. */
  predicate IsGeneration(count: int, users: seq<User>)
  {
    |users| == RecordCount(count) &&
    forall k :: 0 <= k < |users| ==> users[k] == UserAt(k + 1)
  }

  /** The inner skills loop: `3 + i % 5` tags, tag `j` taken at `(i + j) % 16`. */
  method BuildSkills(i: nat) returns (userSkills: seq<string>)
    ensures |userSkills| == 3 + i % 5
    ensures forall j :: 0 <= j < |userSkills| ==> userSkills[j] == Skills[(i + j) % |Skills|]
  {
    var numSkills := 3 + i % 5;
    userSkills := [];
    var j := 0;
    while j < numSkills
      invariant 0 <= j <= numSkills
      invariant |userSkills| == j
      invariant forall k :: 0 <= k < j ==> userSkills[k] == Skills[(i + k) % |Skills|]
    {
      userSkills := userSkills + [Skills[(i + j) % |Skills|]];
      j := j + 1;
    }
  }

  /** The inner projects loop: `2 + i % 3` entries, entry `j` named at `(i + j) % 10`. */
  method BuildProjects(i: nat) returns (userProjects: seq<Project>)
    ensures |userProjects| == 2 + i % 3
    ensures forall j :: 0 <= j < |userProjects| ==>
      var name := ProjectNames[(i + j) % |ProjectNames|];
      userProjects[j] == Project(name, ProjectDescriptionPrefix + name + ProjectDescriptionSuffix, 2018 + (i + j) % 7)
  {
    var numProjects := 2 + i % 3;
    userProjects := [];
    var j := 0;
    while j < numProjects
      invariant 0 <= j <= numProjects
      invariant |userProjects| == j
      invariant forall k :: 0 <= k < j ==> userProjects[k] == ProjectAt(i, k)
    {
      var name := ProjectNames[(i + j) % |ProjectNames|];
      userProjects := userProjects + [Project(name, ProjectDescriptionPrefix + name + ProjectDescriptionSuffix, 2018 + (i + j) % 7)];
      j := j + 1;
    }
  }

  /**
   * The outer loop: for `i` from 1 to `count`, build record `i` and append it.
   * Returns exactly `count` records (none when `count <= 0`), record `k` having id `k + 1`.
   */
  method GenerateUsers(count: int) returns (users: seq<User>)
    ensures |users| == RecordCount(count)
    ensures forall k :: 0 <= k < |users| ==> users[k].id == k + 1 && users[k] == UserAt(k + 1)
  {
    users := [];
    var i := 1;
    while i <= count
      invariant 1 <= i <= RecordCount(count) + 1
      invariant |users| == i - 1
      invariant forall k :: 0 <= k < |users| ==> users[k] == UserAt(k + 1)
    {
      var userSkills := BuildSkills(i);
      var userProjects := BuildProjects(i);
      assert userSkills == SkillsOf(i);
      assert userProjects == ProjectsOf(i);
      var user := RecordWith(i, userSkills, userProjects);
      users := users + [user];
      i := i + 1;
    }
  }
}
