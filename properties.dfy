/**
 * What the generator promises about the records it produces and about the
 * whole generated sequence, proved about the specification `UserAt` and
 * `IsGeneration` that the loop methods are proved to meet.
 */
module UserProperties {
  import opened Wrappers
  import opened Text
  import opened UserModel
  import opened Generator

  // Facts about the fixed tables.

  lemma FirstNamesDistinct()
    ensures forall p, q :: 0 <= p < q < |FirstNames| ==> FirstNames[p] != FirstNames[q]
  {}

  lemma LastNamesDistinct()
    ensures forall p, q :: 0 <= p < q < |LastNames| ==> LastNames[p] != LastNames[q]
  {}

  lemma SkillsDistinct()
    ensures forall p, q :: 0 <= p < q < |Skills| ==> Skills[p] != Skills[q]
  {}

  lemma ProjectNamesDistinct()
    ensures forall p, q :: 0 <= p < q < |ProjectNames| ==> ProjectNames[p] != ProjectNames[q]
  {}

  lemma NamePartsSpaceFree(i: nat)
    ensures SpaceFree(FirstName(i)) && SpaceFree(LastName(i))
  {
    assert forall p :: 0 <= p < |FirstNames| ==> SpaceFree(FirstNames[p]);
    assert forall p :: 0 <= p < |LastNames| ==> SpaceFree(LastNames[p]);
  }

  /** Fewer than `n` consecutive positions taken modulo `n` are pairwise distinct. */
  lemma ModShiftDistinct(x: nat, a: nat, b: nat, n: nat)
    requires a < b < a + n
    ensures (x + a) % n != (x + b) % n
  {
    var qa, qb := (x + a) / n, (x + b) / n;
    assert x + a == qa * n + (x + a) % n;
    assert x + b == qb * n + (x + b) % n;
    if qb <= qa {
      assert qb * n <= qa * n;
    } else {
      assert (qa + 1) * n <= qb * n;
    }
  }

  lemma FourDividesTwoDivides(i: nat)
    requires i % 4 == 0
    ensures i % 2 == 0
  {
    var half := 2 * (i / 4);
    assert i == 2 * half;
    assert i / 2 == half;
  }

  // The whole generated sequence.

  function Ids(users: seq<User>): set<int> { set u | u in users :: u.id }

  /** The ids of a generation are exactly 1..count, strictly increasing. */
  lemma GenerationIds(count: int, users: seq<User>)
    requires IsGeneration(count, users)
    ensures forall n :: n in Ids(users) <==> 1 <= n <= count
    ensures forall a, b :: 0 <= a < b < |users| ==> users[a].id < users[b].id
  {
    forall n | 1 <= n <= count ensures n in Ids(users) {
      assert users[n - 1] in users;
    }
    forall n | n in Ids(users) ensures 1 <= n <= count {
      var u :| u in users && u.id == n;
      var k :| 0 <= k < |users| && users[k] == u;
    }
  }

  /** Generation is deterministic: two results for the same count are equal. */
  lemma GenerationDeterministic(count: int, a: seq<User>, b: seq<User>)
    requires IsGeneration(count, a) && IsGeneration(count, b)
    ensures a == b
  {
    assert forall k :: 0 <= k < |a| ==> a[k] == b[k];
  }

  /** Generating fewer records yields a prefix of generating more. */
  lemma GenerationPrefix(m: int, n: int, a: seq<User>, b: seq<User>)
    requires m <= n
    requires IsGeneration(m, a) && IsGeneration(n, b)
    ensures a == b[..|a|]
  {
    assert forall k :: 0 <= k < |a| ==> a[k] == b[k];
  }

  // Each record.

  /** Record `i` (whose skills are `SkillsOf(i)`) has `3 + i % 5` skill tags, consecutive in the
      vocabulary and never repeated. */
  lemma SkillsRule(i: nat)
    ensures |SkillsOf(i)| == 3 + i % 5
    ensures 3 <= |SkillsOf(i)| <= 7
    ensures forall j :: 0 <= j < |SkillsOf(i)| ==> SkillsOf(i)[j] == Skills[(i + j) % |Skills|]
    ensures forall a, b :: 0 <= a < b < |SkillsOf(i)| ==> SkillsOf(i)[a] != SkillsOf(i)[b]
  {
    var s := SkillsOf(i);
    forall a, b | 0 <= a < b < |s| ensures s[a] != s[b] {
      ModShiftDistinct(i, a, b, |Skills|);
      SkillsDistinct();
      var p, q := (i + a) % |Skills|, (i + b) % |Skills|;
      assert s[a] == Skills[p] && s[b] == Skills[q];
    }
  }

  /** Record `i` (whose projects are `ProjectsOf(i)`) has `2 + i % 3` projects; entry `j` is named
      at `(i + j) % 10`, described around that name, dated 2018..2024, and no project name repeats. */
  lemma ProjectsRule(i: nat)
    ensures |ProjectsOf(i)| == 2 + i % 3
    ensures 2 <= |ProjectsOf(i)| <= 4
    ensures forall j :: 0 <= j < |ProjectsOf(i)| ==>
      var p := ProjectsOf(i)[j];
      p.name == ProjectNames[(i + j) % |ProjectNames|] &&
      p.description == "Led development of " + p.name + " using modern technologies and best practices" &&
      p.year == 2018 + (i + j) % 7 &&
      2018 <= p.year <= 2024
    ensures forall a, b :: 0 <= a < b < |ProjectsOf(i)| ==> ProjectsOf(i)[a].name != ProjectsOf(i)[b].name
  {
    var ps := ProjectsOf(i);
    forall a, b | 0 <= a < b < |ps| ensures ps[a].name != ps[b].name {
      ModShiftDistinct(i, a, b, |ProjectNames|);
      ProjectNamesDistinct();
      var p, q := (i + a) % |ProjectNames|, (i + b) % |ProjectNames|;
      assert ps[a].name == ProjectNames[p] && ps[b].name == ProjectNames[q];
    }
  }

  /** Presence of each social handle is decided by the id alone, and a GitHub handle implies a
      LinkedIn one. */
  lemma SocialLinksPresence(i: nat)
    ensures UserAt(i).socialLinks.twitter.Some? <==> i % 3 == 0
    ensures UserAt(i).socialLinks.linkedin.Some? <==> i % 2 == 0
    ensures UserAt(i).socialLinks.github.Some? <==> i % 4 == 0
    ensures UserAt(i).socialLinks.github.Some? ==> UserAt(i).socialLinks.linkedin.Some?
  {
    if i % 4 == 0 {
      FourDividesTwoDivides(i);
    }
  }

  /** A present handle is built from the lower-cased name parts and the id. */
  lemma SocialLinksValues(i: nat)
    ensures UserAt(i).socialLinks.twitter.Some? ==>
      UserAt(i).socialLinks.twitter.value == "@" + ToLower(FirstNames[i % 10]) + NatToString(i)
    ensures UserAt(i).socialLinks.linkedin.Some? ==>
      UserAt(i).socialLinks.linkedin.value ==
        "linkedin.com/in/" + ToLower(FirstNames[i % 10]) + "-" + ToLower(LastNames[(i / 10) % 10]) + "-" + NatToString(i)
    ensures UserAt(i).socialLinks.github.Some? ==>
      UserAt(i).socialLinks.github.value == "github.com/" + ToLower(FirstNames[i % 10]) + NatToString(i)
  {}

  /** Theme, language and notification flag always come from their closed sets;
      notifications are on exactly when a LinkedIn handle is present. */
  lemma PreferencesRule(i: nat)
    ensures UserAt(i).preferences.theme == Themes[i % 3]
    ensures UserAt(i).preferences.theme in {"light", "dark", "auto"}
    ensures UserAt(i).preferences.language == Languages[i % 6]
    ensures UserAt(i).preferences.language in {"en", "es", "fr", "de", "ja", "zh"}
    ensures UserAt(i).preferences.notifications <==> i % 2 == 0
    ensures UserAt(i).preferences.notifications <==> UserAt(i).socialLinks.linkedin.Some?
  {}

  /** Every stats counter lies in its base offset plus a modulus range. */
  lemma StatsBounds(i: nat)
    ensures 100 <= UserAt(i).stats.followers <= 5099
    ensures 50 <= UserAt(i).stats.following <= 1049
    ensures 10 <= UserAt(i).stats.posts <= 509
    ensures 500 <= UserAt(i).stats.likes <= 10499
  {}

  /** Bio, company, position and location are table entries selected by `i % 10`. */
  lemma DescriptiveFields(i: nat)
    ensures UserAt(i).bio == BioTemplates[i % 10] && UserAt(i).bio in BioTemplates
    ensures UserAt(i).company == Companies[i % 10] && UserAt(i).company in Companies
    ensures UserAt(i).position == Positions[i % 10] && UserAt(i).position in Positions
    ensures UserAt(i).location == Locations[i % 10] && UserAt(i).location in Locations
  {}

  /** The display name is first name, last name and `i / 100`, space separated. */
  lemma NameRule(i: nat)
    ensures UserAt(i).name == FirstNames[i % 10] + " " + LastNames[(i / 10) % 10] + " " + NatToString(i / 100)
    ensures UserAt(i).email == "user" + NatToString(i) + "@example.com"
    ensures UserAt(i).avatar == "https://picsum.photos/seed/" + NatToString(i) + "/150/150"
  {}

  /** `first + " " + last + " " + n` with space-free name parts recovers all three. */
  lemma ThreePartSplit(f1: string, l1: string, n1: nat, f2: string, l2: string, n2: nat)
    requires SpaceFree(f1) && SpaceFree(l1) && SpaceFree(f2) && SpaceFree(l2)
    requires f1 + " " + l1 + " " + NatToString(n1) == f2 + " " + l2 + " " + NatToString(n2)
    ensures f1 == f2 && l1 == l2 && n1 == n2
  {
    var d1, d2 := NatToString(n1), NatToString(n2);
    assert f1 + " " + l1 + " " + d1 == f1 + " " + (l1 + " " + d1);
    assert f2 + " " + l2 + " " + d2 == f2 + " " + (l2 + " " + d2);
    SplitAtSpace(f1, l1 + " " + d1, f2, l2 + " " + d2);
    SplitAtSpace(l1, d1, l2, d2);
    NatToStringInjective(n1, n2);
  }

  /** A display name splits back into its first name, last name and suffix. */
  lemma DisplayNameParts(i: nat, j: nat)
    requires DisplayName(i) == DisplayName(j)
    ensures FirstName(i) == FirstName(j) && LastName(i) == LastName(j) && i / 100 == j / 100
  {
    NamePartsSpaceFree(i);
    NamePartsSpaceFree(j);
    ThreePartSplit(FirstName(i), LastName(i), i / 100, FirstName(j), LastName(j), j / 100);
  }

  /** The last three decimal positions of an id determine it. */
  lemma DigitsDetermine(i: nat, j: nat)
    requires i % 10 == j % 10 && (i / 10) % 10 == (j / 10) % 10 && i / 100 == j / 100
    ensures i == j
  {
    assert i / 10 == 10 * (i / 100) + (i / 10) % 10;
    assert j / 10 == 10 * (j / 100) + (j / 10) % 10;
  }

  /** No two ids share a display name (a record's `name` is `DisplayName` of its id): first name,
      last name and suffix together recover the id. */
  lemma DisplayNameInjective(i: nat, j: nat)
    requires DisplayName(i) == DisplayName(j)
    ensures i == j
  {
    DisplayNameParts(i, j);
    FirstNamesDistinct();
    LastNamesDistinct();
    assert i % 10 == j % 10 by {
      var p, q := i % 10, j % 10;
      assert FirstNames[p] == FirstNames[q];
    }
    assert (i / 10) % 10 == (j / 10) % 10 by {
      var p, q := (i / 10) % 10, (j / 10) % 10;
      assert LastNames[p] == LastNames[q];
    }
    DigitsDetermine(i, j);
  }

  /** No two records of a generation share a display name, an email address or an avatar URI. */
  lemma GeneratedRecordsDistinct(count: int, users: seq<User>, a: nat, b: nat)
    requires IsGeneration(count, users) && a < b < |users|
    ensures users[a].name != users[b].name
    ensures users[a].email != users[b].email
    ensures users[a].avatar != users[b].avatar
  {
    RecordsOfDistinctIds(users[a], users[b], a + 1, b + 1);
  }

  lemma RecordsOfDistinctIds(u: User, v: User, i: nat, j: nat)
    requires u == UserAt(i) && v == UserAt(j) && i != j
    ensures u.name != v.name && u.email != v.email && u.avatar != v.avatar
  {
    if u.name == v.name {
      DisplayNameInjective(i, j);
    }
    if u.email == v.email {
      EmailInjective(i, j);
    }
    if u.avatar == v.avatar {
      AvatarInjective(i, j);
    }
  }

  /** Every record of a generation has 3 to 7 distinct skill tags and 2 to 4 projects with
      distinct names, each dated 2018..2024. */
  lemma GeneratedListsRule(count: int, users: seq<User>, k: nat)
    requires IsGeneration(count, users) && k < |users|
    ensures 3 <= |users[k].skills| <= 7
    ensures forall a, b :: 0 <= a < b < |users[k].skills| ==> users[k].skills[a] != users[k].skills[b]
    ensures 2 <= |users[k].projects| <= 4
    ensures forall a, b :: 0 <= a < b < |users[k].projects| ==> users[k].projects[a].name != users[k].projects[b].name
    ensures forall j :: 0 <= j < |users[k].projects| ==> 2018 <= users[k].projects[j].year <= 2024
  {
    assert users[k] == UserAt(k + 1);
    SkillsRule(k + 1);
    ProjectsRule(k + 1);
  }

  /** No two ids share an email address (a record's `email` is `Email` of its id). */
  lemma EmailInjective(i: nat, j: nat)
    requires Email(i) == Email(j)
    ensures i == j
  {
    TemplateInjective("user", "@example.com", i, j);
  }

  /** No two ids share an avatar URI (a record's `avatar` is `Avatar` of its id). */
  lemma AvatarInjective(i: nat, j: nat)
    requires Avatar(i) == Avatar(j)
    ensures i == j
  {
    TemplateInjective("https://picsum.photos/seed/", "/150/150", i, j);
  }
}
