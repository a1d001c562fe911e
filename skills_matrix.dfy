/** The skills section's data and its two views: each category card counts its skills, and
    the matrix view flattens every category's skills (tagging each with the category's
    label), sorts them by level, highest first, with a stable sort, and keeps the top 30. */
module SkillsMatrix {
  import opened JsText

  /** A skill; `level` is a proficiency from 0 to 100, `experience` is "" when absent. */
  datatype Skill = Skill(name: string, level: int, experience: string)

  /** `labelText` is the category's `label`. */
  datatype SkillCategory = SkillCategory(id: string, labelText: string, skills: seq<Skill>)

  /** A matrix row: a skill with its category's label. */
  datatype MatrixEntry = MatrixEntry(skill: Skill, category: string)

  /** How many rows the matrix view shows at most. */
  const MatrixSize: nat := 30

  const Categories: seq<SkillCategory> := [
    SkillCategory("frontend", "Frontend Engineering", [
      Skill("React", 92, "5y"), Skill("Next.js", 90, "4y"), Skill("TypeScript", 93, "5y"),
      Skill("Tailwind", 88, "4y"), Skill("Framer Motion", 86, "3y"), Skill("Web Performance", 82, "Core Web Vitals")]),
    SkillCategory("backend", "Backend & APIs", [
      Skill("Node.js", 90, "6y"), Skill("NestJS", 84, "3y"), Skill("FastAPI", 80, "3y"),
      Skill("Go", 70, "2y"), Skill("GraphQL", 78, "2y"), Skill("Auth & Security", 82, "OWASP")]),
    SkillCategory("data", "Data & Persistence", [
      Skill("PostgreSQL", 88, "5y"), Skill("MongoDB", 82, "4y"), Skill("Redis", 80, "4y"),
      Skill("Vector DB (Pinecone / Chroma)", 76, "2y"), Skill("Prisma / ORM", 84, "4y")]),
    SkillCategory("ai", "AI Engineering", [
      Skill("LangChain", 80, "2y"), Skill("RAG Architecture", 82, "Prod"), Skill("Prompt Engineering", 78, ""),
      Skill("Embedding Strategies", 74, ""), Skill("TensorFlow", 65, ""), Skill("Evaluation / Metrics", 70, "")]),
    SkillCategory("devops", "DevOps & Cloud", [
      Skill("Docker", 88, "5y"), Skill("Kubernetes", 72, "2y"), Skill("AWS / GCP", 80, "Multi-cloud"),
      Skill("CI/CD", 85, "GitHub Actions"), Skill("Infra as Code", 70, "Terraform"), Skill("Observability", 74, "Logs / Traces")]),
    SkillCategory("tools", "Tooling & Practices", [
      Skill("Git / GitHub", 92, "Flow / trunk"), Skill("Testing (Jest / Vitest)", 82, ""), Skill("Design Systems", 80, ""),
      Skill("Agile Delivery", 78, ""), Skill("Architecture", 85, ""), Skill("DX Automation", 76, "")])
  ]

  /** Every skill level of the given categories lies in 0..100. */
  predicate LevelsInRange(cats: seq<SkillCategory>) {
    forall i, j :: 0 <= i < |cats| && 0 <= j < |cats[i].skills| ==> 0 <= cats[i].skills[j].level <= 100
  }

  /** The constant data respects the documented 0-100 proficiency range. */
  lemma CategoriesLevelsInRange()
    ensures LevelsInRange(Categories)
  {
    forall i | 0 <= i < |Categories|
      ensures forall j :: 0 <= j < |Categories[i].skills| ==> 0 <= Categories[i].skills[j].level <= 100
    {
      var skills := Categories[i].skills;
      assert forall j :: 0 <= j < |skills| ==> 0 <= skills[j].level <= 100;
    }
  }

  /** The count on a category card, `cat.skills.length`. */
  function SkillCount(cat: SkillCategory): nat {
    |cat.skills|
  }

  /** The sum of the card counts. */
  function TotalSkills(cats: seq<SkillCategory>): nat {
    if cats == [] then 0 else SkillCount(cats[0]) + TotalSkills(cats[1..])
  }

  /** `c.skills.map(s => ({ ...s, category: c.label }))`. */
  function Tagged(cat: SkillCategory): (r: seq<MatrixEntry>)
    ensures |r| == |cat.skills|
    ensures forall j :: 0 <= j < |r| ==> r[j] == MatrixEntry(cat.skills[j], cat.labelText)
  {
    seq(|cat.skills|, j requires 0 <= j < |cat.skills| => MatrixEntry(cat.skills[j], cat.labelText))
  }

  /** `CATEGORIES.flatMap(...)`: the tagged skills of every category, category by category. */
  function Flatten(cats: seq<SkillCategory>): (r: seq<MatrixEntry>)
    ensures |r| == TotalSkills(cats)
  {
    if cats == [] then [] else Tagged(cats[0]) + Flatten(cats[1..])
  }

  /** Where category `i`'s skills start in the flattened list. */
  function Offset(cats: seq<SkillCategory>, i: nat): nat
    requires i <= |cats|
  {
    TotalSkills(cats[..i])
  }

  lemma {:induction false} TotalSkillsSplit(cats: seq<SkillCategory>, i: nat)
    requires i < |cats|
    ensures TotalSkills(cats) == TotalSkills(cats[..i]) + SkillCount(cats[i]) + TotalSkills(cats[i + 1..])
  {
    if i == 0 {
      assert cats[..0] == [];
    } else {
      TotalSkillsSplit(cats[1..], i - 1);
      assert cats[1..][..i - 1] == cats[1..i];
      assert cats[..i][1..] == cats[1..i];
      assert cats[1..][i..] == cats[i + 1..];
    }
  }

  /** Skill `j` of category `i` sits at `Offset(cats, i) + j` of the flattened list, tagged
      with its category's label; the stretches of different categories do not overlap, so
      every skill appears exactly once. */
  lemma {:induction false} FlattenAt(cats: seq<SkillCategory>, i: nat, j: nat)
    requires i < |cats| && j < |cats[i].skills|
    ensures Offset(cats, i) + SkillCount(cats[i]) <= TotalSkills(cats)
    ensures Flatten(cats)[Offset(cats, i) + j] == MatrixEntry(cats[i].skills[j], cats[i].labelText)
  {
    TotalSkillsSplit(cats, i);
    if i > 0 {
      FlattenAt(cats[1..], i - 1, j);
      assert cats[1..][..i - 1] == cats[..i][1..];
      assert Offset(cats, i) == SkillCount(cats[0]) + Offset(cats[1..], i - 1);
    }
  }

  /** The next category's stretch starts right after this one's. */
  lemma OffsetNext(cats: seq<SkillCategory>, i: nat)
    requires i < |cats|
    ensures Offset(cats, i + 1) == Offset(cats, i) + SkillCount(cats[i])
  {
    TotalSkillsSplit(cats[..i + 1], i);
    assert cats[..i + 1][..i] == cats[..i];
    assert cats[..i + 1][i + 1..] == [];
  }

  /** Non-increasing by level. */
  predicate SortedByLevel(s: seq<MatrixEntry>) {
    forall i, j :: 0 <= i < j < |s| ==> s[i].skill.level >= s[j].skill.level
  }

  /** The entries of level `v`, in order. */
  function WithLevel(s: seq<MatrixEntry>, v: int): (r: seq<MatrixEntry>)
    ensures |r| <= |s|
  {
    if s == [] then [] else (if s[0].skill.level == v then [s[0]] else []) + WithLevel(s[1..], v)
  }

  /** Puts `e` in front of the first entry whose level is not above its own. */
  function Insert(e: MatrixEntry, s: seq<MatrixEntry>): (r: seq<MatrixEntry>)
    ensures |r| == |s| + 1
    ensures multiset(r) == multiset(s) + multiset{e}
  {
    if s == [] then [e]
    else if s[0].skill.level <= e.skill.level then [e] + s
    else
      assert s == [s[0]] + s[1..];
      [s[0]] + Insert(e, s[1..])
  }

  /** Inserting an entry no higher than `bound` into entries no higher than `bound` gives
      entries no higher than `bound`. */
  lemma {:induction false} InsertBounded(e: MatrixEntry, s: seq<MatrixEntry>, bound: int)
    requires e.skill.level <= bound && forall k :: 0 <= k < |s| ==> s[k].skill.level <= bound
    ensures forall k :: 0 <= k < |Insert(e, s)| ==> Insert(e, s)[k].skill.level <= bound
  {
    if s != [] && s[0].skill.level > e.skill.level {
      InsertBounded(e, s[1..], bound);
      assert Insert(e, s) == [s[0]] + Insert(e, s[1..]);
    }
  }

  /** An entry no lower than every entry of a sorted list can go in front of it. */
  lemma ConsSorted(x: MatrixEntry, t: seq<MatrixEntry>)
    requires SortedByLevel(t) && forall k :: 0 <= k < |t| ==> t[k].skill.level <= x.skill.level
    ensures SortedByLevel([x] + t)
  {
    var r := [x] + t;
    forall i, j | 0 <= i < j < |r| ensures r[i].skill.level >= r[j].skill.level {
      assert r[j] == t[j - 1];
      if i > 0 {
        assert r[i] == t[i - 1];
      }
    }
  }

  /** Inserting into a sorted list keeps it sorted. */
  lemma {:induction false} InsertSorted(e: MatrixEntry, s: seq<MatrixEntry>)
    requires SortedByLevel(s)
    ensures SortedByLevel(Insert(e, s))
  {
    if s == [] {
    } else if s[0].skill.level <= e.skill.level {
      ConsSorted(e, s);
    } else {
      var t := Insert(e, s[1..]);
      assert Insert(e, s) == [s[0]] + t;
      InsertSorted(e, s[1..]);
      InsertBounded(e, s[1..], s[0].skill.level);
      ConsSorted(s[0], t);
    }
  }

  /** Inserting into a sorted list puts `e` before every entry of its own level that is
      already there: the entries of each level keep their order. */
  lemma {:induction false} InsertWithLevel(e: MatrixEntry, s: seq<MatrixEntry>, v: int)
    ensures WithLevel(Insert(e, s), v) == if e.skill.level == v then [e] + WithLevel(s, v) else WithLevel(s, v)
  {
    if s == [] {
    } else if s[0].skill.level <= e.skill.level {
      assert Insert(e, s) == [e] + s;
      assert ([e] + s)[1..] == s;
    } else {
      var t := Insert(e, s[1..]);
      var head := if s[0].skill.level == v then [s[0]] else [];
      InsertWithLevel(e, s[1..], v);
      assert Insert(e, s) == [s[0]] + t;
      assert ([s[0]] + t)[1..] == t;
      assert WithLevel(Insert(e, s), v) == head + WithLevel(t, v);
      assert WithLevel(s, v) == head + WithLevel(s[1..], v);
      if e.skill.level == v {
        assert head == [];
      }
    }
  }

  /** `flat.sort((a, b) => b.level - a.level)`: a stable sort, highest level first. */
  function SortByLevel(s: seq<MatrixEntry>): (r: seq<MatrixEntry>)
    ensures |r| == |s|
    ensures multiset(r) == multiset(s)
  {
    if s == [] then []
    else
      assert s == [s[0]] + s[1..];
      Insert(s[0], SortByLevel(s[1..]))
  }

  /** The sort's result is ordered by level, highest first, and within each level keeps the
      input order (stability); with the permutation above this fixes the result. */
  lemma {:induction false} SortByLevelSpec(s: seq<MatrixEntry>)
    ensures SortedByLevel(SortByLevel(s))
    ensures forall v :: WithLevel(SortByLevel(s), v) == WithLevel(s, v)
  {
    if s != [] {
      var t := SortByLevel(s[1..]);
      SortByLevelSpec(s[1..]);
      InsertSorted(s[0], t);
      forall v ensures WithLevel(SortByLevel(s), v) == WithLevel(s, v) {
        InsertWithLevel(s[0], t, v);
      }
    }
  }

  /** `MatrixView`'s rows: the flattened skills sorted by level, the first 30. */
  function MatrixRows(cats: seq<SkillCategory>): seq<MatrixEntry> {
    Prefix(SortByLevel(Flatten(cats)), MatrixSize)
  }

  /** The first `n` entries of a sorted list are sorted, and nothing after them has a
      higher level than any of them. */
  lemma TopOfSorted(s: seq<MatrixEntry>, n: nat)
    requires SortedByLevel(s)
    ensures var top := Prefix(s, n);
      && SortedByLevel(top)
      && top + s[|top|..] == s
      && multiset(top) <= multiset(s)
      && forall i, j :: 0 <= i < |top| <= j < |s| ==> s[j].skill.level <= top[i].skill.level
  {
    var top := Prefix(s, n);
    assert s == top + s[|top|..];
    assert multiset(s) == multiset(top) + multiset(s[|top|..]);
  }

  /** The matrix shows min(30, total) rows, highest level first; every row is one of the
      flattened skills; and every skill left out has a level no higher than any shown. */
  lemma MatrixRowsSpec(cats: seq<SkillCategory>)
    ensures var rows := MatrixRows(cats); var sorted := SortByLevel(Flatten(cats));
      && |rows| == (if TotalSkills(cats) < MatrixSize then TotalSkills(cats) else MatrixSize)
      && SortedByLevel(rows)
      && multiset(rows) <= multiset(Flatten(cats))
      && rows + sorted[|rows|..] == sorted
      && forall i, j :: 0 <= i < |rows| <= j < |sorted| ==> sorted[j].skill.level <= rows[i].skill.level
  {
    SortByLevelSpec(Flatten(cats));
    TopOfSorted(SortByLevel(Flatten(cats)), MatrixSize);
  }

  /** With the constant data: 35 skills, so the matrix shows 30 of them. */
  lemma MatrixOfCategories()
    ensures TotalSkills(Categories) == 35
    ensures |MatrixRows(Categories)| == MatrixSize
  {
    var c := Categories;
    assert TotalSkills(c[6..]) == 0;
    assert c[5..][1..] == c[6..];
    assert TotalSkills(c[5..]) == 6;
    assert c[4..][1..] == c[5..];
    assert TotalSkills(c[4..]) == 12;
    assert c[3..][1..] == c[4..];
    assert TotalSkills(c[3..]) == 18;
    assert c[2..][1..] == c[3..];
    assert TotalSkills(c[2..]) == 23;
    assert c[1..][1..] == c[2..];
    assert TotalSkills(c[1..]) == 29;
    assert TotalSkills(c) == 35;
    MatrixRowsSpec(c);
  }
}
