/** The request scenarios of `server/tests/profile.test.js`, stated on the
    model: each fixture profile and what the handlers return for it. */
module Scenarios {
  import opened Wrappers
  import opened Text
  import opened Seqs
  import opened Schema
  import opened ProfileMethods
  import opened Controller

  /** A profile holding only the given name, email and lists. */
  function Fixture(title: Option<String>, bio: Option<String>, skills: seq<Skill>, projects: seq<Project>): Profile {
    Profile("John Doe", "john@example.com", title, bio, None, None, [], skills, projects, [], None, true)
  }

  function ProjectFixture(title: String, description: String, skills: seq<String>, status: Status): Project {
    Project(title, description, [], skills, None, None, status)
  }

  // ------------------------------------------------------------- projects

  const ReactApp := ProjectFixture("React App", "A React application", ["react", "javascript"], Completed)
  const NodeApi := ProjectFixture("Node API", "A Node.js API", ["node.js", "express"], InProgress)
  const ProjectsProfile := Fixture(None, None, [], [ReactApp, NodeApi])

  /** All projects come back on the default page; `skill=react` keeps only
      the React project; `limit=1` gives a page of one. */
  lemma ProjectScenarios()
    ensures GetProjects(ProjectsProfile, None, 1, 10).data == [ReactApp, NodeApi]
    ensures GetProjects(ProjectsProfile, None, 1, 10).pagination.total == 2
    ensures GetProjects(ProjectsProfile, Some("react"), 1, 10).data == [ReactApp]
    ensures |GetProjects(ProjectsProfile, None, 1, 1).data| == 1
    ensures GetProjects(ProjectsProfile, None, 1, 1).pagination.page == 1
    ensures GetProjects(ProjectsProfile, None, 1, 1).pagination.limit == 1
  {
    ReactCandidates();
    assert Skip(1, 10) == 0 && Skip(1, 1) == 0;
  }

  lemma ReactCandidates()
    ensures ProjectCandidates(ProjectsProfile.projects, Some("react")) == [ReactApp]
  {
    var c := ProjectCandidates(ProjectsProfile.projects, Some("react"));
    ReactIsLower();
    assert AnyMentions(ReactApp.skills, "react") by {
      ReactMatches();
      assert Mentions(ReactApp.skills[0], "react");
    }
    NodeApiLacksReact();
    assert ReactApp in c;
    assert NodeApi !in c;
    SubseqOfPair(c, ReactApp, NodeApi);
  }

  lemma NodeApiLacksReact()
    ensures !AnyMentions(NodeApi.skills, "react")
  {
    Lacks("node.js", 'a', 2);
    Lacks("express", 'a', 2);
  }

  /** A subsequence of a two-element list that keeps the first and drops
      the second is the first alone. */
  lemma SubseqOfPair<T>(c: seq<T>, a: T, b: T)
    requires IsSubseq(c, [a, b]) && a in c && b !in c
    ensures c == [a]
  {
    if c[0] == a && IsSubseq(c[1..], [a, b][1..]) {
      assert [a, b][1..] == [b];
      if |c| > 1 {
        assert c[1] in c;
        assert IsSubseq(c[1..], []) by {
          assert c[1..][0] != b;
          assert [b][1..] == [];
        }
      }
    } else {
      assert c[0] in c;
      assert IsSubseq(c, [b]);
      assert IsSubseq(c, []) by {
        assert [b][1..] == [];
      }
    }
  }

  // ----------------------------------------------------------- top skills

  const TopProfile := Fixture(None, None, [
    Skill("javascript", Expert, Frontend),
    Skill("python", Advanced, Backend),
    Skill("html", Intermediate, Frontend)], [])

  /** The default limit returns all three skills, the expert first; a
      limit of 2 returns two. */
  lemma TopSkillScenarios()
    ensures |GetTopSkills(TopProfile, None).top| == 3
    ensures GetTopSkills(TopProfile, None).top[0].level == Expert
    ensures |GetTopSkills(TopProfile, Some(2)).top| == 2
  {
    TopSkillsAreTop(TopProfile, None);
    assert TopProfile.skills[0] in TopProfile.skills;
  }

  // --------------------------------------------------------------- search

  const ReactSkill := Skill("react", Expert, Frontend)
  const JsSkill := Skill("javascript", Expert, Frontend)
  const Dashboard := ProjectFixture("React Dashboard", "A dashboard built with React", ["react", "javascript"], Completed)
  const SearchFixture := Fixture(Some("React Developer"), Some("Passionate about JavaScript and React"),
                                 [ReactSkill, JsSkill], [Dashboard])

  /** `q=react` finds the header, the one project and one of the two
      skills; no `q` is refused with the required-query message. */
  lemma SearchScenarios()
    ensures SearchProfile(SearchFixture, Some("react")).Success?
    ensures SearchProfile(SearchFixture, Some("react")).value.profile.Some?
    ensures |SearchProfile(SearchFixture, Some("react")).value.projects| == 1
    ensures SearchProfile(SearchFixture, Some("react")).value.skills == [ReactSkill]
    ensures SearchProfile(SearchFixture, None) == Failure(QueryRequired)
  {
    ReactIsLower();
    SearchFindsReact();
  }

  lemma ReactIsLower()
    ensures Lower("react") == "react"
  {
    LowerOfLower("react");
  }

  lemma SearchFindsReact()
    ensures var res := SearchTerm(SearchFixture, "react", "react");
            res.profile.Some? && |res.projects| == 1 && res.skills == [ReactSkill]
  {
    var res := SearchTerm(SearchFixture, "react", "react");
    ReactMatches();
    assert Dashboard in res.projects;
    assert |res.projects| <= 1;
    assert ReactSkill in res.skills;
    JsSkillLacksReact();
    assert JsSkill !in res.skills;
    SubseqOfPair(res.skills, ReactSkill, JsSkill);
  }

  lemma ReactMatches()
    ensures HeaderMatches(SearchFixture, "react")
    ensures ProjectMatches(Dashboard, "react")
    ensures SkillMatches(ReactSkill, "react")
  {
    assert Lower("React Developer")[..5] == "react";
    assert StartsWith(Lower("React Developer"), "react");
    assert Lower("React Dashboard")[..5] == "react";
    assert StartsWith(Lower("React Dashboard"), "react");
    assert Lower("react") == "react";
    assert StartsWith(Lower("react"), "react");
  }

  lemma JsSkillLacksReact()
    ensures !SkillMatches(JsSkill, "react")
  {
    SkillLacks(JsSkill, 'e', 1, 'a', 2);
  }

  /** A skill whose name lacks one letter of "react" and whose category
      lacks another does not match "react". */
  lemma SkillLacks(x: Skill, c: char, k: nat, d: char, j: nat)
    requires k < 5 && "react"[k] == c && 'a' <= c <= 'z'
    requires c !in x.name && (c as int - 32) as char !in x.name
    requires j < 5 && "react"[j] == d && 'a' <= d <= 'z'
    requires d !in CategoryName(x.category) && (d as int - 32) as char !in CategoryName(x.category)
    ensures !SkillMatches(x, "react")
  {
    Lacks(x.name, c, k);
    Lacks(CategoryName(x.category), d, j);
  }

  /** A text lacking a letter of "react" does not mention it. */
  lemma Lacks(s: String, c: char, k: nat)
    requires k < 5 && "react"[k] == c && 'a' <= c <= 'z'
    requires c !in s && (c as int - 32) as char !in s
    ensures !Mentions(s, "react")
  {
    LowerLacks(s, c);
    MissingCharExcludes(Lower(s), "react", k);
  }
}
