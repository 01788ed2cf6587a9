/** The lists of the candidate document, for which the comparison is used. */
module CandidateSchema {
  import opened CandidateParity
  import opened ParityTheorems

  /** A schema from its entity lists in order, those whose items have lists of their own, and its lists
      of references. */
  function SchemaOf(order: seq<string>, sub: map<string, Schema>, nested: seq<string>,
                    references: set<string>): Schema {
    Schema(map k | k in order :: if k in sub then sub[k] else LEAF, references, order, nested)
  }

  lemma SchemaOfWellFormed(order: seq<string>, sub: map<string, Schema>, nested: seq<string>, references: set<string>)
    requires (forall k :: k in nested ==> k in order) && (forall k :: k in sub ==> k in nested && WellFormed(sub[k]))
    requires (forall k :: k in order ==> k !in references && k != "id") && "id" !in references
    ensures WellFormed(SchemaOf(order, sub, nested, references))
  {
    assert WellFormed(LEAF);
  }

  function Assertion(): Schema { SchemaOf(["uses"], map[], [], {"projects"}) }

  function Skill(): Schema {
    SchemaOf(["capabilities", "uses", "source_assertions"], map["source_assertions" := Assertion()],
             ["source_assertions"], {"source_ids", "claim_ids"})
  }

  function Project(): Schema {
    SchemaOf(["skill_uses"], map[], [], {"source_ids", "claim_ids", "related_skills", "achievement_ids", "story_ids"})
  }

  function Experience(): Schema { SchemaOf(["skills_used"], map[], [], {"story_ids"}) }

  function Lists(): seq<string> {
    ["contacts", "external_references", "education", "languages", "experience", "skills", "projects", "achievements",
     "preferences", "constraints", "stories", "claims", "unknowns", "proposals"]
  }

  function CandidateDocument(): Schema {
    SchemaOf(Lists(), map["skills" := Skill(), "projects" := Project(), "experience" := Experience()],
             ["skills", "projects", "experience"], {})
  }

  lemma PartsWellFormed()
    ensures WellFormed(Skill()) && WellFormed(Project()) && WellFormed(Experience())
  {
    SkillWellFormed();
    ProjectWellFormed();
    ExperienceWellFormed();
  }

  lemma SkillWellFormed()
    ensures WellFormed(Skill())
  {
    AssertionWellFormed();
    hide WellFormed, SchemaOf, Assertion;
    var lists, nested := ["capabilities", "uses", "source_assertions"], ["source_assertions"];
    SchemaOfWellFormed(lists, map["source_assertions" := Assertion()], nested, {"source_ids", "claim_ids"});
  }

  lemma AssertionWellFormed()
    ensures WellFormed(Assertion())
  {
    hide WellFormed, SchemaOf;
    SchemaOfWellFormed(["uses"], map[], [], {"projects"});
  }

  lemma ProjectWellFormed()
    ensures WellFormed(Project())
  {
    hide WellFormed, SchemaOf;
    SchemaOfWellFormed(["skill_uses"], map[], [],
                       {"source_ids", "claim_ids", "related_skills", "achievement_ids", "story_ids"});
  }

  lemma ExperienceWellFormed()
    ensures WellFormed(Experience())
  {
    hide WellFormed, SchemaOf;
    SchemaOfWellFormed(["skills_used"], map[], [], {"story_ids"});
  }

  /** So the comparison theorems hold of candidate documents. */
  lemma CandidateWellFormed()
    ensures WellFormed(CandidateDocument())
  {
    PartsWellFormed();
    hide WellFormed, SchemaOf, Skill, Project, Experience;
    SchemaOfWellFormed(Lists(), map["skills" := Skill(), "projects" := Project(), "experience" := Experience()],
                       ["skills", "projects", "experience"], {});
  }
}
