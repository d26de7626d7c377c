/** The score of one required skill of an offer against the skills of a resume.
    A skill the resume lists scores 1. Otherwise the skill scores 0.5 when one
    of its asserted super-classes or asserted sub-classes in the ontology is listed
    in the resume, and 0 when none is. Both kinds of neighbour set the partial
    score to 0.5; several matching neighbours still give 0.5. */
module ScoreResolver {
  import opened OntologyGateway
  import opened SkillNormalizer

  /** Some identifier of `names` is listed in `skills`. */
  predicate AnyListed(names: seq<string>, skills: seq<string>) {
    exists j :: 0 <= j < |names| && names[j] in skills
  }

  /** The identifiers of the asserted super-classes of `skill`. */
  function SuperClassNames(o: Ontology, skill: string): seq<string> {
    LocalNames(SuperClasses(o, skill))
  }

  /** The identifiers of the asserted sub-classes of `skill`. */
  function SubClassNames(o: Ontology, skill: string): seq<string> {
    LocalNames(SubClasses(o, skill))
  }

  /** Some asserted super-class or sub-class of `skill` is listed in the resume. */
  predicate NeighbourListed(offerSkill: string, resumeSkills: seq<string>, o: Ontology) {
    AnyListed(SuperClassNames(o, offerSkill), resumeSkills)
    || AnyListed(SubClassNames(o, offerSkill), resumeSkills)
  }

  /** The score of one offer skill: 1 for an exact match, 0.5 for a match
      through an asserted neighbour in the ontology, 0 otherwise. */
  function Score(offerSkill: string, resumeSkills: seq<string>, o: Ontology): (r: real)
    ensures r == 0.0 || r == 0.5 || r == 1.0
    ensures r == 1.0 <==> offerSkill in resumeSkills
  {
    if offerSkill in resumeSkills then 1.0
    else if NeighbourListed(offerSkill, resumeSkills, o) then 0.5
    else 0.0
  }

  /** An exact match scores 1 whatever the ontology says. */
  lemma ExactMatchIgnoresOntology(offerSkill: string, resumeSkills: seq<string>, o1: Ontology, o2: Ontology)
    requires offerSkill in resumeSkills
    ensures Score(offerSkill, resumeSkills, o1) == 1.0
    ensures Score(offerSkill, resumeSkills, o1) == Score(offerSkill, resumeSkills, o2)
  {
  }

  /** Without an exact match, the score is 0.5 exactly when an asserted neighbour
      is listed in the resume, and 0 exactly when none is. */
  lemma PartialScoreIffNeighbourListed(offerSkill: string, resumeSkills: seq<string>, o: Ontology)
    requires offerSkill !in resumeSkills
    ensures Score(offerSkill, resumeSkills, o) == 0.5 <==>
      exists n :: n in SuperClassNames(o, offerSkill) + SubClassNames(o, offerSkill) && n in resumeSkills
    ensures Score(offerSkill, resumeSkills, o) == 0.0 <==>
      forall n :: n in SuperClassNames(o, offerSkill) + SubClassNames(o, offerSkill) ==> n !in resumeSkills
  {
  }

  /** An offer skill that is neither in the resume nor known to the ontology scores 0. */
  lemma UnknownUnmatchedSkillScoresZero(offerSkill: string, resumeSkills: seq<string>, o: Ontology)
    requires offerSkill !in resumeSkills
    requires offerSkill !in o
    ensures Score(offerSkill, resumeSkills, o) == 0.0
  {
    UnknownClassHasNoNeighbours(o, offerSkill);
  }

  /** Listing more skills in a resume never lowers the score of an offer skill. */
  lemma ScoreMonotoneInResume(offerSkill: string, resume1: seq<string>, resume2: seq<string>, o: Ontology)
    requires forall s :: s in resume1 ==> s in resume2
    ensures Score(offerSkill, resume1, o) <= Score(offerSkill, resume2, o)
  {
  }

  /** Resolves the score of one offer skill the way the matching loop does:
      an exact match first, then one pass over the super-classes and one over
      the sub-classes, each setting the partial score to 0.5 on a hit. */
  method ResolveSkillScore(offerSkill: string, resumeSkills: seq<string>, o: Ontology) returns (score: real)
    ensures score == Score(offerSkill, resumeSkills, o)
  {
    if offerSkill in resumeSkills {
      return 1.0;
    }
    var secondaryScore := 0.0;
    var superClasses := OntClassListAsStringList(SuperClasses(o, offerSkill));
    var subClasses := OntClassListAsStringList(SubClasses(o, offerSkill));
    for k := 0 to |superClasses|
      invariant secondaryScore == 0.0 || secondaryScore == 0.5
      invariant secondaryScore == 0.5 <==> exists j :: 0 <= j < k && superClasses[j] in resumeSkills
    {
      if superClasses[k] in resumeSkills {
        secondaryScore := 0.5;
      }
    }
    for k := 0 to |subClasses|
      invariant secondaryScore == 0.0 || secondaryScore == 0.5
      invariant secondaryScore == 0.5 <==>
        AnyListed(superClasses, resumeSkills) || exists j :: 0 <= j < k && subClasses[j] in resumeSkills
    {
      if subClasses[k] in resumeSkills {
        secondaryScore := 0.5;
      }
    }
    assert superClasses == SuperClassNames(o, offerSkill) && subClasses == SubClassNames(o, offerSkill);
    score := secondaryScore;
  }
}
