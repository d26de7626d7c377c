/** Matching the skills an offer asks for against the skills a resume declares:
    both raw lists are normalised, each offer skill is scored against the
    resume's identifiers with the help of the ontology, and the per-skill scores
    are averaged into a total. */
module SkillsMatcher {
  import opened OntologyGateway
  import opened SkillNormalizer
  import opened ScoreResolver
  import opened ScoreAggregator

  /** Scores the offer skills one after the other: one score per offer skill,
      in the offer's order, duplicates included. */
  method MatchingArray(offerSkills: seq<string>, resumeSkills: seq<string>, o: Ontology)
    returns (matching: seq<real>)
    ensures |matching| == |offerSkills|
    ensures forall i :: 0 <= i < |offerSkills| ==> matching[i] == Score(offerSkills[i], resumeSkills, o)
  {
    matching := [];
    for k := 0 to |offerSkills|
      invariant |matching| == k
      invariant forall i :: 0 <= i < k ==> matching[i] == Score(offerSkills[i], resumeSkills, o)
    {
      var score := ResolveSkillScore(offerSkills[k], resumeSkills, o);
      matching := matching + [score];
    }
  }

  /** Every per-skill score is 0, 0.5 or 1, so the list lies in [0, 1]. */
  lemma MatchingScoresAreUnit(offerSkills: seq<string>, resumeSkills: seq<string>, o: Ontology, matching: seq<real>)
    requires |matching| == |offerSkills|
    requires forall i :: 0 <= i < |offerSkills| ==> matching[i] == Score(offerSkills[i], resumeSkills, o)
    ensures AllUnit(matching)
  {
  }

  /** The whole match of one offer against one resume, from raw JSON tokens:
      the two identifier lists, the per-skill scores and their total. */
  method MatchingScore(offerTokens: seq<string>, resumeTokens: seq<string>, o: Ontology)
    returns (offerSkills: seq<string>, resumeSkills: seq<string>, matching: seq<real>, total: real)
    ensures offerSkills == NormalizeAll(offerTokens)
    ensures resumeSkills == NormalizeAll(resumeTokens)
    ensures |matching| == |offerTokens|
    ensures forall i :: 0 <= i < |offerTokens| ==>
      matching[i] == Score(NormalizeToken(offerTokens[i]), resumeSkills, o)
    ensures total == Mean(matching)
    ensures 0.0 <= total <= 1.0
    ensures |offerTokens| > 0 && (forall i :: 0 <= i < |offerTokens| ==> NormalizeToken(offerTokens[i]) in resumeSkills)
      ==> total == 1.0
  {
    offerSkills := ListFromJsonArray(offerTokens);
    resumeSkills := ListFromJsonArray(resumeTokens);
    matching := MatchingArray(offerSkills, resumeSkills, o);
    total := CalculatedTotalScore(matching);
    MatchingScoresAreUnit(offerSkills, resumeSkills, o, matching);
    MeanBounds(matching);
    if |offerTokens| > 0 && forall i :: 0 <= i < |offerTokens| ==> NormalizeToken(offerTokens[i]) in resumeSkills {
      MeanOfAllOnes(matching);
    }
  }

  /** A quoted, capitalised token becomes a plain lower-case identifier. */
  lemma QuotedTokenExample()
    ensures NormalizeToken("\"Java\"") == "java"
  {
    assert ToLower("Java") == "java" by {
      var lowered := ToLower("Java");
      assert lowered[0] == 'j' && lowered[1] == 'a' && lowered[2] == 'v' && lowered[3] == 'a';
    }
    assert "\"Java\"" == [Quote] + "Java" + [Quote];
    NormalizeQuotedString("Java");
  }

  /** An offer asking for "java", against a resume declaring only "oop", the
      identifier of the ontology class `OOP` that the ontology lists as a
      super-class of "java", scores 0.5 for that skill. */
  lemma SuperClassMatchExample(o: Ontology)
    requires o == map["java" := ClassInfo([OntClass("OOP")], [])]
    ensures Score("java", ["oop"], o) == 0.5
  {
    assert ToLower("OOP") == "oop" by {
      var lowered := ToLower("OOP");
      assert lowered[0] == 'o' && lowered[1] == 'o' && lowered[2] == 'p';
    }
    LocalNamesAt([OntClass("OOP")], 0);
    assert SuperClassNames(o, "java")[0] == "oop";
  }

  /** One exact match and one match through the ontology give a total of 0.75. */
  lemma MixedTotalExample()
    ensures Mean([1.0, 0.5]) == 0.75
  {
    assert [1.0, 0.5][..1] == [1.0];
    assert [1.0][..0] == [];
  }
}
