# Ontology-based skill matching, modelled in Dafny

This project models the skill matcher of a resume/offer analysis tool
(`SESkillsMatcher`). The matcher reads the skills a job offer requires and the
skills a resume declares. Each skill arrives as a raw JSON token, and the
matcher turns it into a lower-case identifier. Each offer skill then gets a
score against the resume:

- 1 when the resume lists the skill itself;
- 0.5 when the resume lists one of the skill's asserted super-classes or
  asserted sub-classes in a software-engineering ontology;
- 0 otherwise.

The total is the mean of the per-skill scores.

Modules, one per component of the matcher:

- `OntologyGateway` (`ontology_gateway.dfy`): the ontology as an immutable map
  from class name to the super-classes and sub-classes it asserts for the class. It also
  holds the two neighbourhood lookups.
- `SkillNormalizer` (`skill_normalizer.dfy`): quote stripping and ASCII
  lower-casing of raw tokens, with the loop that builds the identifier list of
  a JSON array. It also turns ontology classes into identifiers.
- `ScoreResolver` (`score_resolver.dfy`): the per-skill score. `Score` is the
  pure specification. `ResolveSkillScore` is the loop code that sets the partial
  score, proved equal to `Score`.
- `ScoreAggregator` (`score_aggregator.dfy`): the weighted-sum loop, proved to
  compute the mean, and the bounds of the mean.
- `SkillsMatcher` (`skills_matcher.dfy`): the matching loop over the offer
  skills and the whole match of one offer against one resume.

The source builds its lists with `ArrayList.add` inside loops and accumulates
scores in local variables. These become methods with loops, each proved against
a pure function. The functions' properties are proved as lemmas.

Three behaviours of the code are worth stating plainly, since the model keeps
them:

- A sub-class match assigns 0.5, exactly as a super-class match does
  (`SESkillsMatcher.java:168`, `:174`). Neither adds to the score, so a skill
  matched only through the ontology scores exactly 0.5, however many of its
  neighbours match.
- An empty list of scores totals 0, because the loop at `:123` never runs.
- Every `"` in a token is removed, not only the enclosing ones (`:107`).

## Model

| member | source | states |
|---|---|---|
| `OntologyGateway.SuperClasses` | src/mcastro/nlp/ontology/SESkillsMatcher.java:55-64 | a known class yields the super-classes the ontology lists for it; an unknown class yields the empty list |
| `OntologyGateway.SubClasses` | src/mcastro/nlp/ontology/SESkillsMatcher.java:72-81 | a known class yields the sub-classes the ontology lists for it; an unknown class yields the empty list |
| `OntologyGateway.UnknownClassHasNoNeighbours` | src/mcastro/nlp/ontology/SESkillsMatcher.java:55-81 | for a class the ontology does not know, both lookups give an empty list rather than an error |
| `SkillNormalizer.LowerChar` | src/mcastro/nlp/ontology/SESkillsMatcher.java:107 | a lower-cased character is never an upper-case letter; other characters are kept; the quote character is kept and nothing else becomes one |
| `SkillNormalizer.ToLower` | src/mcastro/nlp/ontology/SESkillsMatcher.java:107 | lower-casing keeps the length and maps each position to the lower-cased character at that position |
| `SkillNormalizer.StripQuotes` | src/mcastro/nlp/ontology/SESkillsMatcher.java:107 | the result has no quote character; a string without quotes is returned unchanged |
| `SkillNormalizer.StripQuotesKeepsOthers` | src/mcastro/nlp/ontology/SESkillsMatcher.java:107 | removing quotes keeps every other character exactly as often as the input has it |
| `SkillNormalizer.StripQuotesDistributes` | src/mcastro/nlp/ontology/SESkillsMatcher.java:107 | removing quotes from a concatenation is the concatenation of the parts with their quotes removed, so the order of the kept characters is preserved |
| `SkillNormalizer.NormalizeToken` | src/mcastro/nlp/ontology/SESkillsMatcher.java:107 | an identifier contains no quote character and no upper-case letter |
| `SkillNormalizer.NormalizeTokenLength` | src/mcastro/nlp/ontology/SESkillsMatcher.java:107 | an identifier is as long as its token less the token's quote characters |
| `SkillNormalizer.NormalizeQuotedString` | src/mcastro/nlp/ontology/SESkillsMatcher.java:107 | a JSON string printed with its quotes normalises to its lower-cased text |
| `SkillNormalizer.ToLowerKeepsLowerCase` | src/mcastro/nlp/ontology/SESkillsMatcher.java:107 | lower-casing a string without upper-case letters gives it back unchanged |
| `SkillNormalizer.NormalizeKeepsIdentifiers` | src/mcastro/nlp/ontology/SESkillsMatcher.java:107 | normalising a string that is already an identifier gives it back unchanged |
| `SkillNormalizer.NormalizeIdempotent` | src/mcastro/nlp/ontology/SESkillsMatcher.java:107 | normalising twice gives the same identifier as normalising once |
| `SkillNormalizer.NormalizeAll` | src/mcastro/nlp/ontology/SESkillsMatcher.java:103-111 | one identifier per raw token, same length, same order, entry i being the identifier of token i |
| `SkillNormalizer.NormalizeAllGivesIdentifiers` | src/mcastro/nlp/ontology/SESkillsMatcher.java:103-111 | every entry of a normalised skill list is free of quotes and upper-case letters |
| `SkillNormalizer.NormalizeAllIdempotent` | src/mcastro/nlp/ontology/SESkillsMatcher.java:103-111 | normalising an already normalised skill list gives it back unchanged |
| `SkillNormalizer.ListFromJsonArray` | src/mcastro/nlp/ontology/SESkillsMatcher.java:103-111 | the loop that appends one identifier per JSON element builds exactly `NormalizeAll` of the tokens |
| `SkillNormalizer.LocalNames` | src/mcastro/nlp/ontology/SESkillsMatcher.java:88-96 | one name per ontology class: the list of names is as long as the list of classes |
| `SkillNormalizer.LocalNamesAt` | src/mcastro/nlp/ontology/SESkillsMatcher.java:88-96 | entry i of the names is the lower-cased local name of class i, so the order is kept |
| `SkillNormalizer.OntClassListAsStringList` | src/mcastro/nlp/ontology/SESkillsMatcher.java:88-96 | the loop that appends one lower-cased local name per class builds exactly `LocalNames` of the classes |
| `ScoreResolver.Score` | src/mcastro/nlp/ontology/SESkillsMatcher.java:155-177 | every per-skill score is 0, 0.5 or 1, and it is 1 exactly when the resume lists the offer skill |
| `ScoreResolver.ExactMatchIgnoresOntology` | src/mcastro/nlp/ontology/SESkillsMatcher.java:155-156 | an offer skill the resume lists scores 1 under any two ontologies alike |
| `ScoreResolver.PartialScoreIffNeighbourListed` | src/mcastro/nlp/ontology/SESkillsMatcher.java:158-177 | without an exact match, the score is 0.5 exactly when some asserted super- or sub-class is listed in the resume, and 0 exactly when none is |
| `ScoreResolver.UnknownUnmatchedSkillScoresZero` | src/mcastro/nlp/ontology/SESkillsMatcher.java:158-177 | an offer skill that is neither in the resume nor known to the ontology scores 0 |
| `ScoreResolver.ScoreMonotoneInResume` | src/mcastro/nlp/ontology/SESkillsMatcher.java:155-177 | a resume listing at least the skills of another never scores an offer skill lower |
| `ScoreResolver.ResolveSkillScore` | src/mcastro/nlp/ontology/SESkillsMatcher.java:155-178 | the exact-match test followed by the super-class loop and the sub-class loop, each assigning 0.5 on a hit, yields exactly `Score` |
| `ScoreAggregator.SumBounds` | src/mcastro/nlp/ontology/SESkillsMatcher.java:123-125 | n scores in [0, 1] sum to a value in [0, n] |
| `ScoreAggregator.SumOfConstant` | src/mcastro/nlp/ontology/SESkillsMatcher.java:123-125 | n copies of one score sum to n times that score |
| `ScoreAggregator.MeanBounds` | src/mcastro/nlp/ontology/SESkillsMatcher.java:118-128 | scores in [0, 1] have a total in [0, 1] |
| `ScoreAggregator.MeanOfAllOnes` | src/mcastro/nlp/ontology/SESkillsMatcher.java:118-128 | a non-empty list of scores that are all 1 totals exactly 1 |
| `ScoreAggregator.MeanOfAllZeros` | src/mcastro/nlp/ontology/SESkillsMatcher.java:118-128 | a list of scores that are all 0, including the empty list, totals 0 |
| `ScoreAggregator.CalculatedTotalScore` | src/mcastro/nlp/ontology/SESkillsMatcher.java:118-128 | accumulating each score times 1/n gives the mean of the scores; an empty list gives 0 |
| `SkillsMatcher.MatchingArray` | src/mcastro/nlp/ontology/SESkillsMatcher.java:151-179 | exactly one score per offer skill, in the offer's order, each equal to `Score` of that skill against the resume |
| `SkillsMatcher.MatchingScoresAreUnit` | src/mcastro/nlp/ontology/SESkillsMatcher.java:151-179 | every entry of the per-skill score list lies in [0, 1] |
| `SkillsMatcher.MatchingScore` | src/mcastro/nlp/ontology/SESkillsMatcher.java:135-182 | both lists are normalised; one score per offer token, scored as its identifier against the resume's identifiers; the total is their mean, lies in [0, 1], and is 1 when every offer skill is listed in the resume |
| `SkillsMatcher.QuotedTokenExample` | src/mcastro/nlp/ontology/SESkillsMatcher.java:107 | the raw token `"Java"`, quotes included, becomes `java` |
| `SkillsMatcher.SuperClassMatchExample` | src/mcastro/nlp/ontology/SESkillsMatcher.java:158-177 | an offer skill `java` whose listed super-class `OOP` appears in the resume as `oop` scores 0.5 |
| `SkillsMatcher.MixedTotalExample` | src/mcastro/nlp/ontology/SESkillsMatcher.java:118-128 | per-skill scores 1 and 0.5 total 0.75 |

## Left out

- Loading the ontology from `software-engineering.ontology.owl` with the Jena
  library. The loaded ontology is a parameter of the matcher here, and it is
  immutable.
- Name resolution through the ontology namespace (`getClass`). A class is
  looked up by its name directly. The ontology's own listing of the super-
  and sub-classes asserted for a class is taken as given, in the order the
  store lists them; without a reasoner this includes any ancestor the ontology
  asserts redundantly.
- The ontology library's class objects. A class is modelled by its local name
  only.
- SkillNormalizer.OntClassListAsStringList: every class is given a local name,
  so the crash of the source on an anonymous class is not modelled. An
  anonymous class, such as an OWL restriction used as a super-class, has no
  local name. Lower-casing that missing name at `:92` throws, and the whole
  match for that offer and resume aborts.
- JSON parsing and the batch `main` driver. A raw token is the text the JSON
  library prints for one array element. An array is a sequence of such tokens.
- All console output. `MatchingScore` returns the values the source prints:
  the two identifier lists, the per-skill scores and the total.
- Single-precision float arithmetic. Scores, the weight 1/n and the sum are
  exact reals, so rounding in `1f / n` and `+=` is not modelled.
- The infinite weight that `1f / 0` gives for an empty offer. The loop never
  reads it, and the total is 0 either way.
- Unicode and locale-sensitive lower-casing. Only the ASCII letters A-Z are
  lower-cased.
