/** Turning raw skill tokens into skill identifiers.
    A raw token is the text of one JSON array element as the JSON library prints
    it, so a JSON string arrives with its quote characters. The identifier is the
    token with every quote character removed, then lower-cased. Ontology classes
    are turned into identifiers the same way, from their local names, except that
    nothing is stripped from them. */
module SkillNormalizer {
  import opened OntologyGateway

  /** The JSON string delimiter, removed wherever it occurs in a token. */
  const Quote: char := '"'

  predicate IsUpper(c: char) {
    'A' <= c <= 'Z'
  }

  /** Lower-casing of one character, on ASCII letters only. */
  function LowerChar(c: char): (r: char)
    ensures !IsUpper(r)
    ensures !IsUpper(c) ==> r == c
    ensures r == Quote <==> c == Quote
  {
    if IsUpper(c) then (c as int + ('a' as int - 'A' as int)) as char else c
  }

  /** Lower-casing of a string: one character for one, in place. */
  function ToLower(s: string): (r: string)
    ensures |r| == |s|
    ensures forall i :: 0 <= i < |s| ==> r[i] == LowerChar(s[i])
  {
    if s == [] then [] else [LowerChar(s[0])] + ToLower(s[1..])
  }

  /** The string with every quote character removed, wherever it stands;
      the other characters keep their order. */
  function StripQuotes(s: string): (r: string)
    ensures Quote !in r
    ensures Quote !in s ==> r == s
  {
    if s == [] then []
    else if s[0] == Quote then StripQuotes(s[1..])
    else [s[0]] + StripQuotes(s[1..])
  }

  /** Removing quotes keeps every other character, as often as it occurs. */
  lemma {:induction false} StripQuotesKeepsOthers(s: string)
    ensures multiset(StripQuotes(s)) == multiset(s)[Quote := 0]
  {
    if s != [] {
      assert s == [s[0]] + s[1..];
      StripQuotesKeepsOthers(s[1..]);
    }
  }

  /** Removing quotes from a concatenation removes them from each part. */
  lemma {:induction false} StripQuotesDistributes(a: string, b: string)
    ensures StripQuotes(a + b) == StripQuotes(a) + StripQuotes(b)
  {
    if a == [] {
      assert a + b == b;
    } else {
      assert (a + b)[1..] == a[1..] + b;
      StripQuotesDistributes(a[1..], b);
    }
  }

  /** A skill identifier: no quote character and no upper-case letter. */
  predicate IsNormalized(s: string) {
    Quote !in s && forall i :: 0 <= i < |s| ==> !IsUpper(s[i])
  }

  /** The identifier of one raw token. */
  function NormalizeToken(token: string): (r: string)
    ensures IsNormalized(r)
  {
    ToLower(StripQuotes(token))
  }

  /** An identifier is as long as its token less the token's quote characters. */
  lemma NormalizeTokenLength(token: string)
    ensures |NormalizeToken(token)| == |token| - multiset(token)[Quote]
  {
    var stripped := StripQuotes(token);
    StripQuotesKeepsOthers(token);
    assert |stripped| == |multiset(stripped)|;
  }

  /** A JSON string printed with its enclosing quotes normalises to its lower-cased text. */
  lemma NormalizeQuotedString(text: string)
    requires Quote !in text
    ensures NormalizeToken([Quote] + text + [Quote]) == ToLower(text)
  {
    var quote: string := [Quote];
    assert quote[1..] == [];
    StripQuotesDistributes(quote + text, quote);
    StripQuotesDistributes(quote, text);
  }

  /** Lower-casing a string without upper-case letters changes nothing. */
  lemma ToLowerKeepsLowerCase(s: string)
    requires forall i :: 0 <= i < |s| ==> !IsUpper(s[i])
    ensures ToLower(s) == s
  {
  }

  /** An identifier is its own identifier. */
  lemma NormalizeKeepsIdentifiers(s: string)
    requires IsNormalized(s)
    ensures NormalizeToken(s) == s
  {
  }

  /** Normalisation is idempotent. */
  lemma NormalizeIdempotent(token: string)
    ensures NormalizeToken(NormalizeToken(token)) == NormalizeToken(token)
  {
  }

  /** The identifiers of a list of raw tokens, one per token, in order. */
  function NormalizeAll(tokens: seq<string>): (r: seq<string>)
    ensures |r| == |tokens|
    ensures forall i :: 0 <= i < |tokens| ==> r[i] == NormalizeToken(tokens[i])
  {
    if tokens == [] then [] else [NormalizeToken(tokens[0])] + NormalizeAll(tokens[1..])
  }

  /** Every entry of a normalised list is an identifier. */
  lemma NormalizeAllGivesIdentifiers(tokens: seq<string>)
    ensures forall i :: 0 <= i < |tokens| ==> IsNormalized(NormalizeAll(tokens)[i])
  {
  }

  /** Normalising a normalised list gives it back unchanged. */
  lemma NormalizeAllIdempotent(tokens: seq<string>)
    ensures NormalizeAll(NormalizeAll(tokens)) == NormalizeAll(tokens)
  {
    var once := NormalizeAll(tokens);
    forall i | 0 <= i < |once|
      ensures NormalizeAll(once)[i] == once[i]
    {
      NormalizeIdempotent(tokens[i]);
    }
  }

  /** Builds the identifier list of a JSON array of skills, element by element. */
  method ListFromJsonArray(tokens: seq<string>) returns (list: seq<string>)
    ensures list == NormalizeAll(tokens)
  {
    list := [];
    for k := 0 to |tokens|
      invariant |list| == k
      invariant forall i :: 0 <= i < k ==> list[i] == NormalizeToken(tokens[i])
    {
      list := list + [NormalizeToken(tokens[k])];
    }
  }

  /** The identifiers of ontology classes: each local name lower-cased, one per
      class, in order. */
  function LocalNames(classes: seq<OntClass>): (r: seq<string>)
    ensures |r| == |classes|
  {
    if classes == [] then []
    else LocalNames(classes[..|classes| - 1]) + [ToLower(classes[|classes| - 1].localName)]
  }

  /** Entry i of the identifiers of ontology classes is the lower-cased local
      name of class i. */
  lemma {:induction false} LocalNamesAt(classes: seq<OntClass>, i: nat)
    requires i < |classes|
    ensures LocalNames(classes)[i] == ToLower(classes[i].localName)
  {
    if i < |classes| - 1 {
      LocalNamesAt(classes[..|classes| - 1], i);
    }
  }

  /** Builds the list of lower-cased local names of ontology classes, class by class. */
  method OntClassListAsStringList(classes: seq<OntClass>) returns (names: seq<string>)
    ensures names == LocalNames(classes)
  {
    names := [];
    for k := 0 to |classes|
      invariant names == LocalNames(classes[..k])
    {
      assert classes[..k + 1][..k] == classes[..k];
      names := names + [ToLower(classes[k].localName)];
    }
    assert classes[..|classes|] == classes;
  }
}
