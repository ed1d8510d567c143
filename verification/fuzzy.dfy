/**
 The fuzzy matcher the bot calls: `process.extractOne(query, choices,
 scorer=fuzz.partial_ratio)`. The scorer is a library whose body is not part of
 this model, so it is a parameter: any function from (query, choice) to a score in
 0..100. `extractOne` is constrained only by what every caller relies on: for a
 non-empty list it returns one of the choices whose score is maximal. Which of
 several equally scored choices it returns is left open.
 */
module Fuzzy {
  import opened Wrappers
  import opened Seqs

  /** A similarity score as `partial_ratio` reports it. */
  type Percent = x: real | 0.0 <= x <= 100.0

  type Scorer = (string, string) -> Percent

  /** A scorer, and the choice `extractOne` makes for a query among a list of choices. */
  datatype Matcher = Matcher(score: Scorer, choose: (string, seq<string>) -> string)

  /** The acceptance cutoff the bot applies at every level. */
  const Cutoff: real := 60.0

  /** What `extractOne` returns: the chosen choice and its score. */
  datatype Extracted = Extracted(choice: string, score: Percent)

  /** `c` is one of `choices` and no choice scores higher against `query`. */
  predicate IsBest(score: Scorer, query: string, choices: seq<string>, c: string) {
    c in choices && forall d :: d in choices ==> score(query, d) <= score(query, c)
  }

  /** The matcher's choice is always a best-scoring member of a non-empty list. */
  ghost predicate Chooses(m: Matcher) {
    forall query, choices :: |choices| > 0 ==> IsBest(m.score, query, choices, m.choose(query, choices))
  }

  /** The highest score any choice reaches: a reference that does not depend on tie-breaking. */
  function BestScore(score: Scorer, query: string, choices: seq<string>): (r: Percent)
    requires |choices| > 0
    ensures exists i :: 0 <= i < |choices| && score(query, choices[i]) == r
    ensures forall d :: d in choices ==> score(query, d) <= r
    decreases |choices|
  {
    if |choices| == 1 then score(query, choices[0])
    else
      var rest := BestScore(score, query, choices[1..]);
      assert forall d :: d in choices ==> d == choices[0] || d in choices[1..];
      if score(query, choices[0]) >= rest then score(query, choices[0]) else rest
  }

  /** Every best choice scores exactly the best score, whichever of them is picked. */
  lemma BestScoreOfBest(score: Scorer, query: string, choices: seq<string>, c: string)
    requires IsBest(score, query, choices, c)
    ensures score(query, c) == BestScore(score, query, choices)
  {
    var i :| 0 <= i < |choices| && score(query, choices[i]) == BestScore(score, query, choices);
    assert score(query, choices[i]) <= score(query, c);
  }

  /**
   The scan rapidfuzz performs: the index of the first choice with the highest
   score. It is used only to show that choosers exist; the lookup itself never
   relies on which best choice is picked.
   */
  function FirstBest(score: Scorer, query: string, choices: seq<string>): (k: nat)
    requires |choices| > 0
    ensures k < |choices| && IsBest(score, query, choices, choices[k])
    ensures forall j :: 0 <= j < k ==> score(query, choices[j]) < score(query, choices[k])
    decreases |choices|
  {
    if |choices| == 1 then 0
    else
      var k := FirstBest(score, query, choices[..|choices| - 1]);
      var last := choices[|choices| - 1];
      assert forall d :: d in choices ==> d in choices[..|choices| - 1] || d == last;
      if score(query, last) > score(query, choices[k]) then |choices| - 1 else k
  }

  /** Whatever the scorer, some choice function satisfies `Chooses`, so the assumption is consistent. */
  lemma ChoosersExist(score: Scorer)
    ensures exists m: Matcher :: m.score == score && Chooses(m)
  {
    var m := Matcher(score, (q, cs) => if |cs| == 0 then "" else cs[FirstBest(score, q, cs)]);
    assert Chooses(m) by {
      forall query, choices | |choices| > 0
        ensures IsBest(m.score, query, choices, m.choose(query, choices))
      {
        assert m.choose(query, choices) == choices[FirstBest(score, query, choices)];
      }
    }
  }

  /** `process.extractOne(query, choices, scorer=fuzz.partial_ratio)`. */
  function ExtractOne(m: Matcher, query: string, choices: seq<string>): (r: Option<Extracted>)
    requires Chooses(m)
    ensures r.None? <==> |choices| == 0
    ensures r.Some? ==> IsBest(m.score, query, choices, r.value.choice)
    ensures r.Some? ==> r.value.score == m.score(query, r.value.choice) == BestScore(m.score, query, choices)
  {
    if |choices| == 0 then None
    else
      var c := m.choose(query, choices);
      BestScoreOfBest(m.score, query, choices, c);
      Some(Extracted(c, m.score(query, c)))
  }

  /** What rapidfuzz 1.0 and later return for a list: the choice, its score and its position. */
  datatype Indexed = Indexed(choice: string, score: Percent, index: nat)

  /**
   `process.extractOne` as rapidfuzz 1.0 and later define it for a list of choices:
   the same choice and score, together with the choice's position in the list.
   */
  function ExtractOneIndexed(m: Matcher, query: string, choices: seq<string>): (r: Option<Indexed>)
    requires Chooses(m)
    ensures r.None? <==> |choices| == 0
    ensures r.Some? ==> r.value.index < |choices| && choices[r.value.index] == r.value.choice
    ensures r.Some? ==> ExtractOne(m, query, choices) == Some(Extracted(r.value.choice, r.value.score))
  {
    match ExtractOne(m, query, choices)
    case None => None
    case Some(e) => Some(Indexed(e.choice, e.score, IndexOf(choices, e.choice)))
  }

  /** `match, score = process.extractOne(...)` as written: two names for whatever was returned. */
  function UnpackTwo(r: Option<Indexed>): Result<Extracted, Fault> {
    match r
    case None => Failure(NothingToUnpack)
    case Some(_) => Failure(TooManyValuesToUnpack)
  }

  /** `match, score, _ = process.extractOne(...)`: the unpacking the lookups evidently intend. */
  function UnpackThree(r: Option<Indexed>): Result<Extracted, Fault> {
    match r
    case None => Failure(NothingToUnpack)
    case Some(t) => Success(Extracted(t.choice, t.score))
  }

  /**
   Against rapidfuzz 1.0 and later, the two-name unpacking raises on every list:
   an empty one yields nothing to unpack, a non-empty one three values.
   */
  lemma AsWrittenUnpackingRaises(m: Matcher, query: string, choices: seq<string>)
    requires Chooses(m)
    ensures UnpackTwo(ExtractOneIndexed(m, query, choices)).Failure?
    ensures |choices| > 0 ==> UnpackTwo(ExtractOneIndexed(m, query, choices)) == Failure(TooManyValuesToUnpack)
  {
  }

  /**
   Unpacking three values recovers what `ExtractOne` models: a best-scoring choice
   of a non-empty list and its score, and a raise only for an empty list.
   */
  lemma ThreeValueUnpackingIsExtractOne(m: Matcher, query: string, choices: seq<string>)
    requires Chooses(m)
    ensures var u := UnpackThree(ExtractOneIndexed(m, query, choices));
      && (u.Failure? <==> |choices| == 0)
      && (u.Success? ==> Some(u.value) == ExtractOne(m, query, choices))
      && (u.Success? ==> IsBest(m.score, query, choices, u.value.choice))
  {
  }

  /**
   A hypothesis about a scorer, used only for end-to-end statements: every text
   scores at least the cutoff against itself and strictly higher than against any
   other text. `partial_ratio` itself is not discerning: it scores a text 100
   against any text that contains it (`"ANDHERI"` against `"ANDHERI EAST"`), so
   with the real scorer an exact name can lose a tie to a longer one.
   */
  ghost predicate Discerning(score: Scorer) {
    && (forall q :: score(q, q) >= Cutoff)
    && (forall q, c :: q != c ==> score(q, c) < score(q, q))
  }

  /** Under a discerning scorer, a query that is itself a choice is the only best choice. */
  lemma DiscerningPicksExact(score: Scorer, query: string, choices: seq<string>, c: string)
    requires Discerning(score)
    requires query in choices && IsBest(score, query, choices, c)
    ensures c == query && score(query, c) >= Cutoff
  {
    assert score(query, query) <= score(query, c);
  }
}
