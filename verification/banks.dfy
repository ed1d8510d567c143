/**
 Bank-name resolution: the fixed alias table is consulted first, and only when
 the message is not an alias does the fuzzy matcher score it against `all_banks`.
 */
module Banks {
  import opened Wrappers
  import opened Text
  import opened Fuzzy

  /** `BANK_ALIASES`: short forms (lower case) and the bank names they stand for. */
  const BankAliases: map<string, string> := map[
    "sbi" := "STATE BANK OF INDIA",
    "pnb" := "PUNJAB NATIONAL BANK",
    "bob" := "BANK OF BARODA",
    "hdfc" := "HDFC BANK",
    "icici" := "ICICI BANK",
    "axis" := "AXIS BANK",
    "canara" := "CANARA BANK",
    "union" := "UNION BANK OF INDIA"
  ]

  /** The key looked up in the alias table: `text.strip().upper().lower()`. */
  function AliasKey(text: string): string {
    Lower(Normalize(text))
  }

  /**
   `normalize_bank_name(user_input, all_banks)`: `Some(name)` for a resolved bank,
   `None` when the best score is below the cutoff. With no alias hit and no banks
   to score against, `extractOne` returns `None` and the unpacking raises.
   */
  function NormalizeBankName(m: Matcher, userInput: string, allBanks: seq<string>): (r: Result<Option<string>, Fault>)
    requires Chooses(m)
    ensures AliasKey(userInput) in BankAliases ==> r == Success(Some(BankAliases[AliasKey(userInput)]))
    ensures AliasKey(userInput) !in BankAliases ==>
      if |allBanks| == 0 then r == Failure(NothingToUnpack)
      else
        && r.Success?
        && (r.value.Some? <==> BestScore(m.score, Normalize(userInput), allBanks) >= Cutoff)
        && (r.value.Some? ==> IsBest(m.score, Normalize(userInput), allBanks, r.value.value))
    ensures r.Success? && r.value.Some? ==> r.value.value in BankAliases.Values || r.value.value in allBanks
  {
    var query := Normalize(userInput);
    if Lower(query) in BankAliases then Success(Some(BankAliases[Lower(query)]))
    else
      match ExtractOne(m, query, allBanks)
      case None => Failure(NothingToUnpack)
      case Some(best) => if best.score >= Cutoff then Success(Some(best.choice)) else Success(None)
  }

  /**
   An alias hit decides the result on its own: neither the scorer, nor the
   chooser, nor the list of banks is consulted, so the alias value is returned
   even when no row of the table carries that bank.
   */
  lemma AliasBypassesMatcher(m1: Matcher, m2: Matcher, userInput: string, banks1: seq<string>, banks2: seq<string>)
    requires Chooses(m1) && Chooses(m2)
    requires AliasKey(userInput) in BankAliases
    ensures NormalizeBankName(m1, userInput, banks1) == NormalizeBankName(m2, userInput, banks2)
  {
  }

  /**
   Bank resolution depends only on the stripped, upper-cased message: messages
   that differ only in surrounding whitespace and ASCII case resolve identically.
   */
  lemma BankIgnoresCaseAndPadding(m: Matcher, allBanks: seq<string>, a: string, s: string, b: string, c: string, t: string, d: string)
    requires Chooses(m)
    requires AllSpace(a) && AllSpace(b) && AllSpace(c) && AllSpace(d)
    requires Upper(s) == Upper(t)
    ensures NormalizeBankName(m, a + s + b, allBanks) == NormalizeBankName(m, c + t + d, allBanks)
  {
    NormalizeIgnoresCaseAndPadding(a, s, b, c, t, d);
  }

  /** `bank_input` strips the message before passing it on; that changes nothing. */
  lemma BankOfStrippedMessage(m: Matcher, text: string, allBanks: seq<string>)
    requires Chooses(m)
    ensures NormalizeBankName(m, Strip(text), allBanks) == NormalizeBankName(m, text, allBanks)
  {
    NormalizeStripped(text);
  }
}
