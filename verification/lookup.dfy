/**
 The state and branch levels of the lookup: the state is matched against
 `all_states`; the branch only against the rows of the resolved state and bank,
 and the row returned is the first of those whose branch carries the match.
 */
module Lookup {
  import opened Wrappers
  import opened Text
  import opened Fuzzy
  import opened Seqs
  import opened Dataset

  /**
   The matching in `state_input`: `Some(state)` when the best state scores at
   least the cutoff, `None` otherwise; an empty table raises.
   */
  function ResolveState(m: Matcher, rows: seq<Row>, text: string): (r: Result<Option<string>, Fault>)
    requires Chooses(m)
    ensures r.Failure? <==> |rows| == 0
    ensures r.Failure? ==> r.error == NothingToUnpack
    ensures r.Success? ==>
      && (r.value.Some? <==> BestScore(m.score, Normalize(text), AllStates(rows)) >= Cutoff)
      && (r.value.Some? ==> IsBest(m.score, Normalize(text), AllStates(rows), r.value.value))
  {
    match ExtractOne(m, Normalize(text), AllStates(rows))
    case None => Failure(NothingToUnpack)
    case Some(best) => if best.score < Cutoff then Success(None) else Success(Some(best.choice))
  }

  /** The boolean mask `State.str.upper() == state & Bank.str.upper() == bank`. */
  predicate InScope(row: Row, state: string, bank: string) {
    Upper(row.state) == state && Upper(row.bank) == bank
  }

  /** `subset`: the rows in scope, in table order. */
  function Scope(rows: seq<Row>, state: string, bank: string): seq<Row>
    decreases |rows|
  {
    if |rows| == 0 then []
    else (if InScope(rows[0], state, bank) then [rows[0]] else []) + Scope(rows[1..], state, bank)
  }

  /** `subset` holds exactly the rows of the table that are in scope. */
  lemma {:induction false} ScopeMembers(rows: seq<Row>, state: string, bank: string)
    ensures forall row :: row in Scope(rows, state, bank) <==> row in rows && InScope(row, state, bank)
    decreases |rows|
  {
    if |rows| > 0 {
      ScopeMembers(rows[1..], state, bank);
      assert forall row :: row in rows <==> row == rows[0] || row in rows[1..];
    }
  }

  /** `subset["Branch"].str.upper().tolist()`. */
  function BranchNames(scope: seq<Row>): seq<string> {
    seq(|scope|, i requires 0 <= i < |scope| => Upper(scope[i].branch))
  }

  /**
   The branch names the matcher scores against: exactly the upper-cased branches
   of the rows of the resolved state and bank, and of no other row.
   */
  function BranchCandidates(rows: seq<Row>, state: string, bank: string): (names: seq<string>)
    ensures forall n :: n in names <==> exists row :: row in rows && InScope(row, state, bank) && Upper(row.branch) == n
    ensures |names| == 0 <==> forall row :: row in rows ==> !InScope(row, state, bank)
  {
    var scope := Scope(rows, state, bank);
    ScopeMembers(rows, state, bank);
    var names := BranchNames(scope);
    assert forall i :: 0 <= i < |scope| ==> names[i] == Upper(scope[i].branch) && scope[i] in scope;
    assert forall n :: n in names ==> exists i :: 0 <= i < |scope| && names[i] == n;
    assert |scope| > 0 ==> scope[0] in scope;
    names
  }

  /** The row is in scope and its branch upper-cases to `branch`. */
  predicate Matches(row: Row, state: string, bank: string, branch: string) {
    InScope(row, state, bank) && Upper(row.branch) == branch
  }

  /**
   A direct reference for the selected row: the position of the first row of the
   whole table that is in scope and carries the branch.
   */
  function FirstMatchingRow(rows: seq<Row>, state: string, bank: string, branch: string): (r: Option<nat>)
    ensures r.Some? ==> r.value < |rows| && Matches(rows[r.value], state, bank, branch)
    ensures r.Some? ==> forall j :: 0 <= j < r.value ==> !Matches(rows[j], state, bank, branch)
    ensures r.None? ==> forall j :: 0 <= j < |rows| ==> !Matches(rows[j], state, bank, branch)
    decreases |rows|
  {
    if |rows| == 0 then None
    else if Matches(rows[0], state, bank, branch) then Some(0)
    else match FirstMatchingRow(rows[1..], state, bank, branch)
      case None => None
      case Some(k) => Some(k + 1)
  }

  /** What `branch_input` ends with. */
  datatype BranchOutcome =
    | EmptySubset       // no row has the stored state and bank
    | BelowCutoff       // the best branch scores below the cutoff
    | Found(row: Row)   // `subset[subset["Branch"].str.upper() == match].iloc[0]`

  /**
   The matching and row selection in `branch_input`, for the stored state and
   bank. A found row lies in scope and its branch is a best-scoring candidate.
   */
  function ResolveBranch(m: Matcher, rows: seq<Row>, state: string, bank: string, text: string): (r: BranchOutcome)
    requires Chooses(m)
    ensures r == EmptySubset <==> |BranchCandidates(rows, state, bank)| == 0
    ensures r == BelowCutoff <==>
      |BranchCandidates(rows, state, bank)| > 0 && BestScore(m.score, Normalize(text), BranchCandidates(rows, state, bank)) < Cutoff
    ensures r.Found? ==>
      && r.row in rows && InScope(r.row, state, bank)
      && IsBest(m.score, Normalize(text), BranchCandidates(rows, state, bank), Upper(r.row.branch))
  {
    var subset := Scope(rows, state, bank);
    if |subset| == 0 then EmptySubset
    else
      var names := BranchNames(subset);
      var best := ExtractOne(m, Normalize(text), names).value;
      if best.score < Cutoff then BelowCutoff
      else
        var k := IndexOf(names, best.choice);
        assert subset[k] in subset;
        ScopeMembers(rows, state, bank);
        Found(subset[k])
  }

  /**
   The row `iloc[0]` picks from the subset is the first row of the whole table
   that is in scope and whose branch upper-cases to the same name.
   */
  lemma {:induction false} ScopeSelectsFirstMatch(rows: seq<Row>, state: string, bank: string, branch: string)
    requires branch in BranchNames(Scope(rows, state, bank))
    ensures FirstMatchingRow(rows, state, bank, branch).Some?
    ensures var names := BranchNames(Scope(rows, state, bank));
      rows[FirstMatchingRow(rows, state, bank, branch).value] == Scope(rows, state, bank)[IndexOf(names, branch)]
    decreases |rows|
  {
    var rest := Scope(rows[1..], state, bank);
    var scope := Scope(rows, state, bank);
    if !InScope(rows[0], state, bank) {
      assert scope == rest;
      ScopeSelectsFirstMatch(rows[1..], state, bank, branch);
    } else if Upper(rows[0].branch) != branch {
      assert scope == [rows[0]] + rest;
      var names, tail := BranchNames(scope), BranchNames(rest);
      assert names[0] != branch && names[1..] == tail by {
        BranchNamesCons(rows[0], rest);
      }
      assert branch in tail;
      ScopeSelectsFirstMatch(rows[1..], state, bank, branch);
      var k := IndexOf(tail, branch);
      assert IndexOf(names, branch) == k + 1;
      assert scope[k + 1] == rest[k];
    } else {
      assert scope[0] == rows[0] && BranchNames(scope)[0] == branch;
    }
  }

  lemma BranchNamesCons(row: Row, rest: seq<Row>)
    ensures BranchNames([row] + rest) == [Upper(row.branch)] + BranchNames(rest)
  {
  }

  /**
   A found row is the first row of the table in scope whose upper-cased branch is
   the match, and its state, bank and branch normalise to the resolved triple.
   */
  lemma FoundIsFirstMatchingRow(m: Matcher, rows: seq<Row>, state: string, bank: string, text: string)
    requires Chooses(m)
    requires ResolveBranch(m, rows, state, bank, text).Found?
    ensures var row := ResolveBranch(m, rows, state, bank, text).row;
      && Upper(row.state) == state && Upper(row.bank) == bank
      && FirstMatchingRow(rows, state, bank, Upper(row.branch)).Some?
      && rows[FirstMatchingRow(rows, state, bank, Upper(row.branch)).value] == row
  {
    var subset := Scope(rows, state, bank);
    var names := BranchNames(subset);
    var best := ExtractOne(m, Normalize(text), names).value;
    ScopeSelectsFirstMatch(rows, state, bank, best.choice);
  }

  /**
   A bank that no row carries (an alias value absent from the table, say) leaves
   no branch to match, whatever the state and the message.
   */
  lemma UnknownBankHasNoBranches(m: Matcher, rows: seq<Row>, state: string, bank: string, text: string)
    requires Chooses(m)
    requires bank !in AllBanks(rows)
    ensures ResolveBranch(m, rows, state, bank, text) == EmptySubset
  {
    CandidatesAreRowValues(rows);
  }
}
