/**
 A complete dialogue: `/start`, then a row's own state, bank and branch as typed
 messages. Under a discerning scorer the bot answers with the first row of the
 table that has the same upper-cased state, bank and branch.
 */
module Walkthrough {
  import opened Wrappers
  import opened Text
  import opened Fuzzy
  import opened Dataset
  import opened Banks
  import opened Lookup
  import opened Conversation

  lemma StateNameExact(m: Matcher, text: string, rows: seq<Row>)
    requires Chooses(m) && Discerning(m.score)
    requires Normalize(text) in AllStates(rows)
    ensures ResolveState(m, rows, text) == Success(Some(Normalize(text)))
  {
    var q := Normalize(text);
    var states := AllStates(rows);
    var r := ResolveState(m, rows, text);
    assert BestScore(m.score, q, states) >= Cutoff by {
      assert m.score(q, q) <= BestScore(m.score, q, states);
    }
    DiscerningPicksExact(m.score, q, states, r.value.value);
  }

  lemma StateStepFindsRowState(m: Matcher, rows: seq<Row>, data: UserData, i: nat)
    requires Chooses(m) && Discerning(m.score)
    requires i < |rows| && Strip(rows[i].state) == rows[i].state
    ensures StateInput(m, rows, data, rows[i].state)
      == Success(Step(Bank, data.(state := Some(Upper(rows[i].state))), StateFound))
  {
    assert Upper(rows[i].state) in AllStates(rows) by {
      CandidatesAreRowValues(rows);
    }
    StateNameExact(m, rows[i].state, rows);
  }

  lemma BankNameExact(m: Matcher, text: string, banks: seq<string>)
    requires Chooses(m) && Discerning(m.score)
    requires AliasKey(text) !in BankAliases && Normalize(text) in banks
    ensures NormalizeBankName(m, text, banks) == Success(Some(Normalize(text)))
  {
    var q := Normalize(text);
    var r := NormalizeBankName(m, text, banks);
    assert BestScore(m.score, q, banks) >= Cutoff by {
      assert m.score(q, q) <= BestScore(m.score, q, banks);
    }
    DiscerningPicksExact(m.score, q, banks, r.value.value);
  }

  lemma BankStepFindsRowBank(m: Matcher, rows: seq<Row>, data: UserData, i: nat)
    requires Chooses(m) && Discerning(m.score)
    requires i < |rows| && Strip(rows[i].bank) == rows[i].bank
    requires AliasKey(rows[i].bank) !in BankAliases && Upper(rows[i].bank) != ""
    ensures BankInput(m, rows, data, rows[i].bank)
      == Success(Step(Branch, data.(bank := Some(Upper(rows[i].bank))), BankFound))
  {
    assert Upper(rows[i].bank) in AllBanks(rows) by {
      CandidatesAreRowValues(rows);
    }
    BankNameExact(m, rows[i].bank, AllBanks(rows));
    var r := BankInput(m, rows, data, rows[i].bank);
    assert r.Success? && r.value.next == Branch;
  }

  lemma BranchStepFindsFirstRow(m: Matcher, rows: seq<Row>, i: nat)
    requires Chooses(m) && Discerning(m.score)
    requires i < |rows| && Strip(rows[i].branch) == rows[i].branch
    ensures var state, bank, branch := Upper(rows[i].state), Upper(rows[i].bank), Upper(rows[i].branch);
      var first := FirstMatchingRow(rows, state, bank, branch);
      && first.Some? && first.value <= i
      && ResolveBranch(m, rows, state, bank, rows[i].branch) == Found(rows[first.value])
  {
    var state, bank, branch := Upper(rows[i].state), Upper(rows[i].bank), Upper(rows[i].branch);
    var names := BranchCandidates(rows, state, bank);
    assert branch in names by {
      assert rows[i] in rows && InScope(rows[i], state, bank);
    }
    var r := ResolveBranch(m, rows, state, bank, rows[i].branch);
    assert !(r == BelowCutoff) by {
      var best := ExtractOne(m, branch, names).value;
      DiscerningPicksExact(m.score, branch, names, best.choice);
    }
    DiscerningPicksExact(m.score, branch, names, Upper(r.row.branch));
    FoundIsFirstMatchingRow(m, rows, state, bank, rows[i].branch);
    assert Matches(rows[i], state, bank, branch);
  }

  lemma BranchInputFindsFirstRow(m: Matcher, rows: seq<Row>, i: nat)
    requires Chooses(m) && Discerning(m.score)
    requires i < |rows| && Strip(rows[i].branch) == rows[i].branch
    ensures var state, bank, branch := Upper(rows[i].state), Upper(rows[i].bank), Upper(rows[i].branch);
      var first := FirstMatchingRow(rows, state, bank, branch);
      var d := UserData(Some(state), Some(bank));
      && first.Some? && first.value <= i
      && BranchInput(m, rows, d, rows[i].branch) == Success(Step(End, d, Details(rows[first.value])))
  {
    BranchStepFindsFirstRow(m, rows, i);
  }

  lemma FourEvents(a: Event, b: Event, c: Event, d: Event)
    ensures [a, b, c, d] == [a] + ([b] + ([c] + [d]))
  {
  }

  lemma RunFirst(m: Matcher, rows: seq<Row>, c: Conversation, events: seq<Event>, t: Turn)
    requires Chooses(m) && Consistent(rows, c) && |events| >= 2
    requires Handle(m, rows, c, events[0]) == Success(t)
    ensures Consistent(rows, t.conv)
    ensures Run(m, rows, c, events) == Run(m, rows, t.conv, events[1..])
  {
    HandleKeepsConsistent(m, rows, c, events[0]);
  }

  lemma RunLast(m: Matcher, rows: seq<Row>, c: Conversation, e: Event, t: Turn)
    requires Chooses(m) && Consistent(rows, c)
    requires Handle(m, rows, c, e) == Success(t)
    ensures Run(m, rows, c, [e]) == Success(t)
  {
  }

  /** The branch message, once state and bank are stored, ends with the first matching row. */
  lemma DialogueFromBranch(m: Matcher, rows: seq<Row>, i: nat)
    requires Chooses(m) && Discerning(m.score)
    requires i < |rows| && Strip(rows[i].branch) == rows[i].branch && Upper(rows[i].bank) != ""
    ensures var state, bank, branch := Upper(rows[i].state), Upper(rows[i].bank), Upper(rows[i].branch);
      var first := FirstMatchingRow(rows, state, bank, branch);
      var d := UserData(Some(state), Some(bank));
      && first.Some? && first.value <= i
      && Consistent(rows, Conversation(Branch, d))
      && Run(m, rows, Conversation(Branch, d), [Message(rows[i].branch)])
         == Success(Turn(Conversation(End, d), Some(Details(rows[first.value]))))
  {
    var state, bank, branch := Upper(rows[i].state), Upper(rows[i].bank), Upper(rows[i].branch);
    var d := UserData(Some(state), Some(bank));
    var c := Conversation(Branch, d);
    assert Consistent(rows, c) by {
      CandidatesAreRowValues(rows);
    }
    BranchInputFindsFirstRow(m, rows, i);
    var first := FirstMatchingRow(rows, state, bank, branch);
    var s := Step(End, d, Details(rows[first.value]));
    HandleBranchMessage(m, rows, c, rows[i].branch);
    RunLast(m, rows, c, Message(rows[i].branch), Apply(c, s));
  }

  /** `/start` outside a conversation asks for the state and then the dialogue goes on. */
  lemma DialogueFromStart(m: Matcher, rows: seq<Row>, data: UserData, rest: seq<Event>)
    requires Chooses(m) && |rest| > 0
    ensures Run(m, rows, Conversation(End, data), [StartCommand] + rest)
         == Run(m, rows, Conversation(State, data), rest)
  {
    var events := [StartCommand] + rest;
    assert events[1..] == rest;
    RunFirst(m, rows, Conversation(End, data), events, Turn(Conversation(State, data), Some(Welcome)));
  }

  /** The row's own state is accepted and stored, and the bank is asked for. */
  lemma DialogueFromState(m: Matcher, rows: seq<Row>, data: UserData, i: nat, rest: seq<Event>)
    requires Chooses(m) && Discerning(m.score)
    requires i < |rows| && Strip(rows[i].state) == rows[i].state && |rest| > 0
    ensures Upper(rows[i].state) in AllStates(rows)
    ensures Run(m, rows, Conversation(State, data), [Message(rows[i].state)] + rest)
         == Run(m, rows, Conversation(Bank, data.(state := Some(Upper(rows[i].state)))), rest)
  {
    var events := [Message(rows[i].state)] + rest;
    var c1 := Conversation(State, data);
    var c2 := Conversation(Bank, data.(state := Some(Upper(rows[i].state))));
    assert events[1..] == rest;
    StateStepFindsRowState(m, rows, data, i);
    HandleStateMessage(m, rows, c1, rows[i].state);
    RunFirst(m, rows, c1, events, Turn(c2, Some(StateFound)));
  }

  /** The row's own bank is accepted and stored, and the branch is asked for. */
  lemma DialogueFromBank(m: Matcher, rows: seq<Row>, state: string, stored: Option<string>, i: nat, rest: seq<Event>)
    requires Chooses(m) && Discerning(m.score)
    requires state in AllStates(rows)
    requires i < |rows| && Strip(rows[i].bank) == rows[i].bank && |rest| > 0
    requires AliasKey(rows[i].bank) !in BankAliases && Upper(rows[i].bank) != ""
    ensures Upper(rows[i].bank) in AllBanks(rows)
    ensures Run(m, rows, Conversation(Bank, UserData(Some(state), stored)), [Message(rows[i].bank)] + rest)
         == Run(m, rows, Conversation(Branch, UserData(Some(state), Some(Upper(rows[i].bank)))), rest)
  {
    var events := [Message(rows[i].bank)] + rest;
    var d := UserData(Some(state), stored);
    var c2 := Conversation(Bank, d);
    var c3 := Conversation(Branch, UserData(Some(state), Some(Upper(rows[i].bank))));
    assert events[1..] == rest;
    BankStepFindsRowBank(m, rows, d, i);
    HandleBankMessage(m, rows, c2, rows[i].bank);
    RunFirst(m, rows, c2, events, Turn(c3, Some(BankFound)));
  }

  /**
   Typing a row's own state, bank and branch (without surrounding whitespace, and
   with a bank that is not itself an alias key) ends the conversation with the
   first row of the table carrying the same upper-cased triple; both entries stay
   stored. Whatever an earlier dialogue left in the user data is overwritten.
   */
  lemma ExactTripleFindsRow(m: Matcher, rows: seq<Row>, data: UserData, i: nat)
    requires Chooses(m) && Discerning(m.score)
    requires i < |rows|
    requires Strip(rows[i].state) == rows[i].state && Strip(rows[i].bank) == rows[i].bank && Strip(rows[i].branch) == rows[i].branch
    requires AliasKey(rows[i].bank) !in BankAliases && Upper(rows[i].bank) != ""
    ensures var state, bank, branch := Upper(rows[i].state), Upper(rows[i].bank), Upper(rows[i].branch);
      var first := FirstMatchingRow(rows, state, bank, branch);
      && first.Some? && first.value <= i
      && Run(m, rows, Conversation(End, data),
             [StartCommand, Message(rows[i].state), Message(rows[i].bank), Message(rows[i].branch)])
         == Success(Turn(Conversation(End, UserData(Some(state), Some(bank))), Some(Details(rows[first.value]))))
  {
    var row := rows[i];
    var last := [Message(row.branch)];
    var e2 := [Message(row.bank)] + last;
    var e3 := [Message(row.state)] + e2;
    FourEvents(StartCommand, Message(row.state), Message(row.bank), Message(row.branch));
    var c1 := Conversation(State, data);
    var c2 := Conversation(Bank, data.(state := Some(Upper(row.state))));
    var c3 := Conversation(Branch, UserData(Some(Upper(row.state)), Some(Upper(row.bank))));
    assert Upper(row.state) in AllStates(rows) && Consistent(rows, c2) by {
      DialogueFromState(m, rows, data, i, e2);
    }
    assert Consistent(rows, c3) by {
      DialogueFromBank(m, rows, Upper(row.state), data.bank, i, last);
    }
    assert Run(m, rows, Conversation(End, data), [StartCommand] + e3) == Run(m, rows, c1, e3) by {
      DialogueFromStart(m, rows, data, e3);
    }
    assert Run(m, rows, c1, e3) == Run(m, rows, c2, e2) by {
      DialogueFromState(m, rows, data, i, e2);
    }
    assert Run(m, rows, c2, e2) == Run(m, rows, c3, last) by {
      DialogueFromBank(m, rows, Upper(row.state), data.bank, i, last);
    }
    DialogueFromBranch(m, rows, i);
  }
}
