/**
 The conversation: `start` asks for the state, `state_input`, `bank_input` and
 `branch_input` handle one message each, and `cancel` ends the dialogue. Each
 handler returns the next conversation state, the stored user data and the kind
 of reply it sends; the text and buttons of the replies are not modelled.
 */
module Conversation {
  import opened Wrappers
  import opened Text
  import opened Fuzzy
  import opened Dataset
  import opened Banks
  import opened Lookup

  /** `STATE`, `BANK`, `BRANCH` and `ConversationHandler.END`. */
  datatype Phase = State | Bank | Branch | End

  /** The entries of `context.user_data` the handlers use. */
  datatype UserData = UserData(state: Option<string>, bank: Option<string>)

  /** The kind of message a handler replies with. */
  datatype Reply =
    | Welcome
    | StateNotFound
    | StateFound
    | BankNotFound(input: string)
    | BankFound
    | NoBranchesFound
    | BranchNotFound(input: string)
    | Details(row: Row)
    | Cancelled

  /** A handler's effect: the state it returns, the user data after it, its reply. */
  datatype Step = Step(next: Phase, data: UserData, reply: Reply)

  /** `start`: greets and asks for the state. */
  function Start(data: UserData): (s: Step)
    ensures s.next == State && s.data == data
  {
    Step(State, data, Welcome)
  }

  /**
   `state_input`: on a match the state is stored and the bank is asked for; below
   the cutoff nothing is stored and the state is asked for again.
   */
  function StateInput(m: Matcher, rows: seq<Row>, data: UserData, text: string): (r: Result<Step, Fault>)
    requires Chooses(m)
    ensures r.Failure? <==> |rows| == 0
    ensures r.Success? ==> r.value.next == State || r.value.next == Bank
    ensures r.Success? ==> (r.value.next == Bank <==> BestScore(m.score, Normalize(text), AllStates(rows)) >= Cutoff)
    ensures r.Success? && r.value.next == State ==> r.value.data == data
    ensures r.Success? && r.value.next == Bank ==>
      && r.value.data.bank == data.bank
      && r.value.data.state.Some?
      && r.value.data.state.value in AllStates(rows)
      && IsBest(m.score, Normalize(text), AllStates(rows), r.value.data.state.value)
  {
    match ResolveState(m, rows, text)
    case Failure(f) => Failure(f)
    case Success(None) => Success(Step(State, data, StateNotFound))
    case Success(Some(state)) => Success(Step(Bank, data.(state := Some(state)), StateFound))
  }

  /** `bank_match` is truthy: a name was returned and it is not the empty string. */
  predicate IsBankMatch(res: Result<Option<string>, Fault>) {
    res.Success? && res.value.Some? && res.value.value != ""
  }

  /**
   `bank_input`: on a resolved, non-empty bank name it is stored and the branch is
   asked for; otherwise (`not bank_match`) the bank is asked for again.
   */
  function BankInput(m: Matcher, rows: seq<Row>, data: UserData, text: string): (r: Result<Step, Fault>)
    requires Chooses(m)
    ensures r.Failure? <==> NormalizeBankName(m, text, AllBanks(rows)).Failure?
    ensures r.Success? ==> r.value.next == Bank || r.value.next == Branch
    ensures r.Success? ==> (r.value.next == Branch <==> IsBankMatch(NormalizeBankName(m, text, AllBanks(rows))))
    ensures r.Success? && r.value.next == Bank ==> r.value.data == data && r.value.reply == BankNotFound(Strip(text))
    ensures r.Success? && r.value.next == Branch ==>
      && r.value.reply == BankFound
      && r.value.data.state == data.state
      && r.value.data.bank == NormalizeBankName(m, text, AllBanks(rows)).value
  {
    var userBank := Strip(text);
    var bankMatch := NormalizeBankName(m, userBank, AllBanks(rows));
    BankOfStrippedMessage(m, text, AllBanks(rows));
    if bankMatch.Failure? then Failure(bankMatch.error)
    else if !IsBankMatch(bankMatch) then Success(Step(Bank, data, BankNotFound(userBank)))
    else Success(Step(Branch, data.(bank := bankMatch.value), BankFound))
  }

  /**
   `branch_input`: reads the stored state and bank (a missing one raises) and
   ends the conversation whether or not a branch is found.
   */
  function BranchInput(m: Matcher, rows: seq<Row>, data: UserData, text: string): (r: Result<Step, Fault>)
    requires Chooses(m)
    ensures data.state.None? ==> r == Failure(MissingUserData("state"))
    ensures data.state.Some? && data.bank.None? ==> r == Failure(MissingUserData("bank"))
    ensures data.state.Some? && data.bank.Some? ==> r.Success?
    ensures r.Success? ==> r.value.next == End && r.value.data == data
    ensures r.Success? ==>
      (r.value.reply == NoBranchesFound <==> |BranchCandidates(rows, data.state.value, data.bank.value)| == 0)
    ensures r.Success? ==>
      var names := BranchCandidates(rows, data.state.value, data.bank.value);
      (r.value.reply == BranchNotFound(Normalize(text)) <==>
         |names| > 0 && BestScore(m.score, Normalize(text), names) < Cutoff)
    ensures r.Success? ==>
      r.value.reply == NoBranchesFound || r.value.reply == BranchNotFound(Normalize(text)) || r.value.reply.Details?
    ensures r.Success? && r.value.reply.Details? ==>
      var row, state, bank := r.value.reply.row, data.state.value, data.bank.value;
      && row in rows && InScope(row, state, bank)
      && IsBest(m.score, Normalize(text), BranchCandidates(rows, state, bank), Upper(row.branch))
      && FirstMatchingRow(rows, state, bank, Upper(row.branch)).Some?
      && rows[FirstMatchingRow(rows, state, bank, Upper(row.branch)).value] == row
  {
    var userBranch := Normalize(text);
    if data.state.None? then Failure(MissingUserData("state"))
    else if data.bank.None? then Failure(MissingUserData("bank"))
    else
      var state, bank := data.state.value, data.bank.value;
      var reply :=
        (match ResolveBranch(m, rows, state, bank, text)
         case EmptySubset => NoBranchesFound
         case BelowCutoff => BranchNotFound(userBranch)
         case Found(row) =>
           FoundIsFirstMatchingRow(m, rows, state, bank, text);
           Details(row));
      Success(Step(End, data, reply))
  }

  /** `cancel`: ends the conversation from any state. */
  function Cancel(data: UserData): (s: Step)
    ensures s.next == End && s.data == data
  {
    Step(End, data, Cancelled)
  }

  /** What reaches the conversation handler: `/start`, `/cancel` or a plain text message. */
  datatype Event = StartCommand | CancelCommand | Message(text: string)

  /** The conversation state of one user, and their stored data. */
  datatype Conversation = Conversation(phase: Phase, data: UserData)

  /** The conversation after an update, and the reply sent, if any. */
  datatype Turn = Turn(conv: Conversation, reply: Option<Reply>)

  function Apply(c: Conversation, s: Step): Turn {
    Turn(Conversation(s.next, s.data), Some(s.reply))
  }

  /** A handler's outcome as the outcome of the update: a raise propagates, a step is applied. */
  function Deliver(c: Conversation, r: Result<Step, Fault>): Result<Turn, Fault> {
    match r
    case Failure(f) => Failure(f)
    case Success(s) => Success(Apply(c, s))
  }

  /**
   The `ConversationHandler` wiring: outside a conversation only `/start` is
   handled; inside one, a text message goes to the handler of the current state,
   `/cancel` to the fallback, and `/start` is ignored (no re-entry).
   */
  function Handle(m: Matcher, rows: seq<Row>, c: Conversation, ev: Event): (r: Result<Turn, Fault>)
    requires Chooses(m)
    ensures c.phase == End && ev == StartCommand ==> r.Success? && r.value.conv.phase == State
    ensures c.phase == End && ev != StartCommand ==> r == Success(Turn(c, None))
    ensures c.phase != End && ev == CancelCommand ==> r.Success? && r.value.conv.phase == End
    ensures c.phase != End && ev == StartCommand ==> r == Success(Turn(c, None))
    ensures c.phase == State && ev.Message? && r.Success? ==> r.value.conv.phase in {State, Bank}
    ensures c.phase == Bank && ev.Message? && r.Success? ==> r.value.conv.phase in {Bank, Branch}
    ensures c.phase == Branch && ev.Message? && r.Success? ==> r.value.conv.phase == End
  {
    match ev
    case StartCommand =>
      if c.phase == End then Success(Apply(c, Start(c.data))) else Success(Turn(c, None))
    case CancelCommand =>
      if c.phase == End then Success(Turn(c, None)) else Success(Apply(c, Cancel(c.data)))
    case Message(text) =>
      match c.phase
      case End => Success(Turn(c, None))
      case State => Deliver(c, StateInput(m, rows, c.data, text))
      case Bank => Deliver(c, BankInput(m, rows, c.data, text))
      case Branch => Deliver(c, BranchInput(m, rows, c.data, text))
  }

  /** While asking for the state, a message goes to `state_input`. */
  lemma HandleStateMessage(m: Matcher, rows: seq<Row>, c: Conversation, text: string)
    requires Chooses(m) && c.phase == State
    ensures Handle(m, rows, c, Message(text)) == Deliver(c, StateInput(m, rows, c.data, text))
  {
  }

  /** While asking for the bank, a message goes to `bank_input`. */
  lemma HandleBankMessage(m: Matcher, rows: seq<Row>, c: Conversation, text: string)
    requires Chooses(m) && c.phase == Bank
    ensures Handle(m, rows, c, Message(text)) == Deliver(c, BankInput(m, rows, c.data, text))
  {
  }

  /** While asking for the branch, a message goes to `branch_input`. */
  lemma HandleBranchMessage(m: Matcher, rows: seq<Row>, c: Conversation, text: string)
    requires Chooses(m) && c.phase == Branch
    ensures Handle(m, rows, c, Message(text)) == Deliver(c, BranchInput(m, rows, c.data, text))
  {
  }

  /**
   What every reachable conversation satisfies: asking for the bank, a state of
   the table is stored; asking for the branch, a non-empty bank name from the
   table or the alias table is stored as well.
   */
  predicate Consistent(rows: seq<Row>, c: Conversation) {
    && (c.phase == Bank || c.phase == Branch ==> c.data.state.Some? && c.data.state.value in AllStates(rows))
    && (c.phase == Branch ==>
          && c.data.bank.Some? && c.data.bank.value != ""
          && (c.data.bank.value in AllBanks(rows) || c.data.bank.value in BankAliases.Values))
  }

  /** A successful `state_input` leaves a consistent conversation. */
  lemma StateStepKeepsConsistent(m: Matcher, rows: seq<Row>, data: UserData, text: string)
    requires Chooses(m)
    ensures var r := StateInput(m, rows, data, text);
      r.Success? ==> Consistent(rows, Conversation(r.value.next, r.value.data))
  {
  }

  /**
   A successful `bank_input` after a stored state of the table leaves a consistent
   conversation: the stored bank is non-empty and an alias value or a bank of the table.
   */
  lemma BankStepKeepsConsistent(m: Matcher, rows: seq<Row>, data: UserData, text: string)
    requires Chooses(m) && data.state.Some? && data.state.value in AllStates(rows)
    ensures var r := BankInput(m, rows, data, text);
      r.Success? ==> Consistent(rows, Conversation(r.value.next, r.value.data))
  {
    var r := BankInput(m, rows, data, text);
    if r.Success? && r.value.next == Branch {
      var res := NormalizeBankName(m, text, AllBanks(rows));
      assert IsBankMatch(res);
      assert res.value.value in BankAliases.Values || res.value.value in AllBanks(rows);
    }
  }

  /** Handling any update keeps a conversation consistent. */
  lemma HandleKeepsConsistent(m: Matcher, rows: seq<Row>, c: Conversation, ev: Event)
    requires Chooses(m) && Consistent(rows, c)
    ensures Handle(m, rows, c, ev).Success? ==> Consistent(rows, Handle(m, rows, c, ev).value.conv)
  {
    if ev.Message? {
      match c.phase
      case End =>
      case State =>
        HandleStateMessage(m, rows, c, ev.text);
        StateStepKeepsConsistent(m, rows, c.data, ev.text);
      case Bank =>
        HandleBankMessage(m, rows, c, ev.text);
        BankStepKeepsConsistent(m, rows, c.data, ev.text);
      case Branch =>
        HandleBranchMessage(m, rows, c, ev.text);
    }
  }

  /**
   A consistent conversation over a non-empty table never raises: the lists
   `extractOne` sees are non-empty and the user data `branch_input` reads is there.
   */
  lemma HandleNeverRaises(m: Matcher, rows: seq<Row>, c: Conversation, ev: Event)
    requires Chooses(m) && Consistent(rows, c)
    ensures |rows| > 0 ==> Handle(m, rows, c, ev).Success?
  {
    if |rows| > 0 && ev.Message? {
      match c.phase
      case End =>
      case State =>
        HandleStateMessage(m, rows, c, ev.text);
        assert StateInput(m, rows, c.data, ev.text).Success?;
      case Bank =>
        HandleBankMessage(m, rows, c, ev.text);
        assert AllBanks(rows) != [];
        assert NormalizeBankName(m, ev.text, AllBanks(rows)).Success?;
        assert BankInput(m, rows, c.data, ev.text).Success?;
      case Branch =>
        HandleBranchMessage(m, rows, c, ev.text);
        assert BranchInput(m, rows, c.data, ev.text).Success?;
    }
  }

  /** Feeds the events in order, stopping at the first one that raises; returns the last turn. */
  function Run(m: Matcher, rows: seq<Row>, c: Conversation, events: seq<Event>): (r: Result<Turn, Fault>)
    requires Chooses(m) && Consistent(rows, c)
    ensures r.Success? ==> Consistent(rows, r.value.conv)
    ensures |rows| > 0 ==> r.Success?
    decreases |events|
  {
    if |events| == 0 then Success(Turn(c, None))
    else
      HandleKeepsConsistent(m, rows, c, events[0]);
      HandleNeverRaises(m, rows, c, events[0]);
      match Handle(m, rows, c, events[0])
      case Failure(f) => Failure(f)
      case Success(t) => if |events| == 1 then Success(t) else Run(m, rows, t.conv, events[1..])
  }
}
