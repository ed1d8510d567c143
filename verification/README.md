# IFSC finder bot: the lookup core in Dafny

A Telegram bot asks a user for an Indian state, a bank and a branch, and answers
with the IFSC record of that branch from a CSV table. This project models the
core of `telegram_ifsc_bot.py`:

- the candidate lists `all_states` and `all_banks`, built from the table;
- the alias table `BANK_ALIASES` and `normalize_bank_name`;
- the matching in `state_input`, `bank_input` and `branch_input`;
- the scoping of the table to the stored state and bank, and the row `iloc[0]` selects;
- the transitions of `start` and `cancel`, and how `ConversationHandler` routes an update.

The fuzzy scorer `fuzz.partial_ratio` is a library function. It is a parameter
here: any function from a pair of texts to a score in 0..100. `process.extractOne`
is modelled by what every call relies on. For a non-empty list it returns one of
the choices whose score is maximal. Which of several equally scored choices wins
is never asserted. Every level makes one `partial_ratio` match and accepts a
score of at least 60. An empty list makes `extractOne` return `None`. The two-name
unpacking then raises, and the model returns a `Fault` instead of a step.

Modules follow the program's structure:

- `Wrappers`: `Option`, `Result` and the faults the core can raise.
- `Text`: `strip`, `upper`, `lower`.
- `Seqs`: first occurrences in a sequence.
- `Fuzzy`: the matcher and the 60-point cutoff.
- `Dataset`: the table and the candidate lists.
- `Banks`: aliases and bank resolution.
- `Lookup`: state and branch resolution and row selection.
- `Conversation`: the handlers and the routing.
- `Walkthrough`: complete dialogues.

## Model

| member | source | states |
|---|---|---|
| Text.Strip | telegram_ifsc_bot.py:73 | The result neither starts nor ends with Python whitespace, and the input is the result with only `str.isspace` characters added on either side. |
| Text.StripExact | telegram_ifsc_bot.py:73 | Stripping is determined by that description: whatever whitespace surrounds a text without surrounding whitespace, `strip()` returns exactly that text. |
| Text.StripTight | telegram_ifsc_bot.py:88 | A text without surrounding whitespace is left unchanged by `strip()`. |
| Text.StripIdempotent | telegram_ifsc_bot.py:88-89 | Stripping twice, as `bank_input` and `normalize_bank_name` do, equals stripping once. |
| Text.StripIgnoresPadding | telegram_ifsc_bot.py:73 | Extra whitespace on either side of a message does not change the stripped text. |
| Text.UpperStripCommute | telegram_ifsc_bot.py:46 | Upper-casing and stripping commute, because no letter is whitespace. |
| Text.NormalizeIgnoresCaseAndPadding | telegram_ifsc_bot.py:73 | Two messages that differ only in surrounding whitespace and ASCII letter case give the same `strip().upper()`. |
| Text.NormalizeStripped | telegram_ifsc_bot.py:88-89 | Normalising an already stripped message gives the same text as normalising the raw message. |
| Fuzzy.BestScore | telegram_ifsc_bot.py:74 | An independent reference for the best score: some choice reaches it and no choice exceeds it. |
| Fuzzy.BestScoreOfBest | telegram_ifsc_bot.py:74 | Every best-scoring choice scores exactly the best score, so the cutoff test does not depend on tie-breaking. |
| Fuzzy.FirstBest | telegram_ifsc_bot.py:74 | The first position whose choice reaches the best score; all earlier choices score strictly less. |
| Fuzzy.ChoosersExist | telegram_ifsc_bot.py:74 | For every scorer some choice function picks a best-scoring choice, so the assumption about `extractOne` can be met. |
| Fuzzy.ExtractOne | telegram_ifsc_bot.py:74 | `None` exactly for an empty list; otherwise a member of the list with maximal score, together with that score, which equals the best score. |
| Fuzzy.ExtractOneIndexed | telegram_ifsc_bot.py:53 | rapidfuzz's three-value result carries the same choice and score as `ExtractOne`, plus a position that holds the choice. |
| Fuzzy.AsWrittenUnpackingRaises | telegram_ifsc_bot.py:53 | Against a three-value result, the two-name unpacking raises for every list. |
| Fuzzy.ThreeValueUnpackingIsExtractOne | telegram_ifsc_bot.py:116 | Unpacking three values raises only for an empty list, and otherwise yields a best-scoring choice and its score. |
| Fuzzy.DiscerningPicksExact | telegram_ifsc_bot.py:74-75 | Under a scorer that ranks every text highest against itself, a query that is itself a choice is the only best choice, and it passes the cutoff. |
| Dataset.Unique | telegram_ifsc_bot.py:24 | `unique()` holds no value twice and exactly the values of the column. |
| Dataset.UniqueKeepsFirstOccurrenceOrder | telegram_ifsc_bot.py:24 | `unique()` lists values in the order of their first occurrence in the column. |
| Dataset.AllStates | telegram_ifsc_bot.py:24 | `all_states` has no duplicates, holds exactly the upper-cased states of the table, and is empty exactly when the table is. |
| Dataset.AllBanks | telegram_ifsc_bot.py:25 | `all_banks` has no duplicates, holds exactly the upper-cased banks of the table, and is empty exactly when the table is. |
| Dataset.CandidatesAreRowValues | telegram_ifsc_bot.py:24-25 | A text is a state (bank) candidate exactly when some row's upper-cased state (bank) equals it. |
| Dataset.CandidatesInFirstOccurrenceOrder | telegram_ifsc_bot.py:24-25 | Both candidate lists follow the order of the rows where each value first occurs. |
| Dataset.MissingStateBecomesCandidate | telegram_ifsc_bot.py:21-24 | After `fillna("N/A")`, "N/A" is a state candidate exactly when some State cell is missing or upper-cases to "N/A". |
| Dataset.MissingBankBecomesCandidate | telegram_ifsc_bot.py:21-25 | After `fillna("N/A")`, "N/A" is a bank candidate exactly when some Bank cell is missing or upper-cases to "N/A". |
| Banks.NormalizeBankName | telegram_ifsc_bot.py:45-56 | An alias hit on `strip().upper().lower()` returns the alias value. Otherwise an empty `all_banks` raises, and the result is a name exactly when the best score reaches 60; that name is a best-scoring bank. Any name returned is an alias value or a member of `all_banks`. |
| Banks.AliasBypassesMatcher | telegram_ifsc_bot.py:49-50 | On an alias hit the result depends neither on the scorer, nor on the chooser, nor on the bank list. |
| Banks.BankIgnoresCaseAndPadding | telegram_ifsc_bot.py:46-50 | Messages that differ only in surrounding whitespace and ASCII case resolve to the same bank. |
| Banks.BankOfStrippedMessage | telegram_ifsc_bot.py:88-89 | Stripping in `bank_input` before calling `normalize_bank_name` changes nothing. |
| Lookup.ResolveState | telegram_ifsc_bot.py:73-75 | An empty table raises. Otherwise a state is resolved exactly when the best score reaches 60, and it is a best-scoring member of `all_states`. |
| Lookup.ScopeMembers | telegram_ifsc_bot.py:108 | The subset holds exactly the rows whose upper-cased state and bank equal the stored pair. |
| Lookup.BranchCandidates | telegram_ifsc_bot.py:108-116 | The branch candidates are exactly the upper-cased branches of rows in scope. They are empty exactly when no row is in scope. |
| Lookup.FirstMatchingRow | telegram_ifsc_bot.py:124 | Independent reference: the first position in the whole table of a row in scope carrying the branch, or none when no row does. |
| Lookup.ResolveBranch | telegram_ifsc_bot.py:104-124 | There are three outcomes. An empty subset happens exactly when there is no candidate. A below-cutoff result happens exactly when the best candidate score is under 60. Otherwise a row of the table in scope is found, and its upper-cased branch is a best-scoring candidate. |
| Lookup.ScopeSelectsFirstMatch | telegram_ifsc_bot.py:124 | The row `iloc[0]` takes from the subset is the first row of the table that is in scope and carries the branch. |
| Lookup.FoundIsFirstMatchingRow | telegram_ifsc_bot.py:116-124 | A found row has the stored state and bank and is the first in-scope row of the table with its upper-cased branch. |
| Lookup.UnknownBankHasNoBranches | telegram_ifsc_bot.py:98-109 | A stored bank that no row carries, such as an alias value absent from the table, always ends in an empty subset. |
| Conversation.Start | telegram_ifsc_bot.py:59-69 | `start` moves to STATE and leaves the stored data alone. |
| Conversation.StateInput | telegram_ifsc_bot.py:72-84 | An empty table raises. The handler moves to BANK exactly when the best score reaches 60, storing a best-scoring state and keeping the bank; otherwise it stays in STATE with the data unchanged. |
| Conversation.BankInput | telegram_ifsc_bot.py:87-100 | It raises exactly when bank resolution does. It moves to BRANCH exactly when the resolved name is present and non-empty, storing that name and keeping the state. Otherwise it stays in BANK with the data unchanged and echoes the stripped message. |
| Conversation.BranchInput | telegram_ifsc_bot.py:103-138 | A missing state, then a missing bank, raises. Otherwise the conversation ends with the data unchanged. When both keys are stored it does not raise. "No branches" is sent exactly when there is no candidate branch; "branch not found" exactly when there are candidates and the best score is under 60. Otherwise the details name a table row in scope whose upper-cased branch scores best, and that row is the first in-scope row of the table with that branch. |
| Conversation.Cancel | telegram_ifsc_bot.py:141-143 | `cancel` ends the conversation and leaves the stored data alone. |
| Conversation.Handle | telegram_ifsc_bot.py:150-157 | Outside a conversation only `/start` is handled, and it moves to STATE. Inside one, `/cancel` ends it, `/start` is ignored, and a message in STATE, BANK or BRANCH leads only to the phases its handler can return. |
| Conversation.StateStepKeepsConsistent | telegram_ifsc_bot.py:82-84 | After a successful `state_input`, a BANK phase always has a state from `all_states` stored. |
| Conversation.BankStepKeepsConsistent | telegram_ifsc_bot.py:91-100 | After a successful `bank_input`, a BRANCH phase always has a non-empty bank stored that is an alias value or a member of `all_banks`. |
| Conversation.HandleKeepsConsistent | telegram_ifsc_bot.py:150-157 | Every update keeps a conversation consistent: BANK and BRANCH have a table state stored, and BRANCH a usable bank. |
| Conversation.HandleNeverRaises | telegram_ifsc_bot.py:105-106 | Over a non-empty table, no modelled update (a new text message or a command) of a consistent conversation raises: the `user_data` keys are present and no list passed to `extractOne` is empty. |
| Conversation.Run | telegram_ifsc_bot.py:150-157 | Any sequence of modelled updates keeps the conversation consistent, and over a non-empty table none raises. |
| Walkthrough.StateNameExact | telegram_ifsc_bot.py:73-75 | Under a discerning scorer, a message whose normalisation is a candidate state resolves to exactly that state. |
| Walkthrough.StateStepFindsRowState | telegram_ifsc_bot.py:72-84 | Under a discerning scorer, a row's own state typed without padding is stored upper-cased, and the bank is asked for. |
| Walkthrough.BankNameExact | telegram_ifsc_bot.py:45-56 | Under a discerning scorer, a non-alias message whose normalisation is a candidate bank resolves to exactly that bank. |
| Walkthrough.BankStepFindsRowBank | telegram_ifsc_bot.py:87-100 | Under a discerning scorer, a row's own bank, not an alias key, is stored upper-cased, and the branch is asked for. |
| Walkthrough.BranchStepFindsFirstRow | telegram_ifsc_bot.py:116-124 | Under a discerning scorer, a row's own branch, for its state and bank, selects the first table row with that triple. |
| Walkthrough.BranchInputFindsFirstRow | telegram_ifsc_bot.py:103-138 | Under a discerning scorer, `branch_input` then ends the conversation with that first row's details. |
| Walkthrough.DialogueFromStart | telegram_ifsc_bot.py:150-151 | `/start` outside a conversation enters STATE with the data unchanged. |
| Walkthrough.DialogueFromState | telegram_ifsc_bot.py:152-153 | Under a discerning scorer, in STATE, a row's own state moves the dialogue to BANK with that state stored. |
| Walkthrough.DialogueFromBank | telegram_ifsc_bot.py:154 | Under a discerning scorer, in BANK, a row's own bank moves the dialogue to BRANCH with that bank stored, whatever bank was stored before. |
| Walkthrough.DialogueFromBranch | telegram_ifsc_bot.py:155 | Under a discerning scorer, in BRANCH, a row's own branch ends the dialogue with the first matching row's details. |
| Walkthrough.ExactTripleFindsRow | telegram_ifsc_bot.py:150-157 | From any user data left by an earlier dialogue, `/start` followed by a row's own state, bank and branch (no padding, bank not an alias key) ends with the first table row that has the same upper-cased triple. This assumes a discerning scorer. |

## Left out

- Text.Upper and Text.Lower map only ASCII letters. Python's `upper()` and `lower()` also map non-ASCII letters, such as `é` to `É` in the latin-1 table, and `"sbı".upper().lower()` is `"sbi"`, which hits `BANK_ALIASES` in Python but not in the model.
- Fuzzy.Matcher: `partial_ratio` is not modelled; the scorer is any function into 0..100.
- Fuzzy.Discerning: this is a hypothesis used only by the Walkthrough lemmas. `partial_ratio` does not satisfy it, because `partial_ratio("ANDHERI", "ANDHERI EAST")` is 100. With the real scorer, an exact branch name can therefore select an earlier row whose branch contains it.
- Fuzzy.ExtractOne: the lookups are modelled with the two-value result they unpack. rapidfuzz 1.0 and later return three values; see "## Findings".
- Conversation.Handle: `conversation_timeout=60` is not modelled; it needs a clock.
- Conversation.Handle: edited text messages are not an `Event`. `filters.TEXT & ~filters.COMMAND` also matches them, but then `update.message` is None, and `update.message.text` at telegram_ifsc_bot.py:73, 88 or 104 raises `AttributeError`. `HandleNeverRaises` and `Run` cover only the modelled updates.
- Conversation.Handle: commands other than `/start` and `/cancel` match neither `filters.TEXT & ~filters.COMMAND` nor a fallback, so they are ignored. They are not an `Event`.
- Conversation.Conversation: `user_data` belongs to a user, while PTB keys the conversation by (chat, user). Two chats of one user share the stored state and bank. The model keeps one conversation together with its data.
- Conversation.Run: it stops at the first raise. PTB instead logs the exception and keeps the conversation in its phase.
- Conversation.Reply: the texts, Markdown and website buttons of the replies are not modelled, only which reply is sent.
- Dataset.Load: reading `ifsc.csv` with `encoding="latin1"` is I/O. Which cells pandas reads as missing (its default `na_values`) is abstracted into `RawRow`'s `Option` cells.
- `website_button`, `main`, the bot token, logging and polling are I/O and are not modelled.
- `dashboard.py` is not part of this model.

## Findings

| source | as written | input that shows it | evidently intended | confidence | as-written member | corrected member |
|---|---|---|---|---|---|---|
| telegram_ifsc_bot.py:53 | `match, score = process.extractOne(...)` unpacks two names (also at lines 74 and 116). rapidfuzz 1.0 and later return `(choice, score, index)` for a list of choices. | Any non-empty choice list, e.g. the message `KERALA` in STATE with `KERALA` in `all_states`: the unpacking raises `ValueError` before the score is tested. | `match, score, _ = process.extractOne(...)`, which takes the best choice and its score. | not executed; it holds for any installed rapidfuzz 1.0 or later, and the repository pins no version | Fuzzy.AsWrittenUnpackingRaises | Fuzzy.ThreeValueUnpackingIsExtractOne |
