/**
 The reference table the bot loads at start-up, and the candidate lists built
 from it. Reading the CSV file is not part of this model: a row arrives with each
 cell either present (its text) or missing.
 */
module Dataset {
  import opened Wrappers
  import opened Text
  import opened Seqs

  /** One CSV row as read, before missing cells are filled. */
  datatype RawRow = RawRow(
    state: Option<string>, bank: Option<string>, branch: Option<string>,
    district: Option<string>, address: Option<string>,
    ifsc: Option<string>, micr: Option<string>, contact: Option<string>)

  /** One row of the loaded table. */
  datatype Row = Row(
    state: string, bank: string, branch: string,
    district: string, address: string,
    ifsc: string, micr: string, contact: string)

  /** What `fillna` writes into a missing cell. */
  const Missing: string := "N/A"

  /** `v` is what `fillna("N/A")` leaves in a cell that was read as `cell`. */
  predicate Fills(cell: Option<string>, v: string) {
    match cell
    case Some(text) => v == text
    case None => v == Missing
  }

  function FillCell(cell: Option<string>): string {
    match cell
    case Some(text) => text
    case None => Missing
  }

  function FillRow(raw: RawRow): Row {
    Row(FillCell(raw.state), FillCell(raw.bank), FillCell(raw.branch),
        FillCell(raw.district), FillCell(raw.address),
        FillCell(raw.ifsc), FillCell(raw.micr), FillCell(raw.contact))
  }

  /** `pd.read_csv(...).fillna("N/A")`: the rows in file order, every missing cell replaced. */
  function Load(raw: seq<RawRow>): (rows: seq<Row>)
    ensures |rows| == |raw|
    ensures forall i :: 0 <= i < |raw| ==>
      && Fills(raw[i].state, rows[i].state) && Fills(raw[i].bank, rows[i].bank)
      && Fills(raw[i].branch, rows[i].branch) && Fills(raw[i].district, rows[i].district)
      && Fills(raw[i].address, rows[i].address) && Fills(raw[i].ifsc, rows[i].ifsc)
      && Fills(raw[i].micr, rows[i].micr) && Fills(raw[i].contact, rows[i].contact)
  {
    seq(|raw|, i requires 0 <= i < |raw| => FillRow(raw[i]))
  }

  /**
   pandas' `Series.unique()`: each value once, in the order of its first
   occurrence (the order is stated by `UniqueKeepsFirstOccurrenceOrder`).
   */
  function Unique(xs: seq<string>): (r: seq<string>)
    ensures NoDuplicates(r)
    ensures forall x :: x in r <==> x in xs
    decreases |xs|
  {
    if |xs| == 0 then []
    else
      var n := |xs| - 1;
      var d := Unique(xs[..n]);
      assert forall x :: x in xs ==> x in xs[..n] || x == xs[n];
      if xs[n] in d then d else d + [xs[n]]
  }

  /** `Unique` lists the values in the order in which they first occur. */
  lemma {:induction false} UniqueKeepsFirstOccurrenceOrder(xs: seq<string>)
    ensures InFirstOccurrenceOrder(Unique(xs), xs)
    decreases |xs|
  {
    if |xs| > 0 {
      var n := |xs| - 1;
      var d := Unique(xs[..n]);
      UniqueKeepsFirstOccurrenceOrder(xs[..n]);
      forall i | 0 <= i < |d| ensures d[i] in xs[..n] && IndexOf(xs, d[i]) == IndexOf(xs[..n], d[i]) < n {
        assert d[i] in d;
        IndexOfInPrefix(xs, n, d[i]);
      }
      var r := Unique(xs);
      if xs[n] !in d {
        assert forall j :: 0 <= j < n ==> xs[j] == xs[..n][j];
        assert IndexOf(xs, xs[n]) == n;
        assert r == d + [xs[n]];
      } else {
        assert r == d;
      }
      forall i, j | 0 <= i < j < |r| ensures IndexOf(xs, r[i]) < IndexOf(xs, r[j]) {
        if j < |d| {
          assert InFirstOccurrenceOrder(d, xs[..n]);
        }
      }
    }
  }

  /** The upper-cased State column, row by row. */
  function StateColumn(rows: seq<Row>): seq<string> {
    seq(|rows|, i requires 0 <= i < |rows| => Upper(rows[i].state))
  }

  /** The upper-cased Bank column, row by row. */
  function BankColumn(rows: seq<Row>): seq<string> {
    seq(|rows|, i requires 0 <= i < |rows| => Upper(rows[i].bank))
  }

  /**
   `all_states`: the distinct upper-cased states of the table. It is empty exactly
   when the table is; its order is stated by `CandidatesInFirstOccurrenceOrder`.
   */
  function AllStates(rows: seq<Row>): (r: seq<string>)
    ensures NoDuplicates(r)
    ensures forall s :: s in r <==> s in StateColumn(rows)
    ensures |r| == 0 <==> |rows| == 0
  {
    var col := StateColumn(rows);
    assert forall i :: 0 <= i < |rows| ==> col[i] == Upper(rows[i].state);
    assert |rows| > 0 ==> col[0] in col;
    Unique(col)
  }

  /**
   `all_banks`: the distinct upper-cased banks of the table. It is empty exactly
   when the table is; its order is stated by `CandidatesInFirstOccurrenceOrder`.
   */
  function AllBanks(rows: seq<Row>): (r: seq<string>)
    ensures NoDuplicates(r)
    ensures forall b :: b in r <==> b in BankColumn(rows)
    ensures |r| == 0 <==> |rows| == 0
  {
    var col := BankColumn(rows);
    assert forall i :: 0 <= i < |rows| ==> col[i] == Upper(rows[i].bank);
    assert |rows| > 0 ==> col[0] in col;
    Unique(col)
  }

  /**
   A value is a candidate exactly when some row carries it: every row's
   upper-cased state and bank are in the lists, and nothing else is.
   */
  lemma CandidatesAreRowValues(rows: seq<Row>)
    ensures forall s :: s in AllStates(rows) <==> exists row :: row in rows && Upper(row.state) == s
    ensures forall b :: b in AllBanks(rows) <==> exists row :: row in rows && Upper(row.bank) == b
    ensures forall i :: 0 <= i < |rows| ==> Upper(rows[i].state) in AllStates(rows) && Upper(rows[i].bank) in AllBanks(rows)
  {
    assert forall i :: 0 <= i < |rows| ==> StateColumn(rows)[i] == Upper(rows[i].state);
    assert forall i :: 0 <= i < |rows| ==> BankColumn(rows)[i] == Upper(rows[i].bank);
  }

  /**
   Both candidate lists list their values in the order of the rows where each
   value first occurs.
   */
  lemma CandidatesInFirstOccurrenceOrder(rows: seq<Row>)
    ensures InFirstOccurrenceOrder(AllStates(rows), StateColumn(rows))
    ensures InFirstOccurrenceOrder(AllBanks(rows), BankColumn(rows))
  {
    assert AllStates(rows) == Unique(StateColumn(rows));
    assert AllBanks(rows) == Unique(BankColumn(rows));
    UniqueKeepsFirstOccurrenceOrder(StateColumn(rows));
    UniqueKeepsFirstOccurrenceOrder(BankColumn(rows));
  }

  /** "N/A" is already upper case, so a filled cell stays "N/A" in the candidate lists. */
  lemma MissingIsUpper()
    ensures Upper(Missing) == Missing
  {
    assert Upper(Missing)[0] == 'N' && Upper(Missing)[1] == '/' && Upper(Missing)[2] == 'A';
  }

  /**
   Through `fillna("N/A")`, "N/A" becomes a state candidate exactly when some
   State cell is missing or itself upper-cases to "N/A".
   */
  lemma MissingStateBecomesCandidate(raw: seq<RawRow>)
    ensures Missing in AllStates(Load(raw)) <==>
      exists i :: 0 <= i < |raw| && (raw[i].state.None? || Upper(raw[i].state.value) == Missing)
  {
    var rows := Load(raw);
    var col := StateColumn(rows);
    MissingIsUpper();
    if exists i :: 0 <= i < |raw| && (raw[i].state.None? || Upper(raw[i].state.value) == Missing) {
      var i :| 0 <= i < |raw| && (raw[i].state.None? || Upper(raw[i].state.value) == Missing);
      assert Fills(raw[i].state, rows[i].state);
      assert col[i] == Missing;
    }
    if Missing in AllStates(rows) {
      var i :| 0 <= i < |col| && col[i] == Missing;
      assert Fills(raw[i].state, rows[i].state);
    }
  }

  /**
   Through `fillna("N/A")`, "N/A" becomes a bank candidate exactly when some
   Bank cell is missing or itself upper-cases to "N/A".
   */
  lemma MissingBankBecomesCandidate(raw: seq<RawRow>)
    ensures Missing in AllBanks(Load(raw)) <==>
      exists i :: 0 <= i < |raw| && (raw[i].bank.None? || Upper(raw[i].bank.value) == Missing)
  {
    var rows := Load(raw);
    var col := BankColumn(rows);
    MissingIsUpper();
    if exists i :: 0 <= i < |raw| && (raw[i].bank.None? || Upper(raw[i].bank.value) == Missing) {
      var i :| 0 <= i < |raw| && (raw[i].bank.None? || Upper(raw[i].bank.value) == Missing);
      assert Fills(raw[i].bank, rows[i].bank);
      assert col[i] == Missing;
    }
    if Missing in AllBanks(rows) {
      var i :| 0 <= i < |col| && col[i] == Missing;
      assert Fills(raw[i].bank, rows[i].bank);
    }
  }
}
