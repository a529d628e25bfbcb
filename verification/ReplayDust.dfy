/** A whole replay that loses a quantity: an admissible configuration, three rows
    of one symbol and one day, and an entry whose target hit leaves dust. */
module ReplayDust {
  import opened Common
  import opened Authority
  import opened ReplayModel

  const CONFIG: Config := Config(10, 1.0, 1.0, 0.3, 0.0, 0.0)

  /** Three whole steps of 0.3 and a rest of 1e-13. */
  const UNITS: real := 0.9000000000001

  function PriceAt(timestamp: int, price: real): Row {
    Row(timestamp, "ABC", price, price, None, None, [])
  }

  const ROWS: seq<Row> := [PriceAt(0, 1.0), PriceAt(1, 2.0), PriceAt(2, 2.0)]

  const BUY: Assessment := Assessment(Approved, Long, "r", UNITS, UNITS, Some(UNITS), Some(1.0), Some(0.5), Some(2.0))
  const WAIT: Assessment := Assessment(Rejected, NoTrade, "r", 0.0, 0.0, None, None, None, None)

  /** Buy on the first row, with a stop and a target; then nothing. */
  function BuyOnce(row: Row, portfolio: Portfolio): Option<Assessment> {
    Some(if row.timestamp == 0 then BUY else WAIT)
  }

  predicate IsBuy(a: ExecutionAuthorization) {
    && a.timestamp == 0 && a.symbol == "ABC" && a.direction == Long && a.status == Authorized
    && a.approvedQuantity == UNITS
  }

  const ORDER: PaperOrder := PaperOrder(0, "ABC", Long, 1.0, 1.0, UNITS, 0.0, 0.0)

  // ------------------------------------------------------------ arithmetic

  lemma PartialIsThreeSteps()
    ensures PartialSize(CONFIG, UNITS) == 0.9
  {
    assert PartialSteps(CONFIG, UNITS) == 3;
  }

  /** Without fees and slippage every cost is nothing. */
  lemma NoCosts(direction: Direction, price: real, units: real)
    ensures FillPrice(CONFIG, direction, price) == price
    ensures Fee(CONFIG, price, units) == 0.0 && SlippageCost(CONFIG, price, units) == 0.0
  {
    assert SlippageRate(CONFIG) == 0.0;
  }

  lemma NoShare(units: real, current: real)
    requires current != 0.0
    ensures Share(0.0, units, current) == 0.0
  {
  }

  lemma UnitMove(units: real)
    ensures MoveValue(Long, 1.0, 2.0, units) == units
  {
  }

  lemma Canonical()
    ensures Normalize("ABC") == "ABC" && !Blank("ABC")
  {
    StripOfTight("ABC");
    assert Upper("ABC") == "ABC";
  }

  // ------------------------------------------------------------ the rows

  /** What a run over these rows fixes. */
  ghost predicate Fits(x: Context) {
    && x.config == CONFIG && x.decide == BuyOnce && x.finalTimestamp == 2
    && ("ABC", 0) !in x.sessionEnds && ("ABC", 1) !in x.sessionEnds
  }

  /** The books: what the replay keeps about trades. */
  datatype Books = Books(
    open: map<string, OpenRecord>, openKeys: seq<string>, levels: map<string, Levels>,
    outcomes: seq<TradeOutcome>, journal: seq<PaperOrder>)

  function BooksOf(s: State): Books {
    Books(s.open, s.openKeys, s.levels, s.outcomes, s.journal)
  }

  lemma NoTradeNoExit(x: Context, s: State, row: Row)
    requires x.config.quantityStep > 0.0 && row.symbol !in s.open
    ensures ExitPhase(x, s, row) == Ok(s.(marks := s.marks[row.symbol := row.price]))
  {
  }

  lemma EnterDayKeepsBooks(c: Config, s: State, timestamp: int)
    ensures BooksOf(EnterDay(c, s, timestamp)) == BooksOf(s)
  {
  }

  lemma WaitIsBlocked(row: Row, id: string)
    requires row.symbol == "ABC"
    ensures Authorise(row, WAIT, id).Ok? && Authorise(row, WAIT, id).value.status.Blocked?
  {
    hide Normalize;
    Canonical();
  }

  lemma BuyIsAuthorised(row: Row, id: string)
    requires row == PriceAt(0, 1.0)
    ensures Authorise(row, BUY, id).Ok? && IsBuy(Authorise(row, BUY, id).value)
  {
    hide Normalize;
    Canonical();
  }

  /** A row on which the decision is to wait changes no books. */
  lemma WaitingKeepsBooks(x: Context, s: State, row: Row)
    requires x.decide == BuyOnce && row.symbol == "ABC" && row.timestamp != 0
    ensures DecisionPhase(x, s, row).Ok? && BooksOf(DecisionPhase(x, s, row).value.0) == BooksOf(s)
  {
    hide EnterDay, Authorise, PortfolioOf, HandleAuthorised, BooksOf;
    EnterDayKeepsBooks(x.config, s, row.timestamp);
    WaitIsBlocked(row, row.symbol + ":" + WAIT.riskVersion);
  }

  const EMPTY_BOOKS: Books := Books(map[], [], map[], [], [])
  const ENTERED: Books :=
    Books(map["ABC" := OpenRecord(ORDER, UNITS, 0.0, 0.0, 0.0, 0.0)], ["ABC"], map["ABC" := Levels(0.5, At(2.0))], [],
      [ORDER])

  lemma FreeOrder(c: Config, a: ExecutionAuthorization, price: real)
    requires price > 0.0 && a.approvedQuantity > 0.0 && !a.direction.NoTrade?
    requires FillPrice(c, a.direction, price) == price && Fee(c, price, a.approvedQuantity) == 0.0
    ensures SubmitPaper(c, a, price)
            == Ok(PaperOrder(a.timestamp, a.symbol, a.direction, price, price, a.approvedQuantity, 0.0, 0.0))
  {
    hide FillPrice, Fee;
  }

  lemma OrderIsFilled(a: ExecutionAuthorization)
    requires IsBuy(a)
    ensures SubmitPaper(CONFIG, a, 1.0) == Ok(ORDER)
  {
    hide FillPrice, Fee, SlippageCost, SlippageRate, SubmitPaper;
    NoCosts(Long, 1.0, UNITS);
    FreeOrder(CONFIG, a, 1.0);
    SameOrder(a);
  }

  lemma SameOrder(a: ExecutionAuthorization)
    requires IsBuy(a)
    ensures PaperOrder(a.timestamp, a.symbol, a.direction, 1.0, 1.0, a.approvedQuantity, 0.0, 0.0) == ORDER
  {
  }

  lemma BuyingEnters(s: State, a: ExecutionAuthorization)
    requires BooksOf(s) == EMPTY_BOOKS && IsBuy(a)
    ensures HandleAuthorised(CONFIG, s, a, 1.0, BUY).Ok?
    ensures BooksOf(HandleAuthorised(CONFIG, s, a, 1.0, BUY).value.0) == ENTERED
  {
    hide SubmitPaper, CloseTrade;
    OrderIsFilled(a);
  }

  lemma BuyingRow(x: Context, s: State, row: Row)
    requires Fits(x) && BooksOf(s) == EMPTY_BOOKS && row == PriceAt(0, 1.0)
    ensures DecisionPhase(x, s, row).Ok? && BooksOf(DecisionPhase(x, s, row).value.0) == ENTERED
  {
    hide EnterDay, Authorise, HandleAuthorised, PortfolioOf, BooksOf;
    EnterDayKeepsBooks(CONFIG, s, 0);
    var entered := EnterDay(CONFIG, s, 0);
    var id := row.symbol + ":" + BUY.riskVersion;
    BuyIsAuthorised(row, id);
    var a := Authorise(row, BUY, id).value;
    BuyingEnters(entered, a);
  }

  /** The entry. */
  lemma FirstRow(x: Context, s: State)
    requires Fits(x) && BooksOf(s) == EMPTY_BOOKS
    ensures RowStep(x, s, ROWS[0]).Ok? && BooksOf(RowStep(x, s, ROWS[0]).value.0) == ENTERED
  {
    hide ExitPhase, DecisionPhase;
    var row := ROWS[0];
    assert row == PriceAt(0, 1.0);
    NoTradeNoExit(x, s, row);
    BuyingRow(x, s.(marks := s.marks["ABC" := 1.0]), row);
  }

  // ------------------------------------------------------------ the target hit

  const SOLD: TradeOutcome := TradeOutcome("ABC", Long, 0, 1, 1.0, 2.0, 0.9, 0.9, 0.0, 0.0, 0.9, 0.0, UNITS)
  const MARKED: OpenRecord := OpenRecord(ORDER, UNITS, 0.0, 0.0, 0.0, UNITS)

  lemma SaleIsRecorded()
    ensures MakeOutcome(MARKED, "ABC", 1, 2.0, 0.9, 0.0, 0.0, 2.0) == SOLD
  {
    hide Share, MoveValue;
    NoShare(0.9, UNITS);
    UnitMove(0.9);
  }

  lemma SaleLeavesDust(s: State)
    requires s.open == map["ABC" := MARKED] && s.outcomes == []
    ensures ExitTrade(CONFIG, s, "ABC", 1, At(2.0), Some(0.9))
            == Ok(s.(outcomes := [SOLD], open := map[], openKeys := Without(s.openKeys, "ABC")))
  {
    hide FillPrice, Fee, SlippageCost, MakeOutcome, Share;
    NoCosts(Short, 2.0, 0.9);
    SaleIsRecorded();
    assert map["ABC" := MARKED] - {"ABC"} == map[] && s.outcomes + [SOLD] == [SOLD];
  }

  lemma MarkMoves(s: State)
    requires s.open == ENTERED.open
    ensures Mark(s, "ABC", 1, 2.0) == Ok(s.(open := map["ABC" := MARKED]))
  {
    hide MoveValue;
    UnitMove(UNITS);
    assert s.open["ABC" := MARKED] == map["ABC" := MARKED];
  }

  lemma TargetIsHit(s: State, row: Row)
    requires BooksOf(s) == ENTERED && row == PriceAt(1, 2.0)
    ensures ManageOpenTrade(CONFIG, s, row).Ok?
    ensures var after := ManageOpenTrade(CONFIG, s, row).value;
            after.open == map[] && after.outcomes == [SOLD] && after.journal == [ORDER]
  {
    hide Mark, ExitTrade, PartialSize;
    MarkMoves(s);
    SaleLeavesDust(s.(open := map["ABC" := MARKED]));
    PartialIsThreeSteps();
  }

  lemma SecondRow(x: Context, s: State)
    requires Fits(x) && BooksOf(s) == ENTERED
    ensures RowStep(x, s, ROWS[1]).Ok?
    ensures var after := RowStep(x, s, ROWS[1]).value.0;
            after.open == map[] && after.outcomes == [SOLD] && after.journal == [ORDER]
  {
    hide ManageOpenTrade, DecisionPhase;
    var row := ROWS[1];
    assert row == PriceAt(1, 2.0);
    TargetIsHit(s, row);
    var flat := ExitPhase(x, s, row).value;
    WaitingKeepsBooks(x, flat, row);
  }

  lemma ThirdRow(x: Context, s: State)
    requires Fits(x) && s.open == map[]
    ensures RowStep(x, s, ROWS[2]).Ok?
    ensures var after := RowStep(x, s, ROWS[2]).value.0;
            after.open == map[] && after.outcomes == s.outcomes && after.journal == s.journal
  {
    hide ExitPhase, DecisionPhase;
    var row := ROWS[2];
    assert row == PriceAt(2, 2.0);
    NoTradeNoExit(x, s, row);
    WaitingKeepsBooks(x, s.(marks := s.marks["ABC" := 2.0]), row);
  }

  // ------------------------------------------------------------ the run

  lemma {:induction false} CanonicalRowsStay(rows: seq<Row>)
    requires forall r :: r in rows ==> Normalize(r.symbol) == r.symbol
    ensures NormalizeRows(rows) == rows
  {
    hide Normalize;
    if rows != [] {
      var n := |rows| - 1;
      CanonicalRowsStay(rows[..n]);
      assert rows[n] in rows && rows == rows[..n] + [rows[n]];
    }
  }

  lemma LaterIsInsertedLast(front: seq<Row>, row: Row)
    requires forall i :: 0 <= i < |front| ==> front[i].timestamp < row.timestamp
    ensures InsertRow(front, row) == front + [row]
  {
    hide TextLess;
  }

  lemma {:induction false} SortedRowsStay(rows: seq<Row>)
    requires forall i, j :: 0 <= i < j < |rows| ==> rows[i].timestamp < rows[j].timestamp
    ensures SortRows(rows) == rows
  {
    hide InsertRow;
    if rows != [] {
      var n := |rows| - 1;
      SortedRowsStay(rows[..n]);
      LaterIsInsertedLast(rows[..n], rows[n]);
      assert rows == rows[..n] + [rows[n]];
    }
  }

  lemma RowsArePrepared()
    ensures Prepare(ROWS) == Ok(ROWS)
  {
    Canonical();
    hide Normalize, NormalizeRows, SortRows, Blank;
    CanonicalRowsStay(ROWS);
    SortedRowsStay(ROWS);
  }

  lemma {:induction false} LatestIsLast(rows: seq<Row>)
    requires rows != [] && forall i, j :: 0 <= i < j < |rows| ==> rows[i].timestamp < rows[j].timestamp
    ensures LatestTimestamp(rows) == rows[|rows| - 1].timestamp
  {
    if |rows| > 1 {
      LatestIsLast(rows[..|rows| - 1]);
    }
  }

  lemma RowsFit()
    ensures Fits(ContextOf(CONFIG, BuyOnce, ROWS))
  {
    hide LatestTimestamp, LastOfItsDay;
    LatestIsLast(ROWS);
    NotTheLast(0);
    NotTheLast(1);
    assert forall i :: 0 <= i < |ROWS| ==> ROWS[i].timestamp == i;
  }

  lemma NotTheLast(i: nat)
    requires i < 2
    ensures !LastOfItsDay(ROWS, ROWS[i])
  {
    assert IstDay(0) == IstDay(1) == IstDay(2);
    assert SameDay(ROWS[2], ROWS[i]);
  }

  lemma NextRow(x: Context, s: State, rows: seq<Row>, k: nat)
    requires x.config.quantityStep > 0.0 && k < |rows| && Replay(x, s, rows[..k]).Ok?
    requires RowStep(x, Replay(x, s, rows[..k]).value.0, rows[k]).Ok?
    ensures Replay(x, s, rows[..k + 1]).Ok?
    ensures Replay(x, s, rows[..k + 1]).value.0 == RowStep(x, Replay(x, s, rows[..k]).value.0, rows[k]).value.0
  {
    hide RowStep;
    assert rows[..k + 1][..k] == rows[..k];
  }

  lemma {:induction false} NothingToClose(c: Config, s: State, rows: seq<Row>, k: nat)
    requires k <= |rows| && s.open == map[]
    ensures CloseRemaining(c, s, rows, k) == Ok(s)
  {
    hide CloseAndForget;
    if k > 0 {
      NothingToClose(c, s, rows, k - 1);
    }
  }

  /** The run succeeds, enters once, and its only exit is short of the entry by
      1e-13, with nothing left open. */
  lemma DustIsLost()
    ensures ConfigOk(CONFIG) && Run(CONFIG, BuyOnce, Fresh(CONFIG), ROWS).Ok?
    ensures var after := Run(CONFIG, BuyOnce, Fresh(CONFIG), ROWS).value.0;
            && after.open == map[] && after.journal == [ORDER] && after.outcomes == [SOLD]
            && SOLD.quantity < ORDER.quantity
  {
    hide RowStep, SessionEnds, LatestTimestamp, Prepare, CloseRemaining;
    RowsArePrepared();
    RowsFit();
    var x := ContextOf(CONFIG, BuyOnce, ROWS);
    var s0 := Fresh(CONFIG);
    assert Replay(x, s0, ROWS[..0]) == Ok((s0, []));
    hide Replay;
    FirstRow(x, s0);
    NextRow(x, s0, ROWS, 0);
    SecondRow(x, Replay(x, s0, ROWS[..1]).value.0);
    NextRow(x, s0, ROWS, 1);
    ThirdRow(x, Replay(x, s0, ROWS[..2]).value.0);
    NextRow(x, s0, ROWS, 2);
    assert ROWS[..3] == ROWS;
    NothingToClose(CONFIG, Replay(x, s0, ROWS).value.0, ROWS, |ROWS|);
  }
}
