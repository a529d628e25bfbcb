/** Position reconciliation: two snapshots are normalised to dictionaries and
    compared symbol by symbol, within a tolerance. */
module Reconciliation {
  import opened Common

  /** A position with its symbol as the constructor normalised it. */
  datatype BrokerPosition = BrokerPosition(symbol: string, quantity: real, averagePrice: real)

  datatype Status = Match | Mismatch | Blocked

  type Holding = (real, real)

  const FLAT: Holding := (0.0, 0.0)

  datatype Difference = Difference(symbol: string, local: Holding, broker: Holding)

  datatype Report = Report(status: Status, mismatches: seq<Difference>)

  datatype ReconcileError = DuplicatePosition

  type Outcome<T> = Result<T, ReconcileError>

  /** `_normalize`. */
  function Holdings(positions: seq<BrokerPosition>): Outcome<map<string, Holding>> {
    if positions == [] then Ok(map[])
    else
      match Holdings(positions[..|positions| - 1])
      case Err(e) => Err(e)
      case Ok(before) =>
        var p := positions[|positions| - 1];
        if Normalize(p.symbol) in before then Err(DuplicatePosition)
        else Ok(before[Normalize(p.symbol) := (p.quantity, p.averagePrice)])
  }

  function HoldingOf(holdings: map<string, Holding>, symbol: string): Holding {
    if symbol in holdings then holdings[symbol] else FLAT
  }

  predicate Agree(a: Holding, b: Holding) {
    Abs(a.0 - b.0) <= TOLERANCE && Abs(a.1 - b.1) <= TOLERANCE
  }

  /** A symbol list in ascending order, without repetition. */
  ghost predicate Ascending(symbols: seq<string>) {
    forall i, j :: 0 <= i < j < |symbols| ==> TextLess(symbols[i], symbols[j])
  }

  function InsertSymbol(symbols: seq<string>, x: string): seq<string> {
    if symbols == [] then [x]
    else
      var last := symbols[|symbols| - 1];
      if x == last then symbols
      else if TextLess(x, last) then InsertSymbol(symbols[..|symbols| - 1], x) + [last]
      else symbols + [x]
  }

  /** `sorted(set(...))` of the normalised symbols. */
  function SortedSymbols(positions: seq<BrokerPosition>): seq<string> {
    if positions == [] then []
    else InsertSymbol(SortedSymbols(positions[..|positions| - 1]), Normalize(positions[|positions| - 1].symbol))
  }

  function Differences(symbols: seq<string>, local: map<string, Holding>, broker: map<string, Holding>)
    : seq<Difference>
  {
    if symbols == [] then []
    else
      var symbol := symbols[|symbols| - 1];
      var left, right := HoldingOf(local, symbol), HoldingOf(broker, symbol);
      Differences(symbols[..|symbols| - 1], local, broker)
        + (if Agree(left, right) then [] else [Difference(symbol, left, right)])
  }

  /** `reconcile`. */
  function Reconcile(local: Option<seq<BrokerPosition>>, broker: Option<seq<BrokerPosition>>): Outcome<Report> {
    if local.None? || broker.None? then Ok(Report(Blocked, []))
    else
      match (Holdings(local.value), Holdings(broker.value))
      case (Err(e), _) => Err(e)
      case (_, Err(e)) => Err(e)
      case (Ok(left), Ok(right)) =>
        var mismatches := Differences(SortedSymbols(local.value + broker.value), left, right);
        Ok(Report(if mismatches == [] then Match else Mismatch, mismatches))
  }

  // ------------------------------------------------------------ the loops

  method NormalizePositions(positions: seq<BrokerPosition>) returns (out: Outcome<map<string, Holding>>)
    ensures out == Holdings(positions)
  {
    var holdings: map<string, Holding> := map[];
    var i := 0;
    while i < |positions|
      invariant 0 <= i <= |positions| && Holdings(positions[..i]) == Ok(holdings)
    {
      assert positions[..i + 1][..i] == positions[..i];
      var symbol := Normalize(positions[i].symbol);
      if symbol in holdings {
        HoldingsStop(positions, i + 1);
        return Err(DuplicatePosition);
      }
      holdings := holdings[symbol := (positions[i].quantity, positions[i].averagePrice)];
      i := i + 1;
    }
    assert positions[..i] == positions;
    return Ok(holdings);
  }

  method ReconcilePositions(local: Option<seq<BrokerPosition>>,
      broker: Option<seq<BrokerPosition>>) returns (out: Outcome<Report>)
    ensures out == Reconcile(local, broker)
  {
    if local.None? || broker.None? {
      return Ok(Report(Blocked, []));
    }
    var left := NormalizePositions(local.value);
    if left.Err? {
      return Err(left.error);
    }
    var right := NormalizePositions(broker.value);
    if right.Err? {
      return Err(right.error);
    }
    var symbols := SortedSymbols(local.value + broker.value);
    var mismatches: seq<Difference> := [];
    var i := 0;
    while i < |symbols|
      invariant 0 <= i <= |symbols| && mismatches == Differences(symbols[..i], left.value, right.value)
    {
      assert symbols[..i + 1][..i] == symbols[..i];
      var a, b := HoldingOf(left.value, symbols[i]), HoldingOf(right.value, symbols[i]);
      if !Agree(a, b) {
        mismatches := mismatches + [Difference(symbols[i], a, b)];
      }
      i := i + 1;
    }
    assert symbols[..i] == symbols;
    return Ok(Report(if mismatches == [] then Match else Mismatch, mismatches));
  }

  lemma {:induction false} HoldingsStop(positions: seq<BrokerPosition>, k: nat)
    requires k <= |positions| && Holdings(positions[..k]).Err?
    ensures Holdings(positions) == Holdings(positions[..k])
    decreases |positions|
  {
    if k == |positions| {
      assert positions[..k] == positions;
    } else {
      var n := |positions| - 1;
      assert positions[..n][..k] == positions[..k];
      HoldingsStop(positions[..n], k);
    }
  }

  // ------------------------------------------------------------ what the report says

  lemma {:induction false} InsertKeepsAscending(symbols: seq<string>, x: string)
    requires Ascending(symbols)
    ensures Ascending(InsertSymbol(symbols, x))
    ensures forall y :: y in InsertSymbol(symbols, x) <==> y in symbols || y == x
    ensures |InsertSymbol(symbols, x)| == |symbols| + (if x in symbols then 0 else 1)
  {
    if symbols != [] {
      var n := |symbols| - 1;
      var last := symbols[n];
      TextOrder(x, last, x);
      if x != last && TextLess(x, last) {
        InsertKeepsAscending(symbols[..n], x);
        var shorter := InsertSymbol(symbols[..n], x);
        forall i | 0 <= i < |shorter| ensures TextLess(shorter[i], last) {
          assert shorter[i] in shorter;
        }
        assert symbols == symbols[..n] + [last];
      } else if x != last {
        forall i | 0 <= i < n ensures TextLess(symbols[i], x) {
          TextOrder(symbols[i], last, x);
        }
      }
    }
  }

  lemma {:induction false} SortedSymbolsFacts(positions: seq<BrokerPosition>)
    ensures Ascending(SortedSymbols(positions))
    ensures forall y :: y in SortedSymbols(positions) <==> Holds(positions, y)
  {
    if positions != [] {
      var n := |positions| - 1;
      SortedSymbolsFacts(positions[..n]);
      InsertKeepsAscending(SortedSymbols(positions[..n]), Normalize(positions[n].symbol));
      forall y ensures Holds(positions, y) <==> Holds(positions[..n], y) || y == Normalize(positions[n].symbol) {
        HoldsLast(positions, y);
      }
    }
  }

  /** Some position has this normalised symbol. */
  ghost predicate Holds(positions: seq<BrokerPosition>, symbol: string) {
    exists i :: 0 <= i < |positions| && Normalize(positions[i].symbol) == symbol
  }

  lemma HoldsLast(positions: seq<BrokerPosition>, symbol: string)
    requires positions != []
    ensures Holds(positions, symbol) <==>
            Holds(positions[..|positions| - 1], symbol) || symbol == Normalize(positions[|positions| - 1].symbol)
  {
    var n := |positions| - 1;
    if Holds(positions[..n], symbol) {
      var i :| 0 <= i < n && Normalize(positions[..n][i].symbol) == symbol;
      assert Normalize(positions[i].symbol) == symbol;
    }
    if Holds(positions, symbol) && symbol != Normalize(positions[n].symbol) {
      var i :| 0 <= i < |positions| && Normalize(positions[i].symbol) == symbol;
      assert Normalize(positions[..n][i].symbol) == symbol;
    }
  }

  ghost predicate Stored(holdings: map<string, Holding>, p: BrokerPosition) {
    Normalize(p.symbol) in holdings && holdings[Normalize(p.symbol)] == (p.quantity, p.averagePrice)
  }

  lemma StoredGrows(positions: seq<BrokerPosition>, before: map<string, Holding>, after: map<string, Holding>)
    requires positions != [] && forall p :: p in positions[..|positions| - 1] ==> Stored(before, p)
    requires var p := positions[|positions| - 1];
             Normalize(p.symbol) !in before && after == before[Normalize(p.symbol) := (p.quantity, p.averagePrice)]
    ensures forall i :: 0 <= i < |positions| ==> Stored(after, positions[i])
  {
    hide Normalize;
    forall i | 0 <= i < |positions| ensures Stored(after, positions[i]) {
      if i < |positions| - 1 {
        var front := positions[..|positions| - 1];
        assert front[i] == positions[i] && front[i] in front;
        assert Stored(before, positions[i]);
      }
    }
  }

  /** A normalised dictionary holds exactly the positions. */
  lemma {:induction false} HoldingsAreThePositions(positions: seq<BrokerPosition>)
    requires Holdings(positions).Ok?
    ensures forall i :: 0 <= i < |positions| ==> Stored(Holdings(positions).value, positions[i])
    ensures forall s :: s in Holdings(positions).value <==> Holds(positions, s)
  {
    if positions != [] {
      var n := |positions| - 1;
      HoldingsAreThePositions(positions[..n]);
      var before, after := Holdings(positions[..n]).value, Holdings(positions).value;
      assert after == before[Normalize(positions[n].symbol) := (positions[n].quantity, positions[n].averagePrice)];
      hide Normalize, Holdings, Holds;
      StoredGrows(positions, before, after);
      hide Stored;
      forall s ensures s in after <==> Holds(positions, s) {
        HoldsLast(positions, s);
      }
    }
  }

  /** The snapshots can be compared exactly when no normalised symbol occurs
      twice, which is when every position has its own place among the symbols. */
  lemma {:induction false} ComparableExactlyWhenDistinct(positions: seq<BrokerPosition>)
    ensures Holdings(positions).Ok? <==> |SortedSymbols(positions)| == |positions|
    ensures |SortedSymbols(positions)| <= |positions|
    ensures Holdings(positions).Ok? <==> Distinct(positions)
  {
    if positions != [] {
      var n := |positions| - 1;
      var last := Normalize(positions[n].symbol);
      ComparableExactlyWhenDistinct(positions[..n]);
      SortedSymbolsFacts(positions[..n]);
      InsertKeepsAscending(SortedSymbols(positions[..n]), last);
      if Holdings(positions[..n]).Ok? {
        HoldingsAreThePositions(positions[..n]);
      }
      DistinctLast(positions);
      hide Distinct, Normalize;
    }
  }

  ghost predicate Distinct(positions: seq<BrokerPosition>) {
    forall i, j :: 0 <= i < j < |positions| ==> Normalize(positions[i].symbol) != Normalize(positions[j].symbol)
  }

  lemma DistinctLast(positions: seq<BrokerPosition>)
    requires positions != []
    ensures var n := |positions| - 1;
            Distinct(positions) <==> Distinct(positions[..n]) && !Holds(positions[..n], Normalize(positions[n].symbol))
  {
    hide Normalize;
    var n := |positions| - 1;
    var before := positions[..n];
    assert forall i :: 0 <= i < n ==> before[i] == positions[i];
    if Distinct(positions) {
      assert forall i, j :: 0 <= i < j < |before| ==> Normalize(positions[i].symbol) != Normalize(positions[j].symbol);
    }
    if Holds(before, Normalize(positions[n].symbol)) {
      var i :| 0 <= i < n && Normalize(before[i].symbol) == Normalize(positions[n].symbol);
      assert Normalize(positions[i].symbol) == Normalize(positions[n].symbol);
    }
    if Distinct(before) && !Holds(before, Normalize(positions[n].symbol)) {
      forall i, j | 0 <= i < j < |positions| ensures Normalize(positions[i].symbol) != Normalize(positions[j].symbol) {
        assert Normalize(before[i].symbol) == Normalize(positions[i].symbol);
        assert j < n ==> Normalize(before[j].symbol) == Normalize(positions[j].symbol);
      }
    }
  }

  lemma {:induction false} DifferencesAreTheDisagreements(symbols: seq<string>, local: map<string, Holding>,
      broker: map<string, Holding>)
    ensures forall d :: d in Differences(symbols, local, broker) <==>
                          && d.symbol in symbols
                          && d == Difference(d.symbol, HoldingOf(local, d.symbol), HoldingOf(broker, d.symbol))
                          && !Agree(HoldingOf(local, d.symbol), HoldingOf(broker, d.symbol))
  {
    if symbols != [] {
      var n := |symbols| - 1;
      DifferencesAreTheDisagreements(symbols[..n], local, broker);
      assert symbols == symbols[..n] + [symbols[n]];
      hide Agree, HoldingOf;
    }
  }

  /** BLOCKED exactly when a snapshot is missing; MATCH exactly when every symbol
      of the two snapshots is held in agreeing amounts, a missing one counting as
      flat; and the report lists exactly the symbols that disagree. */
  lemma ReportIsExact(local: seq<BrokerPosition>, broker: seq<BrokerPosition>)
    requires Holdings(local).Ok? && Holdings(broker).Ok?
    ensures var left, right := Holdings(local).value, Holdings(broker).value;
            var r := Reconcile(Some(local), Some(broker));
            && r.Ok? && r.value.status != Blocked
            && (r.value.status == Match <==>
                  forall s :: s in left.Keys + right.Keys ==> Agree(HoldingOf(left, s), HoldingOf(right, s)))
            && (forall d :: d in r.value.mismatches <==>
                  && d.symbol in left.Keys + right.Keys
                     && d == Difference(d.symbol, HoldingOf(left, d.symbol), HoldingOf(right, d.symbol))
                  && !Agree(HoldingOf(left, d.symbol), HoldingOf(right, d.symbol)))
  {
    var left, right := Holdings(local).value, Holdings(broker).value;
    var symbols := SortedSymbols(local + broker);
    SortedSymbolsFacts(local + broker);
    HoldingsAreThePositions(local);
    HoldingsAreThePositions(broker);
    DifferencesAreTheDisagreements(symbols, left, right);
    forall s ensures s in symbols <==> s in left.Keys + right.Keys {
      HoldsConcat(local, broker, s);
    }
    var mismatches := Differences(symbols, left, right);
    assert mismatches == [] <==> forall d :: d !in mismatches by {
      if mismatches != [] {
        assert mismatches[0] in mismatches;
      }
    }
    hide Agree, HoldingOf, Holdings, Differences, SortedSymbols;
    if forall d :: d !in mismatches {
      forall s | s in left.Keys + right.Keys ensures Agree(HoldingOf(left, s), HoldingOf(right, s)) {
        var d := Difference(s, HoldingOf(left, s), HoldingOf(right, s));
        assert d !in mismatches;
      }
    }
  }

  lemma HoldsConcat(a: seq<BrokerPosition>, b: seq<BrokerPosition>, symbol: string)
    ensures Holds(a + b, symbol) <==> Holds(a, symbol) || Holds(b, symbol)
  {
    hide Normalize;
    if Holds(a, symbol) {
      var i :| 0 <= i < |a| && Normalize(a[i].symbol) == symbol;
      assert Normalize((a + b)[i].symbol) == symbol;
    }
    if Holds(b, symbol) {
      var i :| 0 <= i < |b| && Normalize(b[i].symbol) == symbol;
      assert Normalize((a + b)[|a| + i].symbol) == symbol;
    }
    if Holds(a + b, symbol) {
      var i :| 0 <= i < |a + b| && Normalize((a + b)[i].symbol) == symbol;
      assert if i < |a| then Normalize(a[i].symbol) == symbol else Normalize(b[i - |a|].symbol) == symbol;
    }
  }

  // ------------------------------------------------------------ symmetry and order

  /** Swapping the snapshots swaps the two sides of every mismatch. */
  lemma {:induction false} ReconcileIsSymmetric(local: Option<seq<BrokerPosition>>, broker: Option<seq<BrokerPosition>>)
    ensures Reconcile(local, broker).Err? <==> Reconcile(broker, local).Err?
    ensures Reconcile(local, broker).Ok? ==>
            Reconcile(broker, local) == Ok(Swapped(Reconcile(local, broker).value))
  {
    if local.Some? && broker.Some? && Holdings(local.value).Ok? && Holdings(broker.value).Ok? {
      SameSymbolsSameOrder(local.value + broker.value, broker.value + local.value);
      DifferencesSwap(SortedSymbols(local.value + broker.value), Holdings(local.value).value,
        Holdings(broker.value).value);
    }
  }

  function SwapAll(differences: seq<Difference>): (r: seq<Difference>)
    ensures |r| == |differences|
  {
    seq(|differences|, i requires 0 <= i < |differences| =>
      Difference(differences[i].symbol, differences[i].broker, differences[i].local))
  }

  function Swapped(r: Report): Report {
    Report(r.status, SwapAll(r.mismatches))
  }

  lemma {:induction false} DifferencesSwap(symbols: seq<string>, a: map<string, Holding>, b: map<string, Holding>)
    ensures Differences(symbols, b, a) == SwapAll(Differences(symbols, a, b))
  {
    if symbols != [] {
      DifferencesSwap(symbols[..|symbols| - 1], a, b);
    }
  }

  lemma SameSymbolsSameOrder(a: seq<BrokerPosition>, b: seq<BrokerPosition>)
    requires multiset(a) == multiset(b)
    ensures SortedSymbols(a) == SortedSymbols(b)
  {
    SortedSymbolsFacts(a);
    SortedSymbolsFacts(b);
    HoldsPermuted(a, b);
    AscendingIsUnique(SortedSymbols(a), SortedSymbols(b));
  }

  lemma HoldsPermuted(a: seq<BrokerPosition>, b: seq<BrokerPosition>)
    requires multiset(a) == multiset(b)
    ensures forall s :: Holds(a, s) <==> Holds(b, s)
  {
    hide Normalize;
    forall s ensures Holds(a, s) <==> Holds(b, s) {
      if Holds(a, s) {
        var i :| 0 <= i < |a| && Normalize(a[i].symbol) == s;
        assert a[i] in multiset(b);
        var j :| 0 <= j < |b| && b[j] == a[i];
        assert Normalize(b[j].symbol) == s;
      }
      if Holds(b, s) {
        var i :| 0 <= i < |b| && Normalize(b[i].symbol) == s;
        assert b[i] in multiset(a);
        var j :| 0 <= j < |a| && a[j] == b[i];
        assert Normalize(a[j].symbol) == s;
      }
    }
  }

  lemma {:induction false} AscendingIsUnique(a: seq<string>, b: seq<string>)
    requires Ascending(a) && Ascending(b) && forall y :: y in a <==> y in b
    ensures a == b
  {
    assert a != [] ==> a[0] in b;
    assert b != [] ==> b[0] in a;
    if a != [] {
      var m, n := |a| - 1, |b| - 1;
      assert a[m] in b && b[n] in a;
      LastIsGreatest(a, b[n]);
      LastIsGreatest(b, a[m]);
      TextOrder(a[m], b[n], a[m]);
      assert a[m] == b[n];
      forall y ensures y in a[..m] <==> y in b[..n] {
        InInit(a, y);
        InInit(b, y);
      }
      AscendingIsUnique(a[..m], b[..n]);
      assert a == a[..m] + [a[m]] && b == b[..n] + [b[n]];
    }
  }

  lemma InInit(symbols: seq<string>, y: string)
    requires Ascending(symbols) && symbols != []
    ensures y in symbols[..|symbols| - 1] <==> y in symbols && y != symbols[|symbols| - 1]
  {
    var m := |symbols| - 1;
    assert symbols == symbols[..m] + [symbols[m]];
    if symbols[m] in symbols[..m] {
      var k :| 0 <= k < m && symbols[k] == symbols[m];
      assert TextLess(symbols[k], symbols[m]);
      TextOrder(symbols[m], symbols[m], symbols[m]);
    }
  }

  lemma LastIsGreatest(symbols: seq<string>, x: string)
    requires Ascending(symbols) && x in symbols
    ensures x == symbols[|symbols| - 1] || TextLess(x, symbols[|symbols| - 1])
  {
  }

  /** Neither the report nor the duplicate check depends on the order in which
      the positions are listed. */
  lemma ReconcileIgnoresOrder(a: seq<BrokerPosition>, b: seq<BrokerPosition>, c: seq<BrokerPosition>,
      d: seq<BrokerPosition>)
    requires multiset(a) == multiset(b) && multiset(c) == multiset(d)
    ensures Reconcile(Some(a), Some(c)) == Reconcile(Some(b), Some(d))
  {
    HoldingsPermuted(a, b);
    HoldingsPermuted(c, d);
    assert multiset(a + c) == multiset(b + d);
    SameSymbolsSameOrder(a + c, b + d);
  }

  lemma HoldingsPermuted(a: seq<BrokerPosition>, b: seq<BrokerPosition>)
    requires multiset(a) == multiset(b)
    ensures Holdings(a) == Holdings(b)
  {
    SameSymbolsSameOrder(a, b);
    assert |multiset(a)| == |a| && |multiset(b)| == |b|;
    ComparableExactlyWhenDistinct(a);
    ComparableExactlyWhenDistinct(b);
    hide Holdings, SortedSymbols, Distinct, Holds, Stored, Normalize;
    if Holdings(a).Ok? {
      HoldingsAreThePositions(a);
      HoldingsAreThePositions(b);
      HoldsPermuted(a, b);
      assert Holdings(a).value.Keys == Holdings(b).value.Keys;
      SameHoldings(a, b, Holdings(a).value, Holdings(b).value);
    } else {
      assert Holdings(a).error == DuplicatePosition && Holdings(b).error == DuplicatePosition;
    }
  }

  lemma SameHoldings(a: seq<BrokerPosition>, b: seq<BrokerPosition>, left: map<string, Holding>,
                     right: map<string, Holding>)
    requires multiset(a) == multiset(b) && left.Keys == right.Keys
    requires forall i :: 0 <= i < |a| ==> Stored(left, a[i])
    requires forall i :: 0 <= i < |b| ==> Stored(right, b[i])
    requires forall s :: s in left ==> Holds(a, s)
    ensures left == right
  {
    hide Normalize;
    forall s | s in left ensures left[s] == right[s] {
      assert Holds(a, s);
      var i :| 0 <= i < |a| && Normalize(a[i].symbol) == s;
      assert Stored(left, a[i]);
      assert a[i] in multiset(b);
      var j :| 0 <= j < |b| && b[j] == a[i];
      assert Stored(right, b[j]);
    }
  }

  // ------------------------------------------------------------ the tolerance

  /** Two holdings agree when neither quantities nor prices are more than 1e-12
      apart; a flat side has neither. */
  lemma AgreeExactlyWhen(a: Holding, b: Holding)
    ensures Agree(a, b) <==>
            && a.0 - 0.000000000001 <= b.0 <= a.0 + 0.000000000001
            && a.1 - 0.000000000001 <= b.1 <= a.1 + 0.000000000001
  {
  }

  /** A symbol held on one side only is a mismatch, unless it is held in no more
      than the tolerance. */
  lemma MissingSidesDisagree(holdings: map<string, Holding>, other: map<string, Holding>, symbol: string)
    requires symbol in holdings && symbol !in other
    ensures HoldingOf(other, symbol) == (0.0, 0.0) && HoldingOf(holdings, symbol) == holdings[symbol]
    ensures !Agree(HoldingOf(holdings, symbol), HoldingOf(other, symbol))
            <==> Abs(holdings[symbol].0) > 0.000000000001 || Abs(holdings[symbol].1) > 0.000000000001
  {
  }

  /** A report is blocked exactly when a snapshot is missing. */
  lemma BlockedExactlyWhen(local: Option<seq<BrokerPosition>>, broker: Option<seq<BrokerPosition>>)
    ensures Reconcile(local, broker).Ok? && Reconcile(local, broker).value.status == Blocked
            <==> local.None? || broker.None?
  {
    hide Holdings, Differences, SortedSymbols;
  }
}
