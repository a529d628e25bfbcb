/** What one row of the replay can change. Everything the whole-run results need
    is read off `RowEffect`. */
module ReplayRows {
  import opened Common
  import opened Authority
  import opened ReplayModel

  // ---------------------------------------------------- exits recorded so far

  /** Outcomes of the trade that entered `symbol` at `entry`, as quantities. */
  function ExitsOf(outcomes: seq<TradeOutcome>, symbol: string, entry: int): seq<real> {
    if outcomes == [] then []
    else
      var last := outcomes[|outcomes| - 1];
      ExitsOf(outcomes[..|outcomes| - 1], symbol, entry)
      + (if last.symbol == symbol && last.entryTime == entry then [last.quantity] else [])
  }

  /** A trade can take a partial exit of this size. */
  predicate Divisible(c: Config, quantity: real)
    requires c.quantityStep > 0.0
  {
    0.0 < PartialSize(c, quantity) < quantity
  }

  /** The partial exit would leave so little that the lifecycle drops the rest. */
  predicate Dusty(c: Config, quantity: real)
    requires c.quantityStep > 0.0
  {
    Divisible(c, quantity) && quantity - PartialSize(c, quantity) <= TOLERANCE
  }

  /** What is held about one symbol, and the exits of its open trade. */
  datatype Slot = Slot(open: Option<OpenRecord>, levels: Option<Levels>)

  function SlotOf(s: State, symbol: string): Slot {
    Slot(if symbol in s.open then Some(s.open[symbol]) else None,
         if symbol in s.levels then Some(s.levels[symbol]) else None)
  }

  /** An open trade is whole and has no exits, or it has taken exactly its one
      partial exit and its target is out of reach. */
  predicate TradeOk(c: Config, slot: Slot, exits: seq<real>)
    requires c.quantityStep > 0.0
  {
    slot.open.Some? ==>
      var r := slot.open.value;
      var q := r.order.quantity;
      || (r.quantity == q && exits == [])
      || (&& Divisible(c, q) && !Dusty(c, q)
          && r.quantity == q - PartialSize(c, q) && exits == [PartialSize(c, q)]
          && slot.levels.Some? && slot.levels.value.target == Unreachable(r.order.direction))
  }

  /** The exits of a trade that is over: all at once, partial then rest, or a
      partial whose rest was dropped as dust. */
  predicate ExitsComplete(c: Config, quantity: real, exits: seq<real>)
    requires c.quantityStep > 0.0
  {
    || exits == [quantity]
    || (Divisible(c, quantity) && !Dusty(c, quantity)
       && exits == [PartialSize(c, quantity), quantity - PartialSize(c, quantity)])
    || (Dusty(c, quantity) && exits == [PartialSize(c, quantity)])
  }

  // ------------------------------------------------------------- exit effects

  /** One exit of `units`: the outcome it records and what stays open. */
  ghost predicate Exited(s: State, after: State, symbol: string, timestamp: int, units: real) {
    && symbol in s.open
    && after == s.(outcomes := after.outcomes, open := after.open, openKeys := after.openKeys)
    && |after.outcomes| == |s.outcomes| + 1 && s.outcomes == after.outcomes[..|s.outcomes|]
    && (var e := after.outcomes[|s.outcomes|];
        && e.symbol == symbol && e.exitTime == timestamp && e.quantity == units
        && e.entryTime == s.open[symbol].order.timestamp)
    && (if s.open[symbol].quantity - units <= TOLERANCE then
          after.open == s.open - {symbol} && after.openKeys == Without(s.openKeys, symbol)
        else
          && symbol in after.open && after.open == s.open[symbol := after.open[symbol]] && after.openKeys == s.openKeys
          && after.open[symbol].order == s.open[symbol].order
          && after.open[symbol].quantity == s.open[symbol].quantity - units)
  }

  lemma ExitTradeExits(c: Config, s: State, symbol: string, timestamp: int, price: Level, quantity: Option<real>)
    requires ExitTrade(c, s, symbol, timestamp, price, quantity).Ok?
    ensures symbol in s.open
    ensures Exited(s, ExitTrade(c, s, symbol, timestamp, price, quantity).value, symbol, timestamp,
                   if quantity.Some? then quantity.value else s.open[symbol].quantity)
  {
    hide FillPrice, Fee, SlippageCost, MoveValue, Share;
  }

  lemma {:induction false} ExitsOfAppended(outcomes: seq<TradeOutcome>, more: seq<TradeOutcome>, base: nat,
      symbol: string, entry: int)
    requires base <= |outcomes| && outcomes <= more
    requires forall i :: |outcomes| <= i < |more| ==> !(more[i].symbol == symbol && more[i].entryTime == entry)
    ensures ExitsOf(more[base..], symbol, entry) == ExitsOf(outcomes[base..], symbol, entry)
    decreases |more|
  {
    if |more| > |outcomes| {
      var n := |more| - 1;
      ExitsOfAppended(outcomes, more[..n], base, symbol, entry);
      assert more[base..][..n - base] == more[..n][base..];
    } else {
      assert more == outcomes;
    }
  }

  lemma ExitsOfOneMore(s: State, after: State, symbol: string, timestamp: int, units: real, base: nat)
    requires Exited(s, after, symbol, timestamp, units) && base <= |s.outcomes|
    ensures var entry := s.open[symbol].order.timestamp;
            ExitsOf(after.outcomes[base..], symbol, entry) == ExitsOf(s.outcomes[base..], symbol, entry) + [units]
  {
    var n := |s.outcomes|;
    assert after.outcomes[base..][..n - base] == s.outcomes[base..];
  }

  /** The key list names every open trade exactly once. */
  ghost predicate KeysMatch(s: State) {
    && (forall k :: k in s.openKeys <==> k in s.open)
    && (forall i, j :: 0 <= i < j < |s.openKeys| ==> s.openKeys[i] != s.openKeys[j])
  }

  lemma {:induction false} WithoutFacts(keys: seq<string>, symbol: string)
    requires forall i, j :: 0 <= i < j < |keys| ==> keys[i] != keys[j]
    ensures forall k :: k in Without(keys, symbol) <==> k in keys && k != symbol
    ensures forall i, j :: 0 <= i < j < |Without(keys, symbol)| ==> Without(keys, symbol)[i] != Without(keys, symbol)[j]
  {
    if keys != [] {
      WithoutFacts(keys[1..], symbol);
      var rest := Without(keys[1..], symbol);
      forall j | 0 <= j < |rest| ensures rest[j] != keys[0] {
        assert rest[j] in keys[1..];
      }
      assert forall k :: k in keys <==> k == keys[0] || k in keys[1..];
    }
  }

  lemma ExitedKeepsKeys(s: State, after: State, symbol: string, timestamp: int, units: real)
    requires Exited(s, after, symbol, timestamp, units) && KeysMatch(s)
    ensures KeysMatch(after)
  {
    WithoutFacts(s.openKeys, symbol);
  }

  /** An exit phase on `symbol` at `timestamp`: other symbols keep their slots,
      the journal is untouched, and every new outcome belongs to the trade that
      was open, which is still there or has complete exits. Exits are counted
      from outcome `base` on. */
  ghost predicate ExitEffect(c: Config, s: State, after: State, symbol: string, timestamp: int, base: nat)
    requires c.quantityStep > 0.0
  {
    && after.journal == s.journal
    && (KeysMatch(s) ==> KeysMatch(after))
    && (forall y :: y != symbol ==> SlotOf(after, y) == SlotOf(s, y))
    && s.outcomes <= after.outcomes
    && (symbol !in s.open ==> after.outcomes == s.outcomes && symbol !in after.open)
    && (symbol in s.open ==>
          && (forall i :: |s.outcomes| <= i < |after.outcomes| ==>
                && after.outcomes[i].symbol == symbol && after.outcomes[i].exitTime == timestamp
                && after.outcomes[i].entryTime == s.open[symbol].order.timestamp)
          && (symbol in after.open ==> after.open[symbol].order == s.open[symbol].order)
          && (base <= |s.outcomes| ==> LedgerStep(c, s, after, symbol, base)))
  }

  /** The exits of the open trade of `symbol` go from partial to complete. */
  ghost predicate LedgerStep(c: Config, s: State, after: State, symbol: string, base: nat)
    requires c.quantityStep > 0.0 && symbol in s.open && base <= |s.outcomes| <= |after.outcomes|
  {
    var o := s.open[symbol].order;
    TradeOk(c, SlotOf(s, symbol), ExitsOf(s.outcomes[base..], symbol, o.timestamp)) ==>
      if symbol in after.open
        then TradeOk(c, SlotOf(after, symbol), ExitsOf(after.outcomes[base..], symbol, o.timestamp))
      else ExitsComplete(c, o.quantity, ExitsOf(after.outcomes[base..], symbol, o.timestamp))
  }

  lemma ExitEffectTransitive(c: Config, a: State, b: State, d: State, symbol: string, timestamp: int, base: nat)
    requires c.quantityStep > 0.0
    requires ExitEffect(c, a, b, symbol, timestamp, base) && ExitEffect(c, b, d, symbol, timestamp, base)
    ensures ExitEffect(c, a, d, symbol, timestamp, base)
  {
    hide TradeOk, ExitsComplete, ExitsOf, KeysMatch;
    forall y | y != symbol ensures SlotOf(d, y) == SlotOf(a, y) {
      assert SlotOf(d, y) == SlotOf(b, y) && SlotOf(b, y) == SlotOf(a, y);
    }
    if symbol in a.open {
      forall i | |a.outcomes| <= i < |d.outcomes|
        ensures d.outcomes[i].symbol == symbol && d.outcomes[i].exitTime == timestamp
                && d.outcomes[i].entryTime == a.open[symbol].order.timestamp
      {
        if i < |b.outcomes| {
          assert d.outcomes[i] == b.outcomes[i];
        }
      }
    }
  }

  /** Closing whatever is left, in any phase. */
  lemma CloseTradeEffect(c: Config, s: State, symbol: string, timestamp: int, price: Level, base: nat)
    requires c.quantityStep > 0.0
    requires CloseTrade(c, s, symbol, timestamp, price).Ok?
    ensures var after := CloseTrade(c, s, symbol, timestamp, price).value;
            && ExitEffect(c, s, after, symbol, timestamp, base)
            && symbol in s.open && symbol !in after.open
  {
    hide ExitTrade, PartialSize, KeysMatch;
    ExitTradeExits(c, s, symbol, timestamp, price, None);
    var closed := CloseTrade(c, s, symbol, timestamp, price).value;
    if KeysMatch(s) {
      ExitedKeepsKeys(s, closed, symbol, timestamp, s.open[symbol].quantity);
    }
    if base <= |s.outcomes| {
      ExitsOfOneMore(s, closed, symbol, timestamp, s.open[symbol].quantity, base);
    }
  }

  lemma CloseEffect(c: Config, s: State, symbol: string, timestamp: int, price: Level, base: nat)
    requires c.quantityStep > 0.0
    requires CloseAndForget(c, s, symbol, timestamp, price).Ok?
    ensures var after := CloseAndForget(c, s, symbol, timestamp, price).value;
            && ExitEffect(c, s, after, symbol, timestamp, base)
            && symbol in s.open && symbol !in after.open
  {
    hide CloseTrade, PartialSize, ExitsComplete, ExitsOf;
    CloseTradeEffect(c, s, symbol, timestamp, price, base);
    var closed := CloseTrade(c, s, symbol, timestamp, price).value;
    var after := CloseAndForget(c, s, symbol, timestamp, price).value;
    forall y | y != symbol ensures SlotOf(after, y) == SlotOf(s, y) {
      assert SlotOf(closed, y) == SlotOf(s, y);
    }
  }

  lemma TakeTargetEffect(c: Config, s: State, row: Row, order: PaperOrder, levels: Levels, base: nat)
    requires c.quantityStep > 0.0
    requires OpenTrade(s, row.symbol) == Some(order)
    requires SlotOf(s, row.symbol).levels == Some(levels) && levels.target != Unreachable(order.direction)
    requires TakeTarget(c, s, row, order, levels).Ok?
    ensures ExitEffect(c, s, TakeTarget(c, s, row, order, levels).value, row.symbol, row.timestamp, base)
  {
    hide ExitTrade, PartialSize, CloseAndForget;
    var quantity := PartialSize(c, order.quantity);
    if quantity <= 0.0 || quantity >= order.quantity {
      CloseEffect(c, s, row.symbol, row.timestamp, levels.target, base);
    } else {
      ExitTradeExits(c, s, row.symbol, row.timestamp, levels.target, Some(quantity));
      var after := ExitTrade(c, s, row.symbol, row.timestamp, levels.target, Some(quantity)).value;
      if KeysMatch(s) {
        ExitedKeepsKeys(s, after, row.symbol, row.timestamp, quantity);
      }
      if base <= |s.outcomes| {
        ExitsOfOneMore(s, after, row.symbol, row.timestamp, quantity, base);
      }
    }
  }

  /** A change that leaves trades, levels, outcomes and journal alone. */
  lemma BookkeepingEffect(c: Config, s: State, after: State, symbol: string, timestamp: int, base: nat)
    requires c.quantityStep > 0.0
    requires after.open == s.open && after.openKeys == s.openKeys && after.levels == s.levels
             && after.outcomes == s.outcomes && after.journal == s.journal
    ensures ExitEffect(c, s, after, symbol, timestamp, base)
  {
    hide ExitsOf, PartialSize;
  }

  lemma MarkEffect(c: Config, s: State, symbol: string, timestamp: int, price: real, base: nat)
    requires c.quantityStep > 0.0
    requires Mark(s, symbol, timestamp, price).Ok?
    ensures var after := Mark(s, symbol, timestamp, price).value;
            && ExitEffect(c, s, after, symbol, timestamp, base)
            && OpenTrade(after, symbol) == OpenTrade(s, symbol)
            && after.levels == s.levels
  {
    hide ExitsOf, PartialSize, MoveValue;
  }

  lemma ManageEffect(c: Config, s: State, row: Row, base: nat)
    requires c.quantityStep > 0.0
    requires ManageOpenTrade(c, s, row).Ok?
    ensures ExitEffect(c, s, ManageOpenTrade(c, s, row).value, row.symbol, row.timestamp, base)
  {
    hide Mark, CloseAndForget, TakeTarget, ExitEffect, StopHit, PartialSize;
    var symbol := row.symbol;
    BookkeepingEffect(c, s, s, symbol, row.timestamp, base);
    if symbol in s.open {
      MarkEffect(c, s, symbol, row.timestamp, row.close, base);
      var marked := Mark(s, symbol, row.timestamp, row.close).value;
      if symbol in s.levels {
        var order, levels := OpenTrade(s, symbol).value, s.levels[symbol];
        if StopHit(order.direction, row, levels) {
          CloseEffect(c, marked, symbol, row.timestamp, At(levels.stop), base);
          ExitEffectTransitive(c, s, marked, ManageOpenTrade(c, s, row).value, symbol, row.timestamp, base);
        } else if TargetHit(order.direction, row, levels) {
          TakeTargetEffect(c, marked, row, order, levels, base);
          ExitEffectTransitive(c, s, marked, ManageOpenTrade(c, s, row).value, symbol, row.timestamp, base);
        }
      }
    }
  }

  /** The exits of one row: on a session-end row the symbol ends flat, and a
      trade that survives is younger than the holding limit. */
  lemma ExitPhaseEffect(x: Context, s: State, row: Row, base: nat)
    requires x.config.quantityStep > 0.0
    requires ExitPhase(x, s, row).Ok?
    ensures var after := ExitPhase(x, s, row).value;
            && ExitEffect(x.config, s, after, row.symbol, row.timestamp, base)
            && ((row.symbol, row.timestamp) in x.sessionEnds ==> row.symbol !in after.open)
            && (row.symbol in after.open ==>
               row.timestamp - after.open[row.symbol].order.timestamp < x.config.maxHolding)
  {
    hide ManageOpenTrade, CloseAndForget, ExitEffect;
    var c, symbol, t := x.config, row.symbol, row.timestamp;
    ManageEffect(c, s, row, base);
    var managed := ManageOpenTrade(c, s, row).value;
    var seen := managed.(marks := managed.marks[symbol := row.price]);
    BookkeepingEffect(c, managed, seen, symbol, t, base);
    ExitEffectTransitive(c, s, managed, seen, symbol, t, base);
    var aged := CloseExpired(c, seen, symbol, t, row.price).value;
    if symbol in seen.open && t - seen.open[symbol].order.timestamp >= c.maxHolding {
      CloseEffect(c, seen, symbol, t, At(row.price), base);
      ExitEffectTransitive(c, s, seen, aged, symbol, t, base);
    }
    if (symbol, t) in x.sessionEnds && symbol in aged.open {
      var after := ExitPhase(x, s, row).value;
      CloseEffect(c, aged, symbol, t, At(row.price), base);
      ExitEffectTransitive(c, s, aged, after, symbol, t, base);
    }
  }

  // -------------------------------------------------------------- row effects

  /** The order a row added to the journal, if any. */
  function NewOrder(s: State, after: State): Option<PaperOrder> {
    if |after.journal| == |s.journal| + 1 then Some(after.journal[|s.journal|]) else None
  }

  /** Everything one row can change: only its own symbol; an entry only when the
      row does not end the session; exits of the trade that was open. */
  ghost predicate RowEffect(x: Context, s: State, after: State, row: Row, base: nat)
    requires x.config.quantityStep > 0.0
  {
    var symbol, t := row.symbol, row.timestamp;
    && (KeysMatch(s) ==> KeysMatch(after))
    && (forall y :: y != symbol ==> SlotOf(after, y) == SlotOf(s, y))
    && s.outcomes <= after.outcomes
    && (forall i :: |s.outcomes| <= i < |after.outcomes| ==>
          && after.outcomes[i].symbol == symbol && after.outcomes[i].exitTime == t
          && symbol in s.open && after.outcomes[i].entryTime == s.open[symbol].order.timestamp)
    && after.journal == s.journal + (if NewOrder(s, after).Some? then [NewOrder(s, after).value] else [])
    && (match NewOrder(s, after)
        case None => symbol in after.open ==> symbol in s.open && after.open[symbol].order == s.open[symbol].order
        case Some(o) => && o.symbol == symbol && o.timestamp == t && o.quantity > 0.0
                        && (symbol, t) !in x.sessionEnds
                        && symbol in after.open && after.open[symbol].order == o
                           && after.open[symbol].quantity == o.quantity)
    && (symbol in after.open ==> t - after.open[symbol].order.timestamp < x.config.maxHolding)
    && ((symbol, t) in x.sessionEnds ==> symbol !in after.open)
    && (symbol in s.open && base <= |s.outcomes| ==> RowLedger(x.config, s, after, symbol, base))
  }

  ghost predicate RowLedger(c: Config, s: State, after: State, symbol: string, base: nat)
    requires c.quantityStep > 0.0 && symbol in s.open && base <= |s.outcomes| <= |after.outcomes|
  {
    var o := s.open[symbol].order;
    TradeOk(c, SlotOf(s, symbol), ExitsOf(s.outcomes[base..], symbol, o.timestamp)) ==>
      if NewOrder(s, after).None? && symbol in after.open
      then TradeOk(c, SlotOf(after, symbol), ExitsOf(after.outcomes[base..], symbol, o.timestamp))
      else ExitsComplete(c, o.quantity, ExitsOf(after.outcomes[base..], symbol, o.timestamp))
  }

  /** What an authorised decision does: nothing, or a flat symbol (in `flat`) and
      then a new trade. */
  lemma HandleEffect(c: Config, s: State, a: ExecutionAuthorization, price: real, assessment: Assessment, base: nat)
    returns (flat: State)
    requires c.quantityStep > 0.0
    requires HandleAuthorised(c, s, a, price, assessment).Ok?
    ensures var (after, order) := HandleAuthorised(c, s, a, price, assessment).value;
            if order.None? then after == s
            else
              var o := order.value;
              && o.symbol == a.symbol && o.timestamp == a.timestamp && o.quantity > 0.0
              && after.journal == s.journal + [o]
              && a.symbol in after.open && after.open[a.symbol].order == o
                 && after.open[a.symbol].quantity == o.quantity
              && ExitEffect(c, s, flat, a.symbol, a.timestamp, base) && a.symbol !in flat.open
              && after.outcomes == flat.outcomes && (KeysMatch(flat) ==> KeysMatch(after))
              && forall y :: y != a.symbol ==> SlotOf(after, y) == SlotOf(flat, y)
  {
    hide CloseTrade, FillPrice, TradeOk, ExitsComplete, ExitsOf;
    flat := s;
    BookkeepingEffect(c, s, s, a.symbol, a.timestamp, base);
    if a.symbol in s.open && s.open[a.symbol].order.direction != a.direction {
      CloseTradeEffect(c, s, a.symbol, a.timestamp, At(price), base);
      flat := CloseTrade(c, s, a.symbol, a.timestamp, At(price)).value;
    }
  }

  lemma DecisionEffect(x: Context, s: State, flat: State, row: Row, base: nat)
    requires x.config.quantityStep > 0.0 && x.config.maxHolding > 0
    requires ExitEffect(x.config, s, flat, row.symbol, row.timestamp, base)
    requires (row.symbol, row.timestamp) in x.sessionEnds ==> row.symbol !in flat.open
    requires row.symbol in flat.open ==> row.timestamp - flat.open[row.symbol].order.timestamp < x.config.maxHolding
    requires DecisionPhase(x, flat, row).Ok?
    ensures RowEffect(x, s, DecisionPhase(x, flat, row).value.0, row, base)
    ensures DecisionPhase(x, flat, row).value.1.row == row
    ensures DecisionPhase(x, flat, row).value.1.order == NewOrder(s, DecisionPhase(x, flat, row).value.0)
  {
    hide HandleAuthorised, PortfolioOf, CurrentEquity, TradeOk, ExitsComplete, ExitsOf, KeysMatch;
    var c := x.config;
    var entered := EnterDay(c, flat, row.timestamp);
    BookkeepingEffect(c, flat, entered, row.symbol, row.timestamp, base);
    ExitEffectTransitive(c, s, flat, entered, row.symbol, row.timestamp, base);
    var (after, step) := DecisionPhase(x, flat, row).value;
    var assessment := x.decide(row, PortfolioOf(c, entered, row.timestamp, row.symbol)).value;
    var a := Authorise(row, assessment, row.symbol + ":" + assessment.riskVersion).value;
    if (row.symbol, row.timestamp) !in x.sessionEnds && row.timestamp < x.finalTimestamp && a.status.Authorized? {
      var mid := HandleEffect(c, entered, a, row.price, assessment, base);
      if step.order.Some? {
        ExitEffectTransitive(c, s, entered, mid, row.symbol, row.timestamp, base);
        forall y | y != row.symbol ensures SlotOf(after, y) == SlotOf(s, y) {
          assert SlotOf(after, y) == SlotOf(mid, y) && SlotOf(mid, y) == SlotOf(s, y);
        }
      }
    }
  }

  /** Every row has a row effect. */
  lemma RowStepEffect(x: Context, s: State, row: Row, base: nat)
    requires x.config.quantityStep > 0.0 && x.config.maxHolding > 0
    requires RowStep(x, s, row).Ok?
    ensures RowEffect(x, s, RowStep(x, s, row).value.0, row, base)
    ensures RowStep(x, s, row).value.1.row == row
    ensures RowStep(x, s, row).value.1.order == NewOrder(s, RowStep(x, s, row).value.0)
  {
    hide ExitPhase, DecisionPhase, RowEffect, ExitEffect;
    ExitPhaseEffect(x, s, row, base);
    DecisionEffect(x, s, ExitPhase(x, s, row).value, row, base);
  }
}
