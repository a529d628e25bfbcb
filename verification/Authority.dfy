/** The hand-off from Risk to Execution: a RiskDecision becomes an
    ExecutionAuthorization, and an authorization becomes an order request.
    Nothing here talks to a broker. */
module Authority {
  import opened Common

  datatype Direction = Long | Short | NoTrade

  datatype RiskStatus = Approved | Rejected

  /** What Risk decided about one candidate. */
  datatype RiskDecisionData = RiskDecision(
    timestamp: int,
    symbol: string,
    status: RiskStatus,
    direction: Direction,
    riskVersion: string,
    approvedQuantity: real,
    approvedNotional: real)

  /** The constructor checks of RiskDecision; the symbol is stored normalised. */
  predicate RiskDecisionOk(d: RiskDecisionData) {
    && d.symbol != "" && Normalize(d.symbol) == d.symbol
    && d.approvedQuantity >= 0.0
    && d.approvedNotional >= 0.0
    && (d.status.Rejected? ==> d.approvedQuantity == 0.0 && d.approvedNotional == 0.0)
  }

  type RiskDecision = d: RiskDecisionData | RiskDecisionOk(d)
    witness RiskDecision(0, "X", Rejected, NoTrade, "", 0.0, 0.0)

  datatype AuthorizationStatus = Authorized | Blocked

  datatype ExecutionAuthorization = ExecutionAuthorization(
    timestamp: int,
    symbol: string,
    direction: Direction,
    status: AuthorizationStatus,
    riskVersion: string,
    approvedQuantity: real,
    approvedNotional: real,
    riskDecisionId: string,
    restrictions: seq<string>)

  datatype SafetyDecision = SafetyDecision(allowed: bool, block: string, reason: string)

  datatype AuthorityError =
    | NonPositiveApproval
    | QuantityMismatch
    | NotionalMismatch
    | NotAuthorized
    | BlankDecisionId
    | BadPurpose
    | NoTradeDirection
    | BadOrderRequest
    | FlatPosition
    | NonPositiveExit
    | ExitExceedsPosition
    | SymbolMismatch
    | DirectionMismatch

  /** `authorize_risk_decision`: execution receives exactly the size Risk chose. */
  function AuthorizeRiskDecision(
      d: RiskDecision,
      quantity: Option<real>,
      notional: Option<real>,
      riskDecisionId: string,
      restrictions: seq<string>)
    : Result<ExecutionAuthorization, AuthorityError>
  {
    if d.status.Approved? && d.approvedQuantity <= 0.0 then Err(NonPositiveApproval)
    else if d.status.Approved? && quantity.Some? && quantity.value != d.approvedQuantity then Err(QuantityMismatch)
    else if d.status.Approved? && notional.Some? && notional.value != d.approvedNotional then Err(NotionalMismatch)
    else
      Ok(ExecutionAuthorization(
           d.timestamp, d.symbol, d.direction,
           if d.status.Approved? then Authorized else Blocked,
           d.riskVersion,
           if d.status.Approved? then d.approvedQuantity else 0.0,
           if d.status.Approved? then d.approvedNotional else 0.0,
           riskDecisionId, restrictions))
  }

  /** `authorize_execution`: an independent safety veto on top of Risk. An
      AUTHORIZED result exists exactly when Risk approved a positive size, the
      caller repeated that size (or none), and Safety allowed it; any other
      result carries no exposure at all. */
  function AuthorizeExecution(
      d: RiskDecision,
      quantity: Option<real>,
      notional: Option<real>,
      riskDecisionId: string,
      restrictions: seq<string>,
      safety: SafetyDecision)
    : (r: Result<ExecutionAuthorization, AuthorityError>)
    ensures (r.Ok? && r.value.status.Authorized?)
            <==> (&& d.status.Approved? && d.approvedQuantity > 0.0
                  && (quantity.Some? ==> quantity.value == d.approvedQuantity)
                  && (notional.Some? ==> notional.value == d.approvedNotional)
                  && safety.allowed)
    ensures r.Err? <==>
            && d.status.Approved?
            && (d.approvedQuantity <= 0.0 || (quantity.Some? && quantity.value != d.approvedQuantity)
                || (notional.Some? && notional.value != d.approvedNotional))
    ensures r.Ok? ==>
              && r.value.symbol == d.symbol && r.value.direction == d.direction && r.value.timestamp == d.timestamp
              && r.value.riskVersion == d.riskVersion && r.value.riskDecisionId == riskDecisionId
              && restrictions <= r.value.restrictions && (r.value.restrictions == restrictions <==> safety.allowed)
    ensures r.Ok? && r.value.status.Authorized?
            ==> r.value.approvedQuantity == d.approvedQuantity && r.value.approvedNotional == d.approvedNotional
    ensures r.Ok? && r.value.status.Blocked?
            ==> r.value.approvedQuantity == 0.0 && r.value.approvedNotional == 0.0
  {
    match AuthorizeRiskDecision(d, quantity, notional, riskDecisionId, restrictions)
    case Err(e) => Err(e)
    case Ok(a) =>
      if safety.allowed then Ok(a)
      else Ok(a.(status := Blocked, approvedQuantity := 0.0, approvedNotional := 0.0,
                 restrictions := a.restrictions + ["safety_block:" + safety.block]))
  }

  datatype OrderSide = Buy | Sell

  datatype OrderType = Market | Limit

  datatype OrderRequest = OrderRequest(
    clientOrderId: string,
    decisionId: string,
    symbol: string,
    side: OrderSide,
    quantity: real,
    orderType: OrderType,
    limitPrice: Option<real>,
    purpose: string,
    createdAt: int,
    authorization: Option<ExecutionAuthorization>)

  /** The constructor checks of OrderRequest; the symbol is stored normalised. */
  predicate OrderRequestOk(r: OrderRequest) {
    && !Blank(r.clientOrderId)
    && r.symbol != ""
    && r.quantity > 0.0
    && (r.orderType.Limit? ==> r.limitPrice.Some? && r.limitPrice.value > 0.0)
    && (r.orderType.Market? ==> r.limitPrice.None?)
    && r.purpose in {"ENTRY", "EXIT"}
  }

  function SideFor(direction: Direction): Result<OrderSide, AuthorityError> {
    match direction
    case Long => Ok(Buy)
    case Short => Ok(Sell)
    case NoTrade => Err(NoTradeDirection)
  }

  function DirectionText(direction: Direction): string {
    match direction
    case Long => "LONG"
    case Short => "SHORT"
    case NoTrade => "NO_TRADE"
  }

  /** The text whose digest names the order. */
  function OrderIdentity(a: ExecutionAuthorization, decisionId: string, purpose: string): string {
    decisionId + "|" + a.symbol + "|" + DirectionText(a.direction) + "|" + a.riskVersion + "|" + purpose
  }

  /** How much text stands before the first separator, and after the last. */
  function BeforeBar(s: string): nat {
    if s == "" || s[0] == '|' then 0 else 1 + BeforeBar(s[1..])
  }

  function AfterBar(s: string): nat {
    if s == "" || s[|s| - 1] == '|' then 0 else 1 + AfterBar(s[..|s| - 1])
  }

  lemma {:induction false} BeforeBarOf(a: string, x: string)
    requires '|' !in a
    ensures BeforeBar(a + "|" + x) == |a|
  {
    if a != "" {
      BeforeBarOf(a[1..], x);
      assert (a + "|" + x)[1..] == a[1..] + "|" + x;
    }
  }

  lemma {:induction false} AfterBarOf(a: string, x: string)
    requires '|' !in x
    ensures AfterBar(a + "|" + x) == |x|
  {
    var all := a + "|" + x;
    if x != "" {
      AfterBarOf(a, x[..|x| - 1]);
      assert all[..|all| - 1] == a + "|" + x[..|x| - 1];
    }
  }

  lemma SplitAtBar(a: string, x: string, b: string, y: string)
    requires a + "|" + x == b + "|" + y
    requires ('|' !in a && '|' !in b) || ('|' !in x && '|' !in y)
    ensures a == b && x == y
  {
    var left, right := a + "|" + x, b + "|" + y;
    if '|' !in a && '|' !in b {
      BeforeBarOf(a, x);
      BeforeBarOf(b, y);
    } else {
      AfterBarOf(a, x);
      AfterBarOf(b, y);
    }
    assert |a| == |b|;
    assert a == left[..|a|] && b == right[..|b|];
    assert x == left[|a| + 1..] && y == right[|b| + 1..];
  }

  lemma DirectionTextsDiffer(a: Direction, b: Direction)
    ensures '|' !in DirectionText(a)
    ensures DirectionText(a) == DirectionText(b) ==> a == b
  {
  }

  lemma IdentityParts(a: ExecutionAuthorization, decisionId: string, purpose: string)
    ensures OrderIdentity(a, decisionId, purpose)
            == decisionId + "|" + (a.symbol + "|"
              + (DirectionText(a.direction) + "|" + (a.riskVersion + "|" + purpose)))
  {
    hide DirectionText;
  }

  /** Two orders get the same identity text exactly when all five parts are the
      same, as long as no decision id and no symbol holds the separator. */
  lemma IdentitiesCoincideExactlyWhen(
      a: ExecutionAuthorization, decisionA: string, purposeA: string,
      b: ExecutionAuthorization, decisionB: string, purposeB: string)
    requires '|' !in decisionA && '|' !in a.symbol && '|' !in decisionB && '|' !in b.symbol
    requires purposeA in {"ENTRY", "EXIT"} && purposeB in {"ENTRY", "EXIT"}
    ensures OrderIdentity(a, decisionA, purposeA) == OrderIdentity(b, decisionB, purposeB)
            <==> decisionA == decisionB && a.symbol == b.symbol && a.direction == b.direction
                 && a.riskVersion == b.riskVersion && purposeA == purposeB
  {
    assert '|' !in purposeA && '|' !in purposeB;
    IdentityParts(a, decisionA, purposeA);
    IdentityParts(b, decisionB, purposeB);
    DirectionTextsDiffer(a.direction, b.direction);
    DirectionTextsDiffer(b.direction, a.direction);
    hide OrderIdentity, DirectionText;
    if OrderIdentity(a, decisionA, purposeA) == OrderIdentity(b, decisionB, purposeB) {
      var da, db := DirectionText(a.direction), DirectionText(b.direction);
      var endA, endB := a.riskVersion + "|" + purposeA, b.riskVersion + "|" + purposeB;
      SplitAtBar(decisionA, a.symbol + "|" + (da + "|" + endA), decisionB, b.symbol + "|" + (db + "|" + endB));
      SplitAtBar(a.symbol, da + "|" + endA, b.symbol, db + "|" + endB);
      SplitAtBar(da, endA, db, endB);
      SplitAtBar(a.riskVersion, purposeA, b.riskVersion, purposeB);
    }
  }

  /** The separator is not escaped: every decision id that holds it, and every
      symbol that holds it, shares its identity with another pair. */
  lemma IdentitiesCollide(a: ExecutionAuthorization, x: string, y: string, z: string, purpose: string)
    ensures OrderIdentity(a.(symbol := z), x + "|" + y, purpose) == OrderIdentity(a.(symbol := y + "|" + z), x, purpose)
    ensures x + "|" + y != x
  {
    IdentityParts(a.(symbol := z), x + "|" + y, purpose);
    IdentityParts(a.(symbol := y + "|" + z), x, purpose);
    hide OrderIdentity, DirectionText;
    var tail := DirectionText(a.direction) + "|" + (a.riskVersion + "|" + purpose);
    assert (x + "|" + y) + "|" + (z + "|" + tail) == x + "|" + ((y + "|" + z) + "|" + tail);
    assert |x + "|" + y| > |x|;
  }

  /** `from_authorization`; `digest` stands for the truncated SHA-256 hex text. */
  function FromAuthorization(
      digest: string -> string,
      a: ExecutionAuthorization,
      decisionId: string,
      orderType: OrderType,
      limitPrice: Option<real>,
      purpose: string,
      createdAt: int)
    : Result<OrderRequest, AuthorityError>
  {
    if !a.status.Authorized? then Err(NotAuthorized)
    else if a.approvedQuantity <= 0.0 then Err(NonPositiveApproval)
    else if Blank(decisionId) then Err(BlankDecisionId)
    else if purpose !in {"ENTRY", "EXIT"} then Err(BadPurpose)
    else
      match SideFor(a.direction)
      case Err(e) => Err(e)
      case Ok(side) =>
        var r := OrderRequest("SB-" + digest(OrderIdentity(a, decisionId, purpose)), decisionId,
                              Normalize(a.symbol), side, a.approvedQuantity, orderType, limitPrice,
                              purpose, createdAt, Some(a));
        if OrderRequestOk(r) then Ok(r) else Err(BadOrderRequest)
  }

  /** An observed position; positive is long, negative is short. */
  datatype PositionSnapshot = PositionSnapshot(symbol: string, quantity: real, averagePrice: real)

  /** The signed change of a position when `fill` units of an order trade. */
  function SignedFill(side: OrderSide, fill: real): real {
    if side.Buy? then fill else -fill
  }

  /** `from_exit_authorization`: an exit may only close observed exposure. Any
      fill between nothing and the whole order shrinks the position by exactly
      that fill and never flips its sign. */
  function FromExitAuthorization(
      digest: string -> string,
      a: ExecutionAuthorization,
      decisionId: string,
      position: PositionSnapshot,
      quantity: Option<real>,
      orderType: OrderType,
      limitPrice: Option<real>,
      createdAt: int)
    : (r: Result<OrderRequest, AuthorityError>)
    ensures r.Ok? ==> r.value.symbol == position.symbol && r.value.purpose == "EXIT"
    ensures r.Ok? ==> forall fill :: 0.0 <= fill <= r.value.quantity ==>
                                       Abs(position.quantity + SignedFill(r.value.side, fill))
                                         == Abs(position.quantity) - fill
    ensures r.Ok? ==> forall fill :: 0.0 <= fill <= r.value.quantity ==>
                                       && (position.quantity > 0.0 ==>
                                          position.quantity + SignedFill(r.value.side, fill) >= 0.0)
                                       && (position.quantity < 0.0 ==>
                                          position.quantity + SignedFill(r.value.side, fill) <= 0.0)
  {
    var requested := if quantity.Some? then quantity.value else Abs(position.quantity);
    if position.quantity == 0.0 then Err(FlatPosition)
    else if requested <= 0.0 then Err(NonPositiveExit)
    else if requested > Abs(position.quantity) then Err(ExitExceedsPosition)
    else if Normalize(a.symbol) != position.symbol then Err(SymbolMismatch)
    else if a.direction != (if position.quantity > 0.0 then Short else Long) then Err(DirectionMismatch)
    else if a.approvedQuantity != requested then Err(QuantityMismatch)
    else FromAuthorization(digest, a, decisionId, orderType, limitPrice, "EXIT", createdAt)
  }

  /** The price an order type needs, and no other. */
  ghost predicate PriceFits(orderType: OrderType, limitPrice: Option<real>) {
    match (orderType, limitPrice)
    case (Market, None) => true
    case (Limit, Some(price)) => price > 0.0
    case _ => false
  }

  lemma PrefixIsNotBlank(text: string)
    ensures !Blank("SB-" + text)
  {
    var id := "SB-" + text;
    assert id[0] == 'S' && TrimLeft(id) == id;
    TrimKeepsHead(id);
  }

  lemma {:induction false} TrimKeepsHead(s: string)
    requires s != "" && !IsSpace(s[0])
    ensures TrimRight(s) != ""
  {
    if IsSpace(s[|s| - 1]) {
      TrimKeepsHead(s[..|s| - 1]);
    }
  }

  /** An order is built exactly from an AUTHORIZED, positive, directed
      authorization with a named decision; it is of the authorised size and side,
      for the normalised symbol. */
  lemma OrdersAreBuiltExactlyWhen(
      digest: string -> string, a: ExecutionAuthorization, decisionId: string, orderType: OrderType,
      limitPrice: Option<real>, purpose: string, createdAt: int)
    ensures var built := FromAuthorization(digest, a, decisionId, orderType, limitPrice, purpose, createdAt);
            && (built.Ok? <==>
                  && a.status == Authorized && a.approvedQuantity > 0.0 && a.direction != NoTrade
                  && Strip(decisionId) != "" && Normalize(a.symbol) != "" && (purpose == "ENTRY" || purpose == "EXIT")
                  && PriceFits(orderType, limitPrice))
            && (built.Ok? ==>
                  var o := built.value;
                  && o.quantity == a.approvedQuantity && o.side == (if a.direction == Long then Buy else Sell)
                  && o.symbol == Normalize(a.symbol) && o.decisionId == decisionId && o.purpose == purpose
                  && o.orderType == orderType && o.limitPrice == limitPrice && o.createdAt == createdAt
                  && o.authorization == Some(a))
  {
    PrefixIsNotBlank(digest(OrderIdentity(a, decisionId, purpose)));
    hide Strip, Upper, OrderIdentity;
  }

  /** An exit order is built exactly when there is a position, the authorization
      goes against it, in its symbol, and its size is the one asked for, at most
      the whole position. */
  lemma ExitsAreBuiltExactlyWhen(
      digest: string -> string, a: ExecutionAuthorization, decisionId: string, position: PositionSnapshot,
      quantity: Option<real>, orderType: OrderType, limitPrice: Option<real>, createdAt: int)
    ensures var asked := if quantity.Some? then quantity.value else Abs(position.quantity);
            FromExitAuthorization(digest, a, decisionId, position, quantity, orderType, limitPrice, createdAt).Ok? <==>
            && 0.0 < asked <= Abs(position.quantity) && a.approvedQuantity == asked && a.status == Authorized
            && Normalize(a.symbol) == position.symbol != "" && Strip(decisionId) != ""
               && PriceFits(orderType, limitPrice)
            && ((position.quantity > 0.0 && a.direction == Short) || (position.quantity < 0.0 && a.direction == Long))
  {
    OrdersAreBuiltExactlyWhen(digest, a, decisionId, orderType, limitPrice, "EXIT", createdAt);
    hide FromAuthorization, Strip, Normalize;
  }
}
