/** Accounts of one market as records: the market with its per-asset ledgers, the claim
    mints and vaults the token program keeps for it, participant wallets and orders. */
module State {
  import opened Rules
  import opened Sums
  import opened Conversion

  const MAX_BASES := 3
  const COLLATERALS := 4
  const ASSETS := 12
  const QUOTE := 0
  const MAX_MAKERS := 8
  const RECENT := 16
  const RECENT_SLOTS := 32

  datatype ProtocolError =
    | InvalidAddress | InvalidTerms | Unauthorized | InvalidState | InvalidAsset | Arithmetic
    | InsufficientFunds | Insolvent | InvalidAccount | StalePlan | InvalidOrder | FeeCap
    | TransferSlippage | ClaimBacking | TokenDelta | FractionalRedemption | LegHalted | IssuerPaused

  datatype Outcome = Done | Fail(error: ProtocolError) {
    predicate IsFailure() {
      Fail?
    }

    function PropagateFailure(): Outcome
      requires Fail?
    {
      this
    }
  }

  function Require(condition: bool, error: ProtocolError): (o: Outcome)
    ensures o.Done? <==> condition
  {
    if condition then Done else Fail(error)
  }

  /** How a failed rule surfaces from a handler. */
  function Checked<T>(r: Rules.Result<T>): (o: Outcome)
    ensures o.Done? <==> r.Ok?
  {
    match r
    case Ok(_) => Done
    case Err(FractionalRedemption) => Fail(ProtocolError.FractionalRedemption)
    case Err(StaleQuote) => Fail(StalePlan)
    case Err(_) => Fail(ProtocolError.InvalidTerms)
  }

  // ------------------------------------------------------------ identities

  datatype Pubkey = Pubkey(id: nat)

  const NOBODY := Pubkey(0)

  type byte = b: int | 0 <= b < 0x100
  type Salt = s: seq<byte> | |s| == 32
    witness [0, 0, 0, 0, 0, 0, 0, 0, 0, 0, 0, 0, 0, 0, 0, 0, 0, 0, 0, 0, 0, 0, 0, 0, 0, 0, 0, 0, 0, 0, 0, 0]

  /** "PRBLOv02" */
  const NONCE_BOUND_SALT: seq<byte> := [0x50, 0x52, 0x42, 0x4C, 0x4F, 0x76, 0x30, 0x32]

  function LittleEndian(bytes: seq<byte>): (n: nat)
    requires |bytes| == 8
    ensures n <= U64_MAX
  {
    var b := (i: nat) requires i < 8 => bytes[i] as int;
    b(0) + 0x100 * b(1) + 0x1_0000 * b(2) + 0x100_0000 * b(3)
    + 0x1_0000_0000 * b(4) + 0x100_0000_0000 * b(5)
    + 0x1_0000_0000_0000 * b(6) + 0x100_0000_0000_0000 * b(7)
  }

  /** The nonce a salt binds: part of the order's identity, so that a retired order can
      never be recreated under a newer nonce. */
  function BoundNonce(salt: Salt): Option<u64> {
    if salt[..8] == NONCE_BOUND_SALT then Some(LittleEndian(salt[8..16])) else None
  }

  // ---------------------------------------------------------------- assets

  /** Per collateral c: the underlying is asset 3c, its YES claim 3c + 1, its NO claim 3c + 2. */
  function Underlying(collateral: nat): nat {
    3 * collateral
  }

  function Claim(collateral: nat, branch: nat): nat {
    3 * collateral + 1 + branch
  }

  function CollateralOf(asset: nat): nat {
    asset / 3
  }

  predicate IsClaim(asset: nat) {
    asset % 3 != 0
  }

  type Amounts = s: seq<int> | |s| == ASSETS witness [0, 0, 0, 0, 0, 0, 0, 0, 0, 0, 0, 0]
  type PerCollateral = s: seq<int> | |s| == COLLATERALS witness [0, 0, 0, 0]

  const NO_AMOUNTS: Amounts := [0, 0, 0, 0, 0, 0, 0, 0, 0, 0, 0, 0]

  // --------------------------------------------------------------- records

  datatype Terms = Terms(tradingOpen: int, tradingCutoff: int, shareDecimals: nat, caps: Caps)

  datatype BaseLeg = BaseLeg(scale: u64, multiplier: u64, active: bool)

  type Legs = s: seq<BaseLeg> | |s| == MAX_BASES
    witness [BaseLeg(0, 0, false), BaseLeg(0, 0, false), BaseLeg(0, 0, false)]
  type BaseCount = n: int | 0 <= n <= MAX_BASES
  type Mints = s: seq<Pubkey> | |s| == COLLATERALS witness [NOBODY, NOBODY, NOBODY, NOBODY]
  type Sequences = s: seq<u64> | |s| == 2 witness [0, 0]

  const EMPTY_RING: seq<Placement> := seq(32, _ => Placement(0, SIDE_NONE))
  type Ring = s: seq<Placement> | |s| == RECENT_SLOTS witness EMPTY_RING

  /** The per-asset ledgers of a market account count what it owes: credits available to
      wallets, escrow behind open orders, fees, and the backing of outstanding claims. */
  datatype Ledgers = Ledgers(credits: Amounts, escrow: Amounts, backing: PerCollateral, fees: Amounts,
                             openNotional: int)
  {
    function Liability(asset: nat): int
      requires asset < ASSETS
    {
      credits[asset] + escrow[asset] + (if IsClaim(asset) then fees[asset] else backing[CollateralOf(asset)])
    }
  }

  const EMPTY_LEDGERS := Ledgers(NO_AMOUNTS, NO_AMOUNTS, [0, 0, 0, 0], NO_AMOUNTS, 0)

  /** The rest of a market account: terms, listed legs, lifecycle and placement ring. */
  datatype Market = Market(
    terms: Terms, bases: BaseCount, legs: Legs, mints: Mints, initialized: set<nat>, state: nat,
    sequence: Sequences, recent: Ring, payouts: (nat, nat))
  {
    predicate Listed(collateral: nat) {
      collateral <= bases
    }

    predicate Ready(collateral: nat) {
      Listed(collateral) && {Underlying(collateral), Claim(collateral, 0), Claim(collateral, 1)} <= initialized
    }

    predicate Active(collateral: nat) {
      1 <= collateral <= MAX_BASES && Listed(collateral) && legs[collateral - 1].active
    }

    predicate Tradable(collateral: nat) {
      Active(collateral) && Ready(collateral)
    }

    /** Every listed collateral is ready and some base leg is active. */
    predicate Openable() {
      && Ready(QUOTE)
      && (forall c | 1 <= c <= bases :: Ready(c))
      && (exists c | 1 <= c <= bases :: Active(c))
    }

    /** None while the outcome is open, the payouts once it is known. */
    function Payouts(): Option<(nat, nat)> {
      if state == REDEEMABLE || state == ARCHIVED then Some(payouts) else None
    }
  }

  datatype Wallet = Wallet(balances: Amounts, openNotional: int)

  /** Exactly one listed base leg, as delivered by a sell order. */
  function SingleBase(bases: set<nat>): (r: Option<nat>)
    ensures r.Some? ==> bases == {r.value} && 1 <= r.value <= MAX_BASES
    ensures r.None? ==> forall c | 1 <= c <= MAX_BASES :: bases != {c}
  {
    if bases == {1} then Some(1) else if bases == {2} then Some(2) else if bases == {3} then Some(3) else None
  }

  const NO_COLLATERAL := U64_MAX

  /** The source's bitmask of base legs is the set of their collaterals here. */
  datatype OrderTerms = OrderTerms(
    recipient: Pubkey, salt: Salt, quantity: u64, price: u128, expiry: int, nonce: u64, maxFeeBps: u16,
    branch: nat, side: nat, funding: nat, tif: nat, bases: set<nat>)
  {
    /** Buyers fund the quote, sellers the one leg they deliver. */
    function Collateral(): nat {
      if side == 0 then QUOTE else
      match SingleBase(bases)
      case Some(c) => c
      case None => NO_COLLATERAL
    }

    function Asset(): nat {
      if funding == 0 then Underlying(Collateral()) else Claim(Collateral(), branch)
    }

    predicate Accepts(collateral: nat) {
      1 <= collateral <= MAX_BASES && collateral in bases
    }
  }

  const LIVE := 1
  const FILLED := 2
  const CANCELLED := 3

  datatype Order = Order(terms: OrderTerms, remaining: int, filled: int, reserved: int,
                         openNotional: int, sequence: int, feeCarry: int, status: nat)

  /** An order account's address is derived from its market, owner and salt. */
  datatype OrderKey = OrderKey(owner: Pubkey, salt: Salt)

  datatype ClaimTokens = ClaimTokens(supply: int, vault: int)
  type Tokens = s: seq<ClaimTokens> | |s| == ASSETS
    witness seq(12, _ => ClaimTokens(0, 0))

  datatype Book = Book(market: Market, ledgers: Ledgers, tokens: Tokens,
                        wallets: map<Pubkey, Wallet>, orders: map<OrderKey, Order>)

  // ------------------------------------------------- elementary ledger moves

  /** Available credit of one owner in one asset grows by amount (or shrinks, if negative). */
  function Post(b: Book, owner: Pubkey, asset: nat, amount: int): (r: Book)
    requires owner in b.wallets && asset < ASSETS
    ensures r.wallets.Keys == b.wallets.Keys && r.orders == b.orders
    ensures r.market == b.market && r.tokens == b.tokens
    ensures r.ledgers.backing == b.ledgers.backing && r.ledgers.fees == b.ledgers.fees
  {
    var w := b.wallets[owner];
    var l := b.ledgers;
    b.(wallets := b.wallets[owner := w.(balances := w.balances[asset := w.balances[asset] + amount])],
       ledgers := l.(credits := l.credits[asset := l.credits[asset] + amount]))
  }

  /** Records an order image; escrow and both exposure counters follow its reservation and
      notional, whatever they were before. */
  function SetOrder(b: Book, key: OrderKey, order: Order): (r: Book)
    requires key.owner in b.wallets && order.terms.Asset() < ASSETS
    requires key in b.orders ==> b.orders[key].terms == order.terms
    ensures r.wallets.Keys == b.wallets.Keys && r.orders == b.orders[key := order]
    ensures r.market == b.market && r.tokens == b.tokens
    ensures r.ledgers.backing == b.ledgers.backing && r.ledgers.fees == b.ledgers.fees
  {
    var reserved := order.reserved - (if key in b.orders then b.orders[key].reserved else 0);
    var notional := order.openNotional - (if key in b.orders then b.orders[key].openNotional else 0);
    var asset := order.terms.Asset();
    var w := b.wallets[key.owner];
    var l := b.ledgers;
    b.(orders := b.orders[key := order],
       wallets := b.wallets[key.owner := w.(openNotional := w.openNotional + notional)],
       ledgers := l.(escrow := l.escrow[asset := l.escrow[asset] + reserved],
                     openNotional := l.openNotional + notional))
  }

  /** Closes the account of an order that reserves nothing. */
  function RemoveOrder(b: Book, key: OrderKey): Book {
    b.(orders := b.orders - {key})
  }

  // ---------------------------------------------------- balanced ledgers

  ghost function BalanceOf(asset: nat): (Pubkey, Wallet) -> int {
    (owner, w: Wallet) => if asset < ASSETS then w.balances[asset] else 0
  }

  ghost function WalletExposure(): (Pubkey, Wallet) -> int {
    (owner, w: Wallet) => w.openNotional
  }

  ghost function ReservedIn(asset: nat): (OrderKey, Order) -> int {
    (key, o: Order) => if o.terms.Asset() == asset then o.reserved else 0
  }

  ghost function ExposureOf(owner: Pubkey): (OrderKey, Order) -> int {
    (key: OrderKey, o: Order) => if key.owner == owner then o.openNotional else 0
  }

  /** Every counter of the market is the sum of the records it summarizes. */
  ghost predicate Balanced(b: Book) {
    && (forall a | 0 <= a < ASSETS :: b.ledgers.credits[a] == SumBy(b.wallets, BalanceOf(a)))
    && (forall a | 0 <= a < ASSETS :: b.ledgers.escrow[a] == SumBy(b.orders, ReservedIn(a)))
    && (forall o | o in b.wallets :: b.wallets[o].openNotional == SumBy(b.orders, ExposureOf(o)))
    && b.ledgers.openNotional == SumBy(b.wallets, WalletExposure())
    && (forall k | k in b.orders :: k.owner in b.wallets && b.orders[k].terms.Asset() < ASSETS)
  }

  lemma PostKeepsBalance(b: Book, owner: Pubkey, asset: nat, amount: int)
    requires Balanced(b) && owner in b.wallets && asset < ASSETS
    ensures Balanced(Post(b, owner, asset, amount))
  {
    var r := Post(b, owner, asset, amount);
    forall a | 0 <= a < ASSETS
      ensures r.ledgers.credits[a] == SumBy(r.wallets, BalanceOf(a))
    {
      SumUpdate(b.wallets, owner, r.wallets[owner], BalanceOf(a));
    }
    SumUpdate(b.wallets, owner, r.wallets[owner], WalletExposure());
  }

  lemma SetOrderKeepsBalance(b: Book, key: OrderKey, order: Order)
    requires Balanced(b) && key.owner in b.wallets && order.terms.Asset() < ASSETS
    requires key in b.orders ==> b.orders[key].terms == order.terms
    ensures Balanced(SetOrder(b, key, order))
  {
    var r := SetOrder(b, key, order);
    forall a | 0 <= a < ASSETS
      ensures r.ledgers.credits[a] == SumBy(r.wallets, BalanceOf(a))
    {
      SumUpdate(b.wallets, key.owner, r.wallets[key.owner], BalanceOf(a));
    }
    forall a | 0 <= a < ASSETS
      ensures r.ledgers.escrow[a] == SumBy(r.orders, ReservedIn(a))
    {
      SetOrderMovesEscrow(b, key, order, a);
    }
    forall o | o in r.wallets
      ensures r.wallets[o].openNotional == SumBy(r.orders, ExposureOf(o))
    {
      SetOrderMovesExposure(b, key, order, o);
    }
    SumUpdate(b.wallets, key.owner, r.wallets[key.owner], WalletExposure());
  }

  lemma SetOrderMovesEscrow(b: Book, key: OrderKey, order: Order, asset: nat)
    requires key.owner in b.wallets && order.terms.Asset() < ASSETS && asset < ASSETS
    requires key in b.orders ==> b.orders[key].terms == order.terms
    requires b.ledgers.escrow[asset] == SumBy(b.orders, ReservedIn(asset))
    ensures SetOrder(b, key, order).ledgers.escrow[asset] == SumBy(SetOrder(b, key, order).orders, ReservedIn(asset))
  {
    SumUpdate(b.orders, key, order, ReservedIn(asset));
  }

  lemma SetOrderMovesExposure(b: Book, key: OrderKey, order: Order, owner: Pubkey)
    requires key.owner in b.wallets && order.terms.Asset() < ASSETS && owner in b.wallets
    requires key in b.orders ==> b.orders[key].terms == order.terms
    requires b.wallets[owner].openNotional == SumBy(b.orders, ExposureOf(owner))
    ensures var r := SetOrder(b, key, order);
            r.wallets[owner].openNotional == SumBy(r.orders, ExposureOf(owner))
  {
    SumUpdate(b.orders, key, order, ExposureOf(owner));
  }

  lemma RemoveOrderKeepsBalance(b: Book, key: OrderKey)
    requires Balanced(b)
    requires key in b.orders ==> b.orders[key].reserved == 0 && b.orders[key].openNotional == 0
    ensures Balanced(RemoveOrder(b, key))
  {
    if key in b.orders {
      var r := RemoveOrder(b, key);
      forall a | 0 <= a < ASSETS
        ensures r.ledgers.escrow[a] == SumBy(r.orders, ReservedIn(a))
      {
        SumRemove(b.orders, key, ReservedIn(a));
      }
      forall o | o in r.wallets
        ensures r.wallets[o].openNotional == SumBy(r.orders, ExposureOf(o))
      {
        SumRemove(b.orders, key, ExposureOf(o));
      }
    } else {
      assert b.orders - {key} == b.orders;
    }
  }
}
