/** The deterministic raw-unit rules of crates/protocol-core: amounts are u64, prices
    u128, and every checked operation of the source is a checked operation here. */
module Rules {
  import opened Exact

  const U16_MAX := 0xFFFF
  const U64_MAX := 0xFFFF_FFFF_FFFF_FFFF
  const U128_MAX := 0xFFFF_FFFF_FFFF_FFFF_FFFF_FFFF_FFFF_FFFF
  type u16 = x: int | 0 <= x <= U16_MAX
  type u64 = x: int | 0 <= x <= U64_MAX
  type u128 = x: int | 0 <= x <= U128_MAX

  const WAD := 1_000_000_000_000_000_000
  const BPS := 10_000
  const MAX_FEE_BPS := 1_000

  datatype Error =
    | Overflow | InvalidTerms | InvalidFee | InvalidState | Expired | InvalidNonce
    | CapExceeded | InvalidFill | StaleQuote | FractionalRedemption

  datatype Result<+T> = Ok(value: T) | Err(error: Error) {
    predicate IsFailure() {
      Err?
    }

    function PropagateFailure<U>(): Result<U>
      requires Err?
    {
      Err(error)
    }

    function Extract(): T
      requires Ok?
    {
      value
    }
  }

  function Need(condition: bool, error: Error): Result<()> {
    if condition then Ok(()) else Err(error)
  }

  // ---------------------------------------------------------------- quoting

  /** quantity * price / 10^18, rounded down and rounded up: what quoting means. */
  function Floor(quantity: nat, price: nat): nat {
    quantity * price / WAD
  }

  function Ceil(quantity: nat, price: nat): nat {
    CeilDiv(quantity * price, WAD)
  }

  lemma PriceSplit(quantity: nat, price: nat)
    ensures quantity * price == quantity * (price / WAD) * WAD + quantity * (price % WAD)
    ensures Floor(quantity, price) == quantity * (price / WAD) + quantity * (price % WAD) / WAD
    ensures (quantity * price) % WAD == (quantity * (price % WAD)) % WAD
  {
    var h, l := price / WAD, price % WAD;
    assert price == h * WAD + l;
    assert quantity * price == quantity * h * WAD + quantity * l;
    FloorAddMultiple(quantity * h, quantity * l, WAD);
  }

  /** The price is decomposed before the multiplication, so that no product of a 64-bit
      and a 128-bit number is ever formed. The only intermediate that can leave u128 is
      the integer part, and then the amount leaves u64 as well. */
  function QuoteDown(quantity: u64, price: u128): (r: Result<u64>)
    ensures r.Ok? <==> Floor(quantity, price) <= U64_MAX
    ensures r.Ok? ==> r.value == Floor(quantity, price)
    ensures r.Err? ==> r.error == Overflow
  {
    PriceSplit(quantity, price);
    var integer := quantity * (price / WAD);
    if integer > U128_MAX then Err(Overflow) else
    var fraction := quantity * (price % WAD);
    assert 0 <= fraction <= U128_MAX by {
      MulBound(quantity, U64_MAX, price % WAD, WAD);
    }
    var amount := integer + fraction / WAD;
    if amount > U128_MAX then Err(Overflow) else
    if amount > U64_MAX then Err(Overflow) else Ok(amount)
  }

  function QuoteUp(quantity: u64, price: u128): (r: Result<u64>)
    ensures r.Ok? <==> Ceil(quantity, price) <= U64_MAX
    ensures r.Ok? ==> r.value == Ceil(quantity, price)
    ensures r.Err? ==> r.error == Overflow
  {
    PriceSplit(quantity, price);
    FloorBelowCeil(quantity * price, WAD);
    var down :- QuoteDown(quantity, price);
    var product := quantity * (price % WAD);
    assert 0 <= product <= U128_MAX by {
      MulBound(quantity, U64_MAX, price % WAD, WAD);
    }
    var up := down + (if product % WAD != 0 then 1 else 0);
    if up > U64_MAX then Err(Overflow) else Ok(up)
  }

  lemma QuoteMono(q: nat, r: nat, p: nat, s: nat)
    requires q <= r && p <= s
    ensures Floor(q, p) <= Floor(r, s)
    ensures Ceil(q, p) <= Ceil(r, s)
    ensures Floor(q, p) <= Ceil(q, p)
  {
    MulBound(q, r, p, s);
    FloorMono(q * p, r * s, WAD);
    CeilMono(q * p, r * s, WAD);
    FloorBelowCeil(q * p, WAD);
  }

  /** What a rounded-up reservation releases for a part pays that part at any better price. */
  lemma ReservationCoversFill(part: nat, rest: nat, limit: nat, price: nat)
    requires price <= limit
    ensures Ceil(part + rest, limit) >= Ceil(rest, limit) + Floor(part, price)
  {
    assert (part + rest) * limit == part * limit + rest * limit;
    CeilReleasesFloor(part * limit, rest * limit, WAD);
    QuoteMono(part, part, price, limit);
  }

  // ------------------------------------------------------------------- fees

  /** The charge and the carry account for gross * rate exactly; the charge never exceeds
      the gross amount, whatever the carry. */
  function Fee(gross: u64, rate: u16, carry: u16): (r: Result<(u64, u16)>)
    ensures r.Ok? <==> rate <= MAX_FEE_BPS && carry < BPS
    ensures r.Ok? ==> BPS * r.value.0 + r.value.1 == gross * rate + carry
    ensures r.Ok? ==> r.value.1 < BPS && r.value.0 <= gross
  {
    if rate > MAX_FEE_BPS || carry >= BPS then Err(InvalidFee) else
    var numerator := gross * rate + carry;
    assert gross * rate <= gross * MAX_FEE_BPS by {
      MulBound(gross, gross, rate, MAX_FEE_BPS);
    }
    assert 0 <= gross * rate;
    Ok((numerator / BPS, numerator % BPS))
  }

  /** The fee-bearing fills of one order: gross amounts, each at the rate then in force. */
  datatype Charge = Charge(gross: u64, rate: u16) {
    predicate Valid() {
      rate <= MAX_FEE_BPS
    }
  }

  datatype Charged = Charged(total: nat, carry: u16)

  function ChargeAll(fills: seq<Charge>, carry: u16): (c: Charged)
    requires carry < BPS
    requires forall i | 0 <= i < |fills| :: fills[i].Valid()
    ensures c.carry < BPS
  {
    if fills == [] then Charged(0, carry) else
    var before := ChargeAll(fills[..|fills| - 1], carry);
    var last := fills[|fills| - 1];
    assert last.Valid();
    var charged := Fee(last.gross, last.rate, before.carry).value;
    Charged(before.total + charged.0, charged.1)
  }

  function WeightedGross(fills: seq<Charge>): int {
    if fills == [] then 0
    else WeightedGross(fills[..|fills| - 1]) + fills[|fills| - 1].gross * fills[|fills| - 1].rate
  }

  function TotalGross(fills: seq<Charge>): int {
    if fills == [] then 0 else TotalGross(fills[..|fills| - 1]) + fills[|fills| - 1].gross
  }

  /** Nothing is lost or charged twice over any sequence of fills. */
  lemma {:induction false} FeesAreExact(fills: seq<Charge>, carry: u16)
    requires carry < BPS
    requires forall i | 0 <= i < |fills| :: fills[i].Valid()
    ensures var c := ChargeAll(fills, carry); BPS * c.total + c.carry == WeightedGross(fills) + carry
  {
    if fills != [] {
      FeesAreExact(fills[..|fills| - 1], carry);
    }
  }

  /** At one rate the total charge depends on the volume alone, not on how it was split. */
  lemma FeesIgnoreSplitting(fills: seq<Charge>, others: seq<Charge>, rate: u16)
    requires rate <= MAX_FEE_BPS && TotalGross(fills) == TotalGross(others)
    requires forall i | 0 <= i < |fills| :: fills[i].rate == rate
    requires forall i | 0 <= i < |others| :: others[i].rate == rate
    ensures ChargeAll(fills, 0) == ChargeAll(others, 0)
    ensures ChargeAll(fills, 0).total == TotalGross(fills) * rate / BPS
  {
    WeightedAtOneRate(fills, rate);
    WeightedAtOneRate(others, rate);
    FeesAreExact(fills, 0);
    FeesAreExact(others, 0);
  }

  lemma {:induction false} WeightedAtOneRate(fills: seq<Charge>, rate: u16)
    requires forall i | 0 <= i < |fills| :: fills[i].rate == rate
    ensures WeightedGross(fills) == TotalGross(fills) * rate
  {
    if fills != [] {
      WeightedAtOneRate(fills[..|fills| - 1], rate);
    }
  }

  // ------------------------------------------------------------------- caps

  datatype Caps = Caps(step: u64, tick: u128, minNotional: u64, maxQuantity: u64,
                       maxOrder: u64, maxWallet: u64, maxMarket: u64) {

    function Validate(): (r: Result<()>)
      ensures r.Ok? ==> step > 0 && tick > 0 && minNotional > 0 && step * tick >= WAD
      ensures r.Ok? ==> step <= maxQuantity && minNotional <= maxOrder <= maxWallet <= maxMarket
      ensures r.Ok? ==> 0 < MinimumPrice() <= U128_MAX && Ceil(step, MinimumPrice()) <= maxOrder
      ensures r.Ok? ==> 2 * Ceil(step, MinimumPrice()) <= maxMarket
    {
      var _ :- Need(!(step == 0 || tick == 0 || minNotional == 0 || maxQuantity < step
                      || maxOrder < minNotional || maxWallet < maxOrder || maxMarket < maxWallet), InvalidTerms);
      var least :- QuoteDown(step, tick);
      var _ :- Need(least != 0, InvalidTerms);
      assert step * tick >= WAD by {
        FloorBounds(step * tick, WAD);
      }
      var denominator := step * tick;
      // The quote above already bounds step * tick: this multiplication cannot overflow.
      assert denominator <= U128_MAX by {
        FloorBounds(denominator, WAD);
      }
      var minimumPrice := MinimumPrice();
      var _ :- Need(minimumPrice <= U128_MAX, Overflow);
      var notional :- QuoteUp(step, minimumPrice);
      Need(!(notional > maxOrder || notional * 2 > maxMarket), CapExceeded)
    }

    /** The notional an admissible order reserves: the ceiling of its value. */
    function ValidateOrder(quantity: u64, price: u128): (r: Result<u64>)
      ensures r.Ok? <==>
                && step > 0 && tick > 0 && quantity > 0 && price > 0
                && quantity % step == 0 && price % tick == 0 && quantity <= maxQuantity
                && minNotional <= Ceil(quantity, price) <= maxOrder
      ensures r.Ok? ==> r.value == Ceil(quantity, price)
    {
      if step == 0 || tick == 0 || quantity == 0 || price == 0
         || quantity % step != 0 || price % tick != 0 || quantity > maxQuantity
      then Err(InvalidTerms)
      else
        var notional :- QuoteUp(quantity, price);
        if notional < minNotional || notional > maxOrder then Err(CapExceeded) else Ok(notional)
    }

    function FinalExposure(wallet: int, market: int): (r: Result<()>)
      ensures r.Ok? <==> wallet <= market <= maxMarket && wallet <= maxWallet
    {
      Need(!(wallet > market || wallet > maxWallet || market > maxMarket), CapExceeded)
    }

    /** The least tick multiple at which a single step is worth the minimum notional. */
    function MinimumPrice(): (p: nat)
      requires step > 0 && tick > 0 && minNotional > 0 && step * tick > 0
      ensures p >= tick
    {
      var ticks := (minNotional - 1) * WAD / (step * tick) + 1;
      FloorGreatest((minNotional - 1) * WAD, step * tick, 0);
      MulMono(1, ticks, tick);
      ticks * tick
    }
  }

  /** One step at k ticks is worth at least the minimum notional exactly from the least price on. */
  lemma MinimumPriceIsLeast(caps: Caps, k: nat)
    requires caps.step > 0 && caps.tick > 0 && caps.minNotional > 0 && caps.step * caps.tick >= WAD
    ensures 0 < caps.MinimumPrice() && caps.MinimumPrice() % caps.tick == 0
    ensures Ceil(caps.step, k * caps.tick) >= caps.minNotional <==> k * caps.tick >= caps.MinimumPrice()
  {
    var denominator := caps.step * caps.tick;
    var bound := (caps.minNotional - 1) * WAD;
    var below := bound / denominator;
    FloorGreatest(bound, denominator, 0);
    FloorGreatest(bound, denominator, k);
    MulMono(1, below + 1, caps.tick);
    MultipleOf(caps.MinimumPrice(), below + 1, caps.tick);
    assert caps.step * (k * caps.tick) == k * denominator;
    CeilLeast(k * denominator, WAD, caps.minNotional - 1);
    if k >= below + 1 {
      MulMono(below + 1, k, caps.tick);
    } else {
      MulMono(k, below, caps.tick);
      assert (below + 1) * caps.tick == below * caps.tick + caps.tick;
    }
  }

  /** Validated caps always leave room for trade: one step at the least admissible price
      is an order the caps accept, no lower price is, and both sides of a trade in it fit
      the market cap. */
  lemma ValidCapsAdmitAnOrder(caps: Caps)
    requires caps.Validate().Ok?
    ensures caps.ValidateOrder(caps.step, caps.MinimumPrice()).Ok?
    ensures 2 * Ceil(caps.step, caps.MinimumPrice()) <= caps.maxMarket
    ensures forall p: u128 | p < caps.MinimumPrice() :: caps.ValidateOrder(caps.step, p).Err?
  {
    var price := caps.MinimumPrice();
    MinimumPriceIsLeast(caps, price / caps.tick);
    MultipleOf(caps.step, 1, caps.step);
    MultipleAtLeast(price, caps.tick);
    forall p: u128 | p < price
      ensures caps.ValidateOrder(caps.step, p).Err?
    {
      if p > 0 && p % caps.tick == 0 {
        MultipleAtLeast(p, caps.tick);
        MinimumPriceIsLeast(caps, p / caps.tick);
      }
    }
  }

  /** Validated caps keep every admissible fill from rounding to nothing. */
  lemma NoFillRoundsToZero(caps: Caps, quantity: u64, price: u128)
    requires caps.step > 0 && caps.tick > 0 && caps.step * caps.tick >= WAD
    requires quantity > 0 && quantity % caps.step == 0
    requires price > 0 && price % caps.tick == 0
    ensures Floor(quantity, price) >= 1
  {
    MultipleAtLeast(quantity, caps.step);
    MultipleAtLeast(price, caps.tick);
    MulBound(caps.step, quantity, caps.tick, price);
    FloorGreatest(quantity * price, WAD, 1);
  }

  /** A limit price in ticks fits the 64-bit slot of the placement ring. */
  lemma TicksFit(caps: Caps, quantity: u64, price: u128)
    requires caps.step > 0 && caps.tick > 0 && caps.step * caps.tick >= WAD
    requires caps.ValidateOrder(quantity, price).Ok?
    ensures price / caps.tick <= U64_MAX
  {
    var t := price / caps.tick;
    MultipleAtLeast(quantity, caps.step);
    MultipleAtLeast(price, caps.tick);
    assert quantity * price >= caps.step * price by {
      MulMono(caps.step, quantity, price);
    }
    assert caps.step * price == t * (caps.step * caps.tick);
    MulMono(WAD, caps.step * caps.tick, t);
    FloorGreatest(quantity * price, WAD, t);
    QuoteMono(quantity, quantity, price, price);
  }

  // -------------------------------------------------------------- lifecycle

  const SCHEDULED := 1
  const OPEN := 2
  const FROZEN := 3
  const AWAITING := 4
  const REDEEMABLE := 6
  const ARCHIVED := 7

  function Trading(state: nat, paused: bool, now: int, open: int, cutoff: int): Result<()> {
    Need(!(state != OPEN || paused || now < open || now >= cutoff), InvalidState)
  }

  function ValidExpiry(now: int, expiry: int, cutoff: int): Result<()> {
    Need(!(expiry <= now || expiry > cutoff), Expired)
  }

  function ValidNonce(nonce: u64, minimum: u64): Result<()> {
    Need(!(nonce < minimum), InvalidNonce)
  }

  predicate Releasable(state: nat, now: int, expiry: int, nonce: u64, minimum: u64) {
    state != OPEN || now >= expiry || nonce < minimum
  }

  function Guard(now: int, deadline: int, expiry: int, quoted: (u64, u16, u16), actual: (u64, u16, u16)): Result<()> {
    Need(!(now >= deadline || deadline > expiry || quoted.0 > actual.0
           || quoted.1 != actual.1 || quoted.2 != actual.2), StaleQuote)
  }

  // ----------------------------------------------------- payouts and backing

  predicate ValidPayout(yes: nat, no: nat) {
    (yes, no) == (1, 0) || (yes, no) == (0, 1) || (yes, no) == (1, 1)
  }

  function Payout(yes: nat, no: nat): Result<nat> {
    match (yes, no)
    case (1, 0) => Ok(1)
    case (0, 1) => Ok(1)
    case (1, 1) => Ok(2)
    case _ => Err(InvalidTerms)
  }

  function Denominator(yes: nat, no: nat): nat
    requires ValidPayout(yes, no)
  {
    if (yes, no) == (1, 1) then 2 else 1
  }

  /** Never a fractional raw unit: what is paid times the denominator is exactly the
      weighted sum of the claims. */
  function Redemption(yesAmount: u64, noAmount: u64, yes: nat, no: nat): (r: Result<u64>)
    ensures r.Ok? ==> ValidPayout(yes, no)
    ensures r.Ok? ==> Denominator(yes, no) * r.value == Weighted(yesAmount, noAmount, yes, no)
    ensures ValidPayout(yes, no) ==> (r.Ok? <==> Weighted(yesAmount, noAmount, yes, no) % Denominator(yes, no) == 0)
  {
    var denominator :- Payout(yes, no);
    var numerator := Weighted(yesAmount, noAmount, yes, no);
    if numerator % denominator != 0 then Err(FractionalRedemption) else
    var amount := numerator / denominator;
    if amount > U64_MAX then Err(Overflow) else Ok(amount)
  }

  datatype Option<+T> = None | Some(value: T)

  /** The backing the outstanding supply of both claims needs: before the resolution the
      worse of the two outcomes, afterwards the payout rounded up. */
  function ClaimBacking(yes: u64, no: u64, payouts: Option<(nat, nat)>): (r: Result<u64>)
    ensures r.Ok? <==> payouts.None? || ValidPayout(payouts.value.0, payouts.value.1)
    ensures r.Ok? && payouts.None? ==> r.value >= yes && r.value >= no && (r.value == yes || r.value == no)
    ensures r.Ok? && payouts == Some((1, 1)) ==> 2 * r.value - 2 < yes + no <= 2 * r.value
    ensures r.Ok? && payouts == Some((1, 0)) ==> r.value == yes
    ensures r.Ok? && payouts == Some((0, 1)) ==> r.value == no
  {
    match payouts
    case None => Ok(if yes >= no then yes else no)
    case Some((y, n)) =>
      var denominator :- Payout(y, n);
      var numerator := Weighted(yes, no, y, n);
      var amount := CeilDiv(numerator, denominator);
      if amount > U64_MAX then Err(Overflow) else Ok(amount)
  }

  /** Claims weighted by a payout, whose entries are 0 or 1. */
  function Weighted(yes: nat, no: nat, y: nat, n: nat): nat
    requires ValidPayout(y, n)
  {
    (if y == 1 then yes else 0) + (if n == 1 then no else 0)
  }

  // ------------------------------------------------------------------ fills

  datatype Filled = Filled(quote: u64, buyerRemaining: u64, sellerRemaining: u64, buyerReserved: u64,
                           improvement: u64, buyerNotionalReduction: u64, sellerNotionalReduction: u64)

  predicate FillShape(quantity: u64, step: u64, buyerRemaining: u64, sellerRemaining: u64, bid: u128, ask: u128) {
    quantity > 0 && step > 0 && quantity % step == 0
    && quantity <= buyerRemaining && quantity <= sellerRemaining && 0 < ask <= bid
  }

  function Fill(quantity: u64, step: u64, buyerRemaining: u64, sellerRemaining: u64,
                bid: u128, ask: u128, bidIsMaker: bool): Result<Filled>
  {
    var _ :- Need(!(quantity == 0 || step == 0 || quantity % step != 0 || quantity > buyerRemaining
                    || quantity > sellerRemaining || ask == 0 || bid < ask), InvalidFill);
    var quote :- QuoteDown(quantity, if bidIsMaker then bid else ask);
    var _ :- Need(quote != 0, InvalidFill);
    var buyerReserved :- QuoteUp(buyerRemaining - quantity, bid);
    var buyerBefore :- QuoteUp(buyerRemaining, bid);
    var _ :- Need(buyerBefore >= buyerReserved, InvalidFill);
    var buyerReduction := buyerBefore - buyerReserved;
    var _ :- Need(buyerReduction >= quote, InvalidFill);
    var sellerBefore :- QuoteUp(sellerRemaining, ask);
    var sellerAfter :- QuoteUp(sellerRemaining - quantity, ask);
    var _ :- Need(sellerBefore >= sellerAfter, InvalidFill);
    Ok(Filled(quote, buyerRemaining - quantity, sellerRemaining - quantity, buyerReserved,
              buyerReduction - quote, buyerReduction, sellerBefore - sellerAfter))
  }

  /** A well-shaped fill of two orders whose notionals fit u64 fails only when it is worth
      less than one quote unit: no subtraction in it can go below zero. */
  lemma FillSucceeds(quantity: u64, step: u64, buyerRemaining: u64, sellerRemaining: u64,
                     bid: u128, ask: u128, bidIsMaker: bool)
    requires FillShape(quantity, step, buyerRemaining, sellerRemaining, bid, ask)
    requires Ceil(buyerRemaining, bid) <= U64_MAX && Ceil(sellerRemaining, ask) <= U64_MAX
    ensures var price := if bidIsMaker then bid else ask;
            var r := Fill(quantity, step, buyerRemaining, sellerRemaining, bid, ask, bidIsMaker);
            && (r.Ok? <==> Floor(quantity, price) > 0)
            && (r.Ok? ==>
                  && r.value.quote == Floor(quantity, price)
                  && r.value.buyerReserved == Ceil(buyerRemaining - quantity, bid)
                  && r.value.quote + r.value.improvement == r.value.buyerNotionalReduction
                  && r.value.buyerNotionalReduction == Ceil(buyerRemaining, bid) - Ceil(buyerRemaining - quantity, bid)
                  && r.value.sellerNotionalReduction
                     == Ceil(sellerRemaining, ask) - Ceil(sellerRemaining - quantity, ask))
  {
    hide Floor, Ceil;
    var price := if bidIsMaker then bid else ask;
    QuoteMono(buyerRemaining - quantity, buyerRemaining, bid, bid);
    QuoteMono(sellerRemaining - quantity, sellerRemaining, ask, ask);
    QuoteMono(quantity, buyerRemaining, price, bid);
    QuoteMono(buyerRemaining, buyerRemaining, bid, bid);
    ReservationCoversFill(quantity, buyerRemaining - quantity, bid, price);
  }

  // -------------------------------------------------------------- race ring

  const SIDE_NONE := 2

  predicate Crosses(side: nat, price: nat, otherSide: nat, otherPrice: nat) {
    (side == 0 && otherSide == 1 && price >= otherPrice) || (side == 1 && otherSide == 0 && price <= otherPrice)
  }

  datatype Placement = Placement(ticks: u64, side: nat)

  /** Whether a resting order planned at sequence `planned` may rest at `current`: nothing
      placed since may cross it, and the window must still hold everything placed since. */
  function RaceFree(window: nat, planned: u64, current: u64, side: nat, price: nat,
                    entries: seq<Placement>): (r: Result<()>)
    requires |entries| == window
    ensures r.Ok? <==>
              && window != 0 && planned <= current && current - planned <= window
              && forall s | planned <= s < current ::
                   && (side == 0 && entries[s % window].side == 1 ==> price < entries[s % window].ticks)
                   && (side == 1 && entries[s % window].side == 0 ==> price > entries[s % window].ticks)
  {
    if window == 0 || planned > current || current - planned > window then Err(StaleQuote)
    else RaceScan(window, planned, current, side, price, entries)
  }

  function RaceScan(window: nat, sequence: u64, current: u64, side: nat, price: nat,
                    entries: seq<Placement>): (r: Result<()>)
    requires |entries| == window && window != 0 && sequence <= current
    ensures r.Ok? <==> forall s | sequence <= s < current ::
                         && (side == 0 && entries[s % window].side == 1 ==> price < entries[s % window].ticks)
                         && (side == 1 && entries[s % window].side == 0 ==> price > entries[s % window].ticks)
    decreases current - sequence
  {
    if sequence == current then Ok(()) else
    var entry := entries[sequence % window];
    if Crosses(side, price, entry.side, entry.ticks) then Err(StaleQuote)
    else RaceScan(window, sequence + 1, current, side, price, entries)
  }

  // ------------------------------------------------------------ multipliers

  const UNIT_MULTIPLIER := 0x3FF0_0000_0000_0000

  datatype Parts = Parts(mantissa: u64, shift: nat)

  /** binary64 bits as mantissa / 2^shift; only positive normal values with a shift of 0..63. */
  function MultiplierParts(bits: u64): (r: Result<Parts>)
    ensures r.Ok? ==> 0x10_0000_0000_0000 <= r.value.mantissa < 0x20_0000_0000_0000 && r.value.shift <= 63
  {
    var exponent := bits / 0x10_0000_0000_0000 % 0x800;
    if bits / 0x8000_0000_0000_0000 != 0 || exponent == 0 || exponent == 0x7FF then Err(InvalidTerms) else
    var mantissa := bits % 0x10_0000_0000_0000 + 0x10_0000_0000_0000;
    var shift := 1075 - exponent;
    if shift < 0 || shift > 63 then Err(InvalidTerms) else Ok(Parts(mantissa, shift))
  }

  lemma ShiftBound(shift: nat)
    requires shift <= 63
    ensures Pow2(shift) <= 0x8000_0000_0000_0000
  {
    Pow2Square(2, 4);
    Pow2Square(4, 16);
    Pow2Square(8, 0x100);
    Pow2Square(16, 0x1_0000);
    Pow2Square(32, 0x1_0000_0000);
    var n := 64;
    assert Pow2(n) == 2 * Pow2(n - 1);
    Pow2Mono(shift, n - 1);
  }

  /** Raw issuer units for share units at a multiplier: units * scale / multiplier as an exact
      quotient of integers, rounded once. No intermediate leaves u128. */
  function BaseRaw(units: u64, scale: u64, multiplier: u64, up: bool): (r: Result<u64>)
    ensures r.Ok? <==>
              && MultiplierParts(multiplier).Ok?
              && units * scale <= U64_MAX
              && RawUnits(units, scale, MultiplierParts(multiplier).value, up) <= U64_MAX
    ensures r.Ok? ==> r.value == RawUnits(units, scale, MultiplierParts(multiplier).value, up)
  {
    var parts :- MultiplierParts(multiplier);
    var tokens := units * scale;
    assert tokens >= 0;
    if tokens > U64_MAX then Err(Overflow) else
    var numerator := tokens * Pow2(parts.shift);
    assert 0 <= numerator <= U128_MAX by {
      ShiftBound(parts.shift);
      MulBound(tokens, U64_MAX, Pow2(parts.shift), 0x8000_0000_0000_0000);
    }
    var raw := numerator / parts.mantissa + (if up && numerator % parts.mantissa != 0 then 1 else 0);
    assert raw == RawUnits(units, scale, parts, up) by {
      FloorBelowCeil(numerator, parts.mantissa);
    }
    if raw > U64_MAX then Err(Overflow) else Ok(raw)
  }

  /** The exact quotient units * scale / (mantissa / 2^shift), rounded down or up. */
  function RawUnits(units: nat, scale: nat, parts: Parts, up: bool): nat
    requires parts.mantissa > 0
  {
    var numerator := units * scale * Pow2(parts.shift);
    if up then CeilDiv(numerator, parts.mantissa) else numerator / parts.mantissa
  }

  /** 4/5 <= current / listing <= 5/4, cross-multiplied. No product leaves u128. */
  function WithinBand(listing: u64, current: u64): (r: Result<bool>)
    ensures r.Ok? <==> MultiplierParts(listing).Ok? && MultiplierParts(current).Ok?
    ensures r.Ok? ==> (r.value <==> InBand(MultiplierParts(listing).value, MultiplierParts(current).value))
  {
    var l :- MultiplierParts(listing);
    var c :- MultiplierParts(current);
    var cur := c.mantissa * Pow2(l.shift);
    var lst := l.mantissa * Pow2(c.shift);
    assert cur <= U128_MAX / 5 && lst <= U128_MAX / 5 by {
      ShiftBound(l.shift);
      ShiftBound(c.shift);
      MulBound(c.mantissa, 0x20_0000_0000_0000, Pow2(l.shift), 0x8000_0000_0000_0000);
      MulBound(l.mantissa, 0x20_0000_0000_0000, Pow2(c.shift), 0x8000_0000_0000_0000);
    }
    Ok(4 * cur <= 5 * lst && 5 * cur >= 4 * lst)
  }

  ghost predicate InBand(listing: Parts, current: Parts) {
    && 4 * (current.mantissa * Pow2(listing.shift)) <= 5 * (listing.mantissa * Pow2(current.shift))
    && 5 * (current.mantissa * Pow2(listing.shift)) >= 4 * (listing.mantissa * Pow2(current.shift))
  }
}
