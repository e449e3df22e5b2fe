/** Tokens that charge for transfers: what arrives of a gross amount, and the search for the least
    gross amount of which enough arrives. */
module Transfers {
  import opened Exact
  import opened Rules

  /** A mint's transfer fee: a rate in basis points, rounded up, and a cap. */
  datatype TransferFee = TransferFee(bps: int, maximum: int) {
    predicate Valid() {
      0 <= bps <= BPS && 0 <= maximum <= U64_MAX
    }
  }

  function FeeOf(fee: TransferFee, gross: nat): nat
    requires fee.Valid()
  {
    if fee.bps == 0 || gross == 0 then 0 else
    var uncapped := CeilDiv(gross * fee.bps, BPS);
    if uncapped < fee.maximum then uncapped else fee.maximum
  }

  /** The least whole amount that is no less than the rate, if the cap allows it. */
  lemma FeeIsRoundedUp(fee: TransferFee, gross: nat, x: nat)
    requires fee.Valid()
    ensures FeeOf(fee, gross) <= x <==> fee.maximum <= x || gross * fee.bps <= x * BPS
  {
    MulMono(0, gross, fee.bps);
    CeilLeast(gross * fee.bps, BPS, x);
  }

  function Net(gross: int, fee: Rules.Option<TransferFee>): Rules.Result<int> {
    if !(0 <= gross <= U64_MAX) then Err(Overflow) else
    match fee
    case None => Ok(gross)
    case Some(f) => if f.Valid() then Ok(gross - FeeOf(f, gross)) else Err(InvalidFee)
  }

  predicate Chargeable(fee: Rules.Option<TransferFee>) {
    fee.None? || fee.value.Valid()
  }

  /** One more unit sent is charged at most one more unit: even a whole-rate fee never takes more. */
  lemma FeeSteps(fee: TransferFee, gross: nat)
    requires fee.Valid()
    ensures FeeOf(fee, gross) <= FeeOf(fee, gross + 1) <= FeeOf(fee, gross) + 1
    ensures FeeOf(fee, gross) <= gross
  {
    var b := fee.bps;
    MulMono(gross, gross + 1, b);
    CeilMono(gross * b, (gross + 1) * b, BPS);
    CeilBounds(gross * b, BPS);
    CeilBounds((gross + 1) * b, BPS);
    assert (gross + 1) * b == gross * b + b;
    CeilLeast((gross + 1) * b, BPS, CeilDiv(gross * b, BPS) + 1);
    MulMono(b, BPS, gross);
    CeilLeast(gross * b, BPS, gross);
  }

  /** Sending more never delivers less. */
  lemma {:induction false} NetGrows(fee: Rules.Option<TransferFee>, less: nat, more: nat)
    requires Chargeable(fee) && less <= more <= U64_MAX
    ensures 0 <= Net(less, fee).value <= Net(more, fee).value
    ensures Net(less, fee).value <= less
    decreases more - less
  {
    hide FeeOf;
    if fee.Some? {
      FeeSteps(fee.value, less);
      if less < more {
        NetGrows(fee, less + 1, more);
      }
    }
  }

  /** The least 64-bit amount of which at least the credit arrives. */
  ghost predicate LeastGross(gross: int, net: int, fee: Rules.Option<TransferFee>) {
    && 0 <= gross <= U64_MAX && Net(gross, fee).Ok? && Net(gross, fee).value >= net
    && forall g | 0 <= g < gross :: Net(g, fee).Ok? ==> Net(g, fee).value < net
  }

  /** Finds it, and fails exactly when no 64-bit amount delivers the credit or the inputs are not ones
      a mint can have. */
  method TransferGross(net: int, fee: Rules.Option<TransferFee>) returns (r: Rules.Result<int>)
    ensures r.Ok? ==> LeastGross(r.value, net, fee)
    ensures r.Ok? <==> 0 <= net <= U64_MAX && exists g ::
            0 <= g <= U64_MAX && Net(g, fee).Ok? && Net(g, fee).value >= net
  {
    hide FeeOf;
    if !(0 <= net <= U64_MAX) { return Err(Overflow); }
    var most := Net(U64_MAX, fee);
    if most.Err? { return Err(most.error); }
    if most.value < net {
      forall g | 0 <= g <= U64_MAX
        ensures Net(g, fee).value < net
      {
        NetGrows(fee, g, U64_MAX);
      }
      return Err(Overflow);
    }
    var low, high := net, U64_MAX;
    forall g | 0 <= g < net
      ensures Net(g, fee).value < net
    {
      NetGrows(fee, g, g);
    }
    while low < high
      invariant 0 <= net <= low <= high <= U64_MAX
      invariant Net(high, fee).value >= net
      invariant forall g | 0 <= g < low :: Net(g, fee).value < net
    {
      var middle := low + (high - low) / 2;
      if Net(middle, fee).value >= net {
        high := middle;
      } else {
        forall g | 0 <= g <= middle
          ensures Net(g, fee).value < net
        {
          NetGrows(fee, g, middle);
        }
        low := middle + 1;
      }
    }
    r := Ok(low);
  }
}
