/** The client's arithmetic on unbounded integers, and why it never disagrees with the program's. */
module Client {
  import opened Exact
  import opened Rules
  import Conversion

  datatype Amount = Amount(value: int) | Refused

  function Quote(quantity: int, price: int, up: bool): Amount {
    if !(0 <= quantity <= U64_MAX && 0 <= price <= U128_MAX) then Refused else
    var product := quantity * price;
    var result := product / WAD + (if up && product % WAD != 0 then 1 else 0);
    if result > U64_MAX then Refused else Amount(result)
  }

  // -------------------------------------------------- shifts and masks of bigints

  function ShiftLeft(x: nat, n: nat): nat {
    x * Pow2(n)
  }

  function ShiftRight(x: nat, n: nat): nat {
    FloorGreatest(x, Pow2(n), 0);
    x / Pow2(n)
  }

  /** x & (2^n - 1) */
  function LowBits(x: nat, n: nat): nat {
    x % Pow2(n)
  }

  /** x | 2^n */
  function WithBit(x: nat, n: nat): (y: nat)
    ensures y > 0
  {
    if ShiftRight(x, n) % 2 == 1 then x else x + Pow2(n)
  }

  datatype Decoded = Decoded(mantissa: nat, shift: nat) | Undecodable

  /** The client's own decoding of a multiplier. */
  function Decode(bits: int): (d: Decoded)
    ensures d.Decoded? ==> d.mantissa > 0
  {
    if bits < 0 || bits > U64_MAX then Undecodable else
    var exponent := LowBits(ShiftRight(bits, 52), 11);
    if ShiftRight(bits, 63) != 0 || exponent == 0 || exponent == 0x7FF then Undecodable else
    var mantissa := WithBit(LowBits(bits, 52), 52);
    var shift := 1075 - exponent;
    if shift < 0 || shift > 63 then Undecodable else Decoded(mantissa, shift)
  }

  lemma Powers(n: nat, k: nat, l: nat)
    requires n == 52 && k == 11 && l == 63
    ensures Pow2(n) == 0x10_0000_0000_0000 && Pow2(k) == 0x800 && Pow2(l) == 0x8000_0000_0000_0000
  {
    Conversion.Pow2Of52(n);
    assert Pow2(4) == 16;
    var seven := 7;
    assert Pow2(seven) == 128;
    Pow2Add(4, seven);
    Pow2Add(n, k);
  }

  /** It decodes exactly what the program decodes, to the same number. */
  lemma DecodingsAgree(bits: int)
    ensures Decode(bits) == if 0 <= bits <= U64_MAX && MultiplierParts(bits).Ok?
                            then Decoded(MultiplierParts(bits).value.mantissa, MultiplierParts(bits).value.shift)
                            else Undecodable
  {
    Powers(52, 11, 63);
  }

  function BaseRaw(units: int, scale: int, multiplier: int, up: bool): Amount {
    match Decode(multiplier)
    case Undecodable => Refused
    case Decoded(mantissa, shift) =>
      if units < 0 || scale < 0 then Refused else
      var tokens := units * scale;
      assert tokens >= 0 by { MulBound(0, units, 0, scale); }
      if tokens > U64_MAX then Refused else
      var numerator := ShiftLeft(tokens, shift);
      var raw := numerator / mantissa + (if up && numerator % mantissa != 0 then 1 else 0);
      if raw > U64_MAX then Refused else Amount(raw)
  }

  datatype Answer = Yes | No | Invalid

  function WithinBand(listing: int, current: int): Answer {
    match (Decode(listing), Decode(current))
    case (Decoded(lm, ls), Decoded(cm, cs)) =>
      var cur, lst := cm * ShiftLeft(1, ls), lm * ShiftLeft(1, cs);
      if 4 * cur <= 5 * lst && 5 * cur >= 4 * lst then Yes else No
    case _ => Invalid
  }

  function Same(r: Rules.Result<u64>): Amount {
    match r
    case Ok(value) => Amount(value)
    case Err(_) => Refused
  }

  /** Quoted directly or with the price taken apart, an amount is the same, and so is its failure. */
  lemma QuotesAgree(quantity: u64, price: u128)
    ensures Quote(quantity, price, false) == Same(QuoteDown(quantity, price))
    ensures Quote(quantity, price, true) == Same(QuoteUp(quantity, price))
  {
    MulBound(0, quantity, 0, price);
    FloorBelowCeil(quantity * price, WAD);
  }

  lemma ConversionsAgree(units: u64, scale: u64, multiplier: u64, up: bool)
    ensures BaseRaw(units, scale, multiplier, up) == Same(Rules.BaseRaw(units, scale, multiplier, up))
  {
    hide Decode;
    DecodingsAgree(multiplier);
    var parts := MultiplierParts(multiplier);
    if parts.Ok? {
      MulBound(0, units, 0, scale);
      MulBound(0, units * scale, 0, Pow2(parts.value.shift));
      FloorBelowCeil(units * scale * Pow2(parts.value.shift), parts.value.mantissa);
    }
  }

  lemma BandsAgree(listing: u64, current: u64)
    ensures WithinBand(listing, current) == match Rules.WithinBand(listing, current)
                                            case Ok(inside) => (if inside then Yes else No)
                                            case Err(_) => Invalid
  {
    hide Decode;
    DecodingsAgree(listing);
    DecodingsAgree(current);
  }
}
