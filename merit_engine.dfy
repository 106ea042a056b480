/**
 * The merit engine converts a USD value into minted units.  `mint` adds the
 * exact product `usd_value * base_rate * partner_factor` to the running
 * supply but returns that product truncated toward zero, so the supply is
 * the sum of the exact products and not of what callers receive.
 */
module Merit {

  /** `int(x)`: drops the fractional part, rounding toward zero. */
  function TruncateTowardZero(x: real): (r: int)
    ensures x >= 0.0 ==> r >= 0 && r as real <= x < r as real + 1.0
    ensures x < 0.0 ==> r <= 0 && r as real - 1.0 < x <= r as real
  {
    if x >= 0.0 then x.Floor else -((-x).Floor)
  }

  /** The arguments of one `mint` call. */
  datatype MintCall = MintCall(usdValue: real, partnerFactor: real)

  /** The exact number of units one call mints at `baseRate`. */
  function Product(baseRate: real, c: MintCall): real
  {
    c.usdValue * baseRate * c.partnerFactor
  }

  /** The sum of the exact products of a sequence of calls. */
  function SumOfProducts(baseRate: real, calls: seq<MintCall>): real
    decreases |calls|
  {
    if calls == [] then 0.0
    else SumOfProducts(baseRate, calls[..|calls| - 1]) + Product(baseRate, calls[|calls| - 1])
  }

  /** The sum of the values a sequence of calls returns. */
  function SumOfReturned(baseRate: real, calls: seq<MintCall>): int
    decreases |calls|
  {
    if calls == [] then 0
    else SumOfReturned(baseRate, calls[..|calls| - 1]) + TruncateTowardZero(Product(baseRate, calls[|calls| - 1]))
  }

  ghost predicate NonNegativeCalls(baseRate: real, calls: seq<MintCall>)
  {
    baseRate >= 0.0 && forall i :: 0 <= i < |calls| ==> calls[i].usdValue >= 0.0 && calls[i].partnerFactor >= 0.0
  }

  /**
   * With non-negative inputs the returned units never exceed the accumulated
   * supply, and fall short of it by less than one unit per call.
   */
  lemma {:induction false} ReturnedTrailsSupply(baseRate: real, calls: seq<MintCall>)
    requires NonNegativeCalls(baseRate, calls)
    ensures 0.0 <= SumOfReturned(baseRate, calls) as real <= SumOfProducts(baseRate, calls)
    ensures calls != [] ==> SumOfProducts(baseRate, calls) < SumOfReturned(baseRate, calls) as real + |calls| as real
    decreases |calls|
  {
    if calls != [] {
      var init, last := calls[..|calls| - 1], calls[|calls| - 1];
      assert NonNegativeCalls(baseRate, init) by {
        forall i | 0 <= i < |init| ensures init[i].usdValue >= 0.0 && init[i].partnerFactor >= 0.0 {
          assert init[i] == calls[i];
        }
      }
      ReturnedTrailsSupply(baseRate, init);
      assert Product(baseRate, last) >= 0.0 by {
        assert last == calls[|calls| - 1];
        NonNegativeProduct(last.usdValue, baseRate, last.partnerFactor);
      }
      var t := TruncateTowardZero(Product(baseRate, last));
      assert Product(baseRate, last) < t as real + 1.0;
      assert |init| as real + 1.0 == |calls| as real;
      assert SumOfProducts(baseRate, calls) == SumOfProducts(baseRate, init) + Product(baseRate, last);
      assert SumOfReturned(baseRate, calls) == SumOfReturned(baseRate, init) + t;
    }
  }

  lemma NonNegativeProduct(a: real, b: real, c: real)
    requires a >= 0.0 && b >= 0.0 && c >= 0.0
    ensures a * b * c >= 0.0
  {
  }

  /** One call of 0.5 USD at rate 1.0 adds 0.5 to the supply and returns 0. */
  lemma SupplyIsNotSumOfReturned()
    ensures SumOfProducts(1.0, [MintCall(0.5, 1.0)]) == 0.5
    ensures SumOfReturned(1.0, [MintCall(0.5, 1.0)]) == 0
  {
  }

  /** One more call adds its exact product to the sum; a non-negative one does not lower it. */
  lemma SupplyAfterMint(baseRate: real, calls: seq<MintCall>, call: MintCall)
    ensures SumOfProducts(baseRate, calls + [call]) == SumOfProducts(baseRate, calls) + Product(baseRate, call)
    ensures call.usdValue >= 0.0 && baseRate >= 0.0 && call.partnerFactor >= 0.0 ==> Product(baseRate, call) >= 0.0
  {
    assert (calls + [call])[..|calls|] == calls;
    if call.usdValue >= 0.0 && baseRate >= 0.0 && call.partnerFactor >= 0.0 {
      NonNegativeProduct(call.usdValue, baseRate, call.partnerFactor);
    }
  }

  class MeritEngine {
    var baseRate: real
    var totalSupply: real
    /** The calls made since construction. */
    ghost var minted: seq<MintCall>

    /** The supply is exactly the sum of the untruncated products of all calls so far. */
    ghost predicate Valid()
      reads this
    {
      totalSupply == SumOfProducts(baseRate, minted)
    }

    constructor (baseRate: real := 1.0)
      ensures Valid()
      ensures this.baseRate == baseRate && totalSupply == 0.0 && minted == []
    {
      this.baseRate := baseRate;
      totalSupply := 0.0;
      minted := [];
    }

    method Mint(usdValue: real, partnerFactor: real := 1.0) returns (units: int)
      requires Valid()
      modifies this`totalSupply, this`minted
      ensures Valid()
      ensures minted == old(minted) + [MintCall(usdValue, partnerFactor)]
      ensures totalSupply == old(totalSupply) + usdValue * baseRate * partnerFactor
      ensures units == TruncateTowardZero(usdValue * baseRate * partnerFactor)
      ensures usdValue >= 0.0 && baseRate >= 0.0 && partnerFactor >= 0.0 ==> totalSupply >= old(totalSupply)
    {
      var call := MintCall(usdValue, partnerFactor);
      var merit := Product(baseRate, call);
      SupplyAfterMint(baseRate, minted, call);
      totalSupply := totalSupply + merit;
      minted := minted + [call];
      units := TruncateTowardZero(merit);
    }
  }

  /** An engine at rate 2.0 minting 10 USD with factor 1.5 returns 30 and holds 30. */
  method MintExample()
  {
    var engine := new MeritEngine(2.0);
    var units := engine.Mint(10.0, 1.5);
    assert units == 30 && engine.totalSupply == 30.0;
  }
}
