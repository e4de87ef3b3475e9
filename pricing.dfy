/** Price and delivery-time rules applied when an order is placed. */
module Pricing {

  /** The resolutions offered by the order form's selection box, cheapest first. */
  const Resolutions: seq<string> := ["2-4K", "4-6K", "8K"]

  /** Flat price in EUR for a resolution tier; a resolution outside the
      three tiers is priced 0 rather than rejected. */
  function CalcPrice(resolution: string): (price: nat)
    ensures price == 70 <==> resolution == "2-4K"
    ensures price == 100 <==> resolution == "4-6K"
    ensures price == 120 <==> resolution == "8K"
    ensures price == 0 <==> resolution !in Resolutions
  {
    if resolution == "2-4K" then 70
    else if resolution == "4-6K" then 100
    else if resolution == "8K" then 120
    else 0
  }

  /** Every resolution the form offers has a positive price, and a higher
      tier in the list costs strictly more. */
  lemma SelectablePricesRise(i: nat, j: nat)
    requires i < j < |Resolutions|
    ensures 0 < CalcPrice(Resolutions[i]) < CalcPrice(Resolutions[j])
  {
  }

  /** A positive price identifies the tier it came from. */
  lemma PriceIdentifiesTier(a: string, b: string)
    requires CalcPrice(a) == CalcPrice(b) > 0
    ensures a == b
  {
  }

  /** Delivery time in days for a number of renders: three days per
      started block of three renders.  Python's floor division `//` by 3
      agrees with Dafny's Euclidean division because the divisor is
      positive, so this matches `calc_deadline` for every integer. */
  function CalcDeadline(numRenders: int): (days: int)
    ensures days % 3 == 0
    ensures numRenders <= days < numRenders + 3
  {
    3 * ((numRenders - 1) / 3 + 1)
  }

  /** The deadline is the ONLY multiple of 3 in [n, n + 3): it is n rounded
      up to a multiple of 3. */
  lemma DeadlineIsRoundUp(n: int, d: int)
    requires d % 3 == 0 && n <= d < n + 3
    ensures d == CalcDeadline(n)
  {
  }

  /** At least one render always gives a positive deadline. */
  lemma DeadlinePositive(n: int)
    requires 1 <= n
    ensures CalcDeadline(n) >= 3
  {
  }

  /** More renders never shorten the deadline. */
  lemma DeadlineMonotone(m: int, n: int)
    requires m <= n
    ensures CalcDeadline(m) <= CalcDeadline(n)
  {
  }

  /** Three more renders add exactly three more days. */
  lemma DeadlineStep(n: int)
    ensures CalcDeadline(n + 3) == CalcDeadline(n) + 3
  {
  }

  /** Over the form's slider range of 1 to 30 renders the deadline lies in
      3 to 30 days. */
  lemma DeadlineInFormRange(n: int)
    requires 1 <= n <= 30
    ensures 3 <= CalcDeadline(n) <= 30
  {
  }
}
