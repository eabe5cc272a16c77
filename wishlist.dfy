/**
 * calculatePurchaseStatus: the 0-100 purchase score of a wishlist item and
 * its status tag, from priority (1..3), necessity (1..5), cost and balance.
 */
module Wishlist {

  const SafeSpendRatio: real := 0.15
  const NecessityWeight: real := 0.4
  const PriorityWeight: real := 0.3
  const AffordabilityWeight: real := 0.3

  /** The four outcomes of the status chain; ExceedsSafeLimit carries the limit shown in its message. */
  datatype Status = CannotAfford | ExceedsSafeLimit(limit: real) | GoodToPurchase | NotRecommended

  datatype PurchaseStatus = PurchaseStatus(purchaseScore: int, status: Status)

  /** Linear map of `value` from [inMin, inMax] onto [outMin, outMax]. */
  function MapRange(value: real, inMin: real, inMax: real, outMin: real, outMax: real): real
    requires inMin != inMax
  {
    (value - inMin) * (outMax - outMin) / (inMax - inMin) + outMin
  }

  lemma MapRangeEnds(inMin: real, inMax: real, outMin: real, outMax: real)
    requires inMin < inMax
    ensures MapRange(inMin, inMin, inMax, outMin, outMax) == outMin
    ensures MapRange(inMax, inMin, inMax, outMin, outMax) == outMax
  {
  }

  /** Math.round: halves round up. */
  function Round(x: real): (n: int)
    ensures x - 0.5 < n as real <= x + 0.5
  {
    (x + 0.5).Floor
  }

  /** 15% of the balance: never more than a non-negative balance, never negative with it. */
  function SafeSpendLimit(balance: real): (r: real)
    ensures balance >= 0.0 ==> 0.0 <= r <= balance
    ensures balance > 0.0 ==> r < balance
  {
    balance * SafeSpendRatio
  }

  function NecessityScore(necessity: int): (r: real)
    ensures 1 <= necessity <= 5 ==> 2.0 <= r <= 10.0
  {
    MapRange(necessity as real, 1.0, 5.0, 2.0, 10.0)
  }

  function PriorityScore(priority: int): (r: real)
    ensures 1 <= priority <= 3 ==> 3.33 <= r <= 10.0
  {
    MapRange(priority as real, 1.0, 3.0, 3.33, 10.0)
  }

  /**
   * 10 within the safe limit; beyond it, 10 minus 5 per safe limit of excess,
   * never below 0. With a zero limit JavaScript divides by zero and gets
   * -Infinity, which Math.max turns into 0: that case is written out.
   */
  function AffordabilityScore(cost: real, limit: real): (r: real)
    ensures limit >= 0.0 ==> 0.0 <= r <= 10.0
    ensures limit >= 0.0 ==> (r == 10.0 <==> cost <= limit)
  {
    if cost <= limit then 10.0
    else if limit == 0.0 then 0.0
    else
      var excess := (cost - limit) / limit;
      assert limit > 0.0 ==> excess > 0.0;
      var w := 10.0 - excess * 5.0;
      if w > 0.0 then w else 0.0
  }

  /** The rounded weighted sum; for valid weights and a balance that is not negative it lies in 0..100. */
  function PurchaseScore(priority: int, necessity: int, cost: real, balance: real): (r: int)
    ensures 1 <= priority <= 3 && 1 <= necessity <= 5 && balance >= 0.0 ==> 0 <= r <= 100
  {
    Round((NecessityScore(necessity) * NecessityWeight
           + PriorityScore(priority) * PriorityWeight
           + AffordabilityScore(cost, SafeSpendLimit(balance)) * AffordabilityWeight) * 10.0)
  }

  function CalculatePurchaseStatus(priority: int, necessity: int, cost: real, balance: real): (r: PurchaseStatus)
    ensures r.purchaseScore == PurchaseScore(priority, necessity, cost, balance)
    ensures r.status == GoodToPurchase ==> cost <= balance && r.purchaseScore >= 70
    ensures r.status.ExceedsSafeLimit? ==> r.status.limit < cost <= balance
  {
    var safeSpendLimit := SafeSpendLimit(balance);
    var isAffordable := balance >= cost;
    var isWithinSafeSpend := cost <= safeSpendLimit;
    var purchaseScore := PurchaseScore(priority, necessity, cost, balance);
    var status :=
      if !isAffordable then CannotAfford
      else if !isWithinSafeSpend then ExceedsSafeLimit(safeSpendLimit)
      else if purchaseScore >= 70 then GoodToPurchase
      else NotRecommended;
    PurchaseStatus(purchaseScore, status)
  }

  const CannotAffordColor := "bg-red-100 dark:bg-red-900/40 text-red-900 dark:text-red-200"
  const ExceedsColor := "bg-orange-100 dark:bg-orange-900/40 text-orange-900 dark:text-orange-200"
  const GoodColor := "bg-green-100 dark:bg-green-900/40 text-green-900 dark:text-green-200"
  const NotRecommendedColor := "bg-gray-100 dark:bg-gray-800/50 text-gray-900 dark:text-gray-200"

  /** The badge classes of each status. */
  function StatusColor(s: Status): string
  {
    match s
    case CannotAfford => CannotAffordColor
    case ExceedsSafeLimit(_) => ExceedsColor
    case GoodToPurchase => GoodColor
    case NotRecommended => NotRecommendedColor
  }

  // ---------------------------------------------------------------------
  // Properties

  /** The weights stay in their ranges for every valid priority and necessity. */
  lemma WeightRanges(priority: int, necessity: int)
    requires 1 <= priority <= 3 && 1 <= necessity <= 5
    ensures 2.0 <= NecessityScore(necessity) <= 10.0
    ensures 3.33 <= PriorityScore(priority) <= 10.0
    ensures NecessityScore(1) == 2.0 && NecessityScore(5) == 10.0
    ensures PriorityScore(1) == 3.33 && PriorityScore(3) == 10.0
  {
  }

  /** With a positive balance the affordability weight lies in [0, 10], and is 10 exactly within the limit. */
  lemma AffordabilityRange(cost: real, balance: real)
    requires balance > 0.0
    ensures 0.0 <= AffordabilityScore(cost, SafeSpendLimit(balance)) <= 10.0
    ensures AffordabilityScore(cost, SafeSpendLimit(balance)) == 10.0 <==> cost <= SafeSpendLimit(balance)
  {
    var limit := SafeSpendLimit(balance);
    if cost > limit {
      assert (cost - limit) / limit > 0.0;
    }
  }

  /** A negative balance pushes the affordability weight above 10. */
  lemma NegativeBalanceExceedsTen()
    ensures AffordabilityScore(10.0, SafeSpendLimit(-100.0)) > 10.0
  {
    assert SafeSpendLimit(-100.0) == -15.0;
  }

  /** With a positive balance, a dearer item never scores higher. */
  lemma ScoreMonotoneInCost(priority: int, necessity: int, cost1: real, cost2: real, balance: real)
    requires balance > 0.0
    requires cost1 <= cost2
    ensures PurchaseScore(priority, necessity, cost2, balance) <= PurchaseScore(priority, necessity, cost1, balance)
  {
    var limit := SafeSpendLimit(balance);
    if cost2 > limit && cost1 > limit {
      assert (cost1 - limit) / limit <= (cost2 - limit) / limit by {
        var q1, q2 := (cost1 - limit) / limit, (cost2 - limit) / limit;
        assert q1 * limit == cost1 - limit && q2 * limit == cost2 - limit;
      }
    }
    AffordabilityRange(cost1, balance);
    AffordabilityRange(cost2, balance);
    assert AffordabilityScore(cost2, limit) <= AffordabilityScore(cost1, limit);
  }

  /** A high-priority, high-necessity item within the safe limit scores 100. */
  lemma TopItemScoresHundred(cost: real, balance: real)
    requires cost <= SafeSpendLimit(balance)
    ensures PurchaseScore(3, 5, cost, balance) == 100
  {
    assert (NecessityScore(5) * NecessityWeight + PriorityScore(3) * PriorityWeight + 10.0 * AffordabilityWeight) * 10.0 == 100.0;
  }

  /** Every valid item within the safe limit scores between 48 and 100. */
  lemma ScoreWithinLimitRange(priority: int, necessity: int, cost: real, balance: real)
    requires 1 <= priority <= 3 && 1 <= necessity <= 5
    requires cost <= SafeSpendLimit(balance)
    ensures 48 <= PurchaseScore(priority, necessity, cost, balance) <= 100
  {
    WeightRanges(priority, necessity);
    var x := (NecessityScore(necessity) * NecessityWeight + PriorityScore(priority) * PriorityWeight + 10.0 * AffordabilityWeight) * 10.0;
    assert 47.99 <= x <= 100.0;
  }

  /** Each status has its own badge colour. */
  lemma StatusColorsDistinct(a: Status, b: Status)
    requires a != b && !(a.ExceedsSafeLimit? && b.ExceedsSafeLimit?)
    ensures StatusColor(a) != StatusColor(b)
  {
  }

  /** "Cannot Afford" exactly when the balance is below the cost, whatever the score. */
  lemma CannotAffordExactly(priority: int, necessity: int, cost: real, balance: real)
    ensures CalculatePurchaseStatus(priority, necessity, cost, balance).status == CannotAfford <==> balance < cost
  {
  }

  /** Only four outcomes; "Good to Purchase" exactly when affordable, within the limit and scoring 70 or more. */
  lemma StatusChain(priority: int, necessity: int, cost: real, balance: real)
    ensures var r := CalculatePurchaseStatus(priority, necessity, cost, balance);
      && (r.status == ExceedsSafeLimit(SafeSpendLimit(balance)) <==> balance >= cost && cost > SafeSpendLimit(balance))
      && (r.status == GoodToPurchase <==> balance >= cost && cost <= SafeSpendLimit(balance) && r.purchaseScore >= 70)
      && (r.status == NotRecommended <==> balance >= cost && cost <= SafeSpendLimit(balance) && r.purchaseScore < 70)
  {
  }

  /** balance 100000, cost 10000, necessity 5, priority 3: score 100, good to purchase. */
  lemma AffordabilityExample()
    ensures CalculatePurchaseStatus(3, 5, 10000.0, 100000.0) == PurchaseStatus(100, GoodToPurchase)
  {
    TopItemScoresHundred(10000.0, 100000.0);
  }
}
