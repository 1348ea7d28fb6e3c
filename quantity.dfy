/** `determiner_quantite`: the quantity ladder, driven by the Python draws. */
module QuantityModel {
  import opened Draws

  /** The literal category lists of the four preferring branches, spelled as in the source. */
  const MeatCategories: seq<string> := ["Viande", "Poisson", "Oeuf"]
  const PlantCategories: seq<string> := ["Légumes", "Fruit", "Légumineuse"]
  const StandardCategories: seq<string> := ["viande", "poisson", "oeuf", "Légumes", "Fruit", "Légumineuse"]

  /**
   * Whether the branch for `eaterClass` tosses the 30% upgrade coin for
   * `category`: membership is exact string comparison, and `and`
   * short-circuits, so no coin is drawn outside the list.
   */
  predicate Eligible(eaterClass: string, category: string) {
    if eaterClass == "meat_lover" then category in MeatCategories
    else if eaterClass == "vegan" || eaterClass == "vegetarian" then category in PlantCategories
    else if eaterClass == "standard" then category in StandardCategories
    else eaterClass == "random"
  }

  /** The quantities the ladder can produce: none, one, an upgrade of 2..5, or an outlier of 100..100000. */
  predicate Ladder(q: int) {
    q == 0 || q == 1 || 2 <= q <= 5 || 100 <= q <= 100000
  }

  /** A quantity and the position of the next unread Python draw. */
  datatype Draw = Draw(quantity: int, next: nat)

  /** The quantity of one item, reading the Python draws from position `pos` on. */
  function Quantity(eaterClass: string, category: string, s: Stream, pos: nat): (r: Draw)
    // the four outcomes, never negative
    ensures Ladder(r.quantity)
    // zero exactly when the first draw is below 0.04
    ensures r.quantity == 0 <==> s(pos) < 0.04
    // an outlier exactly when the first draw passes and the second exceeds 0.99
    ensures r.quantity >= 100 <==> s(pos) >= 0.04 && s(pos + 1) > 0.99
    // an upgrade exactly when the branch tosses its coin and the coin is below 0.30
    ensures 2 <= r.quantity <= 5 <==>
              s(pos) >= 0.04 && s(pos + 1) <= 0.99 && Eligible(eaterClass, category) && s(pos + 2) < 0.30
    // draws consumed: 1 for a zero, 3 for an outlier, 2 plus one per coin and one per upgrade otherwise
    ensures r.next == pos + (if s(pos) < 0.04 then 1
                             else if s(pos + 1) > 0.99 then 3
                             else if !Eligible(eaterClass, category) then 2
                             else if s(pos + 2) < 0.30 then 4
                             else 3)
  {
    if s(pos) < 0.04 then Draw(0, pos + 1)
    else if s(pos + 1) > 0.99 then Draw(RandInt(s(pos + 2), 100, 100000), pos + 3)
    else if Eligible(eaterClass, category) then
      if s(pos + 2) < 0.30 then Draw(RandInt(s(pos + 3), 2, 5), pos + 4) else Draw(1, pos + 3)
    else Draw(1, pos + 2)
  }

  /** A class with no preferring branch ('fasting', or any other tag) only ever gets 0, 1 or an outlier. */
  lemma NoUpgradeOutsideBranches(eaterClass: string, category: string, s: Stream, pos: nat)
    requires eaterClass !in ["meat_lover", "vegan", "vegetarian", "standard", "random"]
    ensures var q := Quantity(eaterClass, category, s, pos).quantity;
            q == 0 || q == 1 || 100 <= q <= 100000
  {
  }

  /** Every upgrade quantity 2..5 is produced by some draws whenever the branch is eligible. */
  lemma UpgradeReachable(eaterClass: string, category: string, pos: nat, q: int) returns (s: Stream)
    requires Eligible(eaterClass, category)
    requires 2 <= q <= 5
    ensures Quantity(eaterClass, category, s, pos).quantity == q
  {
    var u := RandIntReaches(2, 5, q);
    s := (i: nat) => if i == pos + 3 then u else if i == pos + 2 then 0.0 else 0.5;
    assert s(pos + 3) == u;
  }

  /** Every outlier quantity of [100, 100000] is produced by some draws, for every class. */
  lemma OutlierReachable(eaterClass: string, category: string, pos: nat, q: int) returns (s: Stream)
    requires 100 <= q <= 100000
    ensures Quantity(eaterClass, category, s, pos).quantity == q
  {
    var u := RandIntReaches(100, 100000, q);
    s := (i: nat) => if i == pos + 2 then u else if i == pos + 1 then 0.995 else 0.5;
    assert s(pos + 2) == u;
  }
}
