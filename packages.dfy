/** The vote-package calculator of the dashboard page (`calculatePackages` in the script embedded in
    dashboard.py): spend a budget in baht on the most expensive package first, as many of it as the
    remaining money allows, then the next one, down to the 6-baht package. Integer arithmetic only. */
module Packages {
  import opened Wrappers

  datatype Package = Package(name: string, price: nat, points: nat)

  /** The four packages, most expensive first. */
  const Catalog: seq<Package> := [
    Package("\U{0E41}\U{0E1E}\U{0E47}\U{0E04} 4,000 \U{0E1A}\U{0E32}\U{0E17}", 4000, 1000),
    Package("\U{0E41}\U{0E1E}\U{0E47}\U{0E04} 450 \U{0E1A}\U{0E32}\U{0E17}", 450, 100),
    Package("\U{0E41}\U{0E1E}\U{0E47}\U{0E04} 50 \U{0E1A}\U{0E32}\U{0E17}", 50, 10),
    Package("\U{0E41}\U{0E1E}\U{0E47}\U{0E04} 6 \U{0E1A}\U{0E32}\U{0E17}", 6, 1)
  ]

  /** The alert shown for a budget that is not positive ("please enter an amount"). */
  const AskForAmount: string :=
    "\U{0E01}\U{0E23}\U{0E38}\U{0E13}\U{0E32}\U{0E43}\U{0E2A}\U{0E48}\U{0E08}\U{0E33}\U{0E19}\U{0E27}\U{0E19}\U{0E40}\U{0E07}\U{0E34}\U{0E19}\U{0E17}\U{0E35}\U{0E48}\U{0E15}\U{0E49}\U{0E2D}\U{0E07}\U{0E01}\U{0E32}\U{0E23}"

  /** One line of `purchases`. */
  datatype Purchase = Purchase(name: string, price: nat, qty: nat, spent: nat, points: nat)

  /** The calculator's state: the purchases so far, `totalSpent`, `totalPoints` and the money left
      (`budget`, which the script decrements). */
  datatype Plan = Plan(purchases: seq<Purchase>, totalSpent: nat, totalPoints: nat, remaining: nat)

  predicate Priced(pkgs: seq<Package>)
  {
    forall k :: 0 <= k < |pkgs| ==> pkgs[k].price > 0
  }

  /** Buy `floor(remaining / price)` of one package, recording a purchase only when that is not 0. */
  function Buy(plan: Plan, pkg: Package): Plan
    requires pkg.price > 0
  {
    var qty := plan.remaining / pkg.price;
    if qty > 0 then
      Plan(plan.purchases + [Purchase(pkg.name, pkg.price, qty, qty * pkg.price, qty * pkg.points)],
           plan.totalSpent + qty * pkg.price, plan.totalPoints + qty * pkg.points, plan.remaining - qty * pkg.price)
    else plan
  }

  /** The packages taken in order. */
  function BuyAll(plan: Plan, pkgs: seq<Package>): Plan
    requires Priced(pkgs)
    decreases |pkgs|
  {
    if pkgs == [] then plan else BuyAll(Buy(plan, pkgs[0]), pkgs[1..])
  }

  /** One step of BuyAll over the catalog from package `i` on. */
  lemma BuyAllUnfold(plan: Plan, pkgs: seq<Package>, i: nat)
    requires Priced(pkgs) && i < |pkgs|
    ensures Priced(pkgs[i..]) && Priced(pkgs[i + 1..])
    ensures BuyAll(plan, pkgs[i..]) == BuyAll(Buy(plan, pkgs[i]), pkgs[i + 1..])
  {
    assert pkgs[i..][1..] == pkgs[i + 1..];
  }

  /** The greedy plan for a budget. */
  function Greedy(budget: nat): Plan
  {
    BuyAll(Plan([], 0, 0, budget), Catalog)
  }

  /** The `for (const pkg of packages)` loop: buy `Math.floor(budget / pkg.price)` of each package,
      recording a purchase when that is not 0, and take the money off the budget. */
  method BuyPackages(budget: nat, pkgs: seq<Package>) returns (plan: Plan)
    requires Priced(pkgs)
    ensures plan == BuyAll(Plan([], 0, 0, budget), pkgs)
  {
    var remaining: nat := budget;
    var totalPoints: nat := 0;
    var totalSpent: nat := 0;
    var purchases: seq<Purchase> := [];
    for i := 0 to |pkgs|
      invariant BuyAll(Plan(purchases, totalSpent, totalPoints, remaining), pkgs[i..])
             == BuyAll(Plan([], 0, 0, budget), pkgs)
    {
      ghost var before := Plan(purchases, totalSpent, totalPoints, remaining);
      var pkg := pkgs[i];
      var qty := remaining / pkg.price;
      if qty > 0 {
        var spent := qty * pkg.price;
        var points := qty * pkg.points;
        purchases := purchases + [Purchase(pkg.name, pkg.price, qty, spent, points)];
        remaining := remaining - spent;
        totalSpent := totalSpent + spent;
        totalPoints := totalPoints + points;
      }
      assert Plan(purchases, totalSpent, totalPoints, remaining) == Buy(before, pkg);
      BuyAllUnfold(before, pkgs, i);
    }
    assert pkgs[|pkgs|..] == [];
    plan := Plan(purchases, totalSpent, totalPoints, remaining);
  }

  /** `calculatePackages()`: the alert for a budget that is not positive, otherwise the greedy plan. */
  method CalculatePackages(budget: int) returns (r: Result<Plan, string>)
    ensures budget <= 0 ==> r == Failure(AskForAmount)
    ensures budget > 0 ==> r == Success(Greedy(budget))
  {
    if budget <= 0 {
      return Failure(AskForAmount);
    }
    var plan := BuyPackages(budget, Catalog);
    r := Success(plan);
  }

  function SpentOf(ps: seq<Purchase>): nat
  {
    if ps == [] then 0 else SpentOf(ps[..|ps| - 1]) + ps[|ps| - 1].spent
  }

  function PointsOf(ps: seq<Purchase>): nat
  {
    if ps == [] then 0 else PointsOf(ps[..|ps| - 1]) + ps[|ps| - 1].points
  }

  /** The bookkeeping the script's totals keep: the money spent plus the money left is the budget,
      the totals are the sums over the purchase lines, and every line buys at least one package. */
  predicate Accounted(plan: Plan, budget: nat)
  {
    plan.totalSpent + plan.remaining == budget
    && plan.totalSpent == SpentOf(plan.purchases)
    && plan.totalPoints == PointsOf(plan.purchases)
    && forall k :: 0 <= k < |plan.purchases| ==>
         plan.purchases[k].qty > 0 && plan.purchases[k].spent == plan.purchases[k].qty * plan.purchases[k].price
  }

  lemma {:induction false} BuyAllAccounted(plan: Plan, pkgs: seq<Package>, budget: nat)
    requires Priced(pkgs) && Accounted(plan, budget)
    ensures Accounted(BuyAll(plan, pkgs), budget)
    decreases |pkgs|
  {
    if pkgs != [] {
      var next := Buy(plan, pkgs[0]);
      if next != plan {
        var ps := next.purchases;
        assert ps[..|ps| - 1] == plan.purchases;
      }
      BuyAllAccounted(next, pkgs[1..], budget);
    }
  }

  /** What is left is less than the last package's price. */
  lemma {:induction false} BuyAllLeftover(plan: Plan, pkgs: seq<Package>)
    requires Priced(pkgs) && pkgs != []
    ensures BuyAll(plan, pkgs).remaining < pkgs[|pkgs| - 1].price
    decreases |pkgs|
  {
    if |pkgs| == 1 {
      assert BuyAll(plan, pkgs) == Buy(plan, pkgs[0]);
    } else {
      BuyAllLeftover(Buy(plan, pkgs[0]), pkgs[1..]);
    }
  }

  /** Buying never adds money back and never takes what was already bought away. */
  lemma {:induction false} BuyAllExtends(plan: Plan, pkgs: seq<Package>)
    requires Priced(pkgs)
    ensures BuyAll(plan, pkgs).remaining <= plan.remaining
    ensures plan.purchases <= BuyAll(plan, pkgs).purchases
    decreases |pkgs|
  {
    if pkgs != [] {
      BuyAllExtends(Buy(plan, pkgs[0]), pkgs[1..]);
    }
  }

  /** A budget of at least 6 always buys something; a smaller one buys nothing. */
  lemma {:induction false} BuyAllNothing(plan: Plan, pkgs: seq<Package>)
    requires Priced(pkgs)
    requires forall k :: 0 <= k < |pkgs| ==> plan.remaining < pkgs[k].price
    ensures BuyAll(plan, pkgs) == plan
    decreases |pkgs|
  {
    if pkgs != [] {
      assert plan.remaining / pkgs[0].price == 0;
      assert Buy(plan, pkgs[0]) == plan;
      assert Priced(pkgs[1..]) && forall k :: 0 <= k < |pkgs[1..]| ==> plan.remaining < pkgs[1..][k].price by {
        forall k | 0 <= k < |pkgs[1..]|
          ensures pkgs[1..][k] == pkgs[k + 1]
        {
        }
      }
      BuyAllNothing(plan, pkgs[1..]);
    }
  }

  /** The plan's accounts: spent + remaining == budget, the totals are the sums of the lines, every
      line buys at least one, and less than 6 baht (the cheapest package) is left. */
  lemma GreedyAccounts(budget: nat)
    ensures Accounted(Greedy(budget), budget)
    ensures Greedy(budget).remaining < 6
  {
    BuyAllAccounted(Plan([], 0, 0, budget), Catalog, budget);
    BuyAllLeftover(Plan([], 0, 0, budget), Catalog);
  }

  /** "Not enough for any package" is shown exactly when the budget is under 6 baht. */
  lemma GreedyBuysNothing(budget: nat)
    ensures Greedy(budget).purchases == [] <==> budget < 6
  {
    var start := Plan([], 0, 0, budget);
    if budget < 6 {
      BuyAllNothing(start, Catalog);
    } else {
      BuyAllAccounted(start, Catalog, budget);
      BuyAllLeftover(start, Catalog);
      assert Greedy(budget).totalSpent > 0;
    }
  }

  /** A budget between one and two prices of a package buys exactly one of it. */
  lemma BuyOne(plan: Plan, pkg: Package)
    requires 0 < pkg.price <= plan.remaining < 2 * pkg.price
    ensures Buy(plan, pkg) == Plan(plan.purchases + [Purchase(pkg.name, pkg.price, 1, pkg.price, pkg.points)],
                                   plan.totalSpent + pkg.price, plan.totalPoints + pkg.points,
                                   plan.remaining - pkg.price)
  {
    var q := plan.remaining / pkg.price;
    assert q * pkg.price <= plan.remaining < (q + 1) * pkg.price;
    assert q >= 2 ==> q * pkg.price >= 2 * pkg.price;
    assert q <= 0 ==> (q + 1) * pkg.price <= pkg.price;
  }

  /** 4,506 baht buys one of each package, for 1,111 points and nothing left. */
  lemma GreedyOneOfEach()
    ensures |Greedy(4506).purchases| == 4
    ensures forall k :: 0 <= k < 4 ==> Greedy(4506).purchases[k].qty == 1
    ensures Greedy(4506).totalPoints == 1111 && Greedy(4506).remaining == 0
  {
    var p0 := Plan([], 0, 0, 4506);
    BuyOne(p0, Catalog[0]);
    var p1 := Buy(p0, Catalog[0]);
    BuyOne(p1, Catalog[1]);
    var p2 := Buy(p1, Catalog[1]);
    BuyOne(p2, Catalog[2]);
    var p3 := Buy(p2, Catalog[2]);
    BuyOne(p3, Catalog[3]);
    var p4 := Buy(p3, Catalog[3]);
    BuyAllUnfold(p0, Catalog, 0);
    BuyAllUnfold(p1, Catalog, 1);
    BuyAllUnfold(p2, Catalog, 2);
    BuyAllUnfold(p3, Catalog, 3);
    assert Catalog[0..] == Catalog && Catalog[4..] == [];
    assert Greedy(4506) == p4;
    assert p4.purchases == p3.purchases + [p4.purchases[3]];
  }
}
