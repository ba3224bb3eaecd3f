/** How a cart is scored. Scores are reals, so the rounding of floating point is not modelled. */
module CartScores {
  import opened Carts

  /** What the score looks at besides the cost. */
  datatype Profile = Profile(items: nat, verified: nat, available: nat, merchants: nat, capability: Capability)

  function CountOf(combo: seq<Product>, good: Product -> bool): (n: nat)
    ensures n <= |combo|
  {
    if combo == [] then 0
    else CountOf(combo[..|combo| - 1], good) + if good(combo[|combo| - 1]) then 1 else 0
  }

  function Verified(combo: seq<Product>): (n: nat)
    ensures n <= |combo|
  {
    CountOf(combo, (p: Product) => p.verification == "PRODUCT_VERIFIED")
  }

  function Available(combo: seq<Product>): (n: nat)
    ensures n <= |combo|
  {
    CountOf(combo, (p: Product) => p.availability == "AVAILABLE")
  }

  function Where(combo: seq<Product>, good: Product -> bool): set<nat> {
    set i: nat | i < |combo| && good(combo[i])
  }

  lemma LastWhere(combo: seq<Product>, good: Product -> bool)
    requires combo != []
    ensures var n := |combo| - 1;
            var before := Where(combo[..n], good);
            n !in before && Where(combo, good) == if good(combo[n]) then before + {n} else before
  {
  }

  lemma {:induction false} CountIsWhere(combo: seq<Product>, good: Product -> bool)
    ensures CountOf(combo, good) == |Where(combo, good)|
  {
    if combo == [] {
      assert Where(combo, good) == {};
    } else {
      CountIsWhere(combo[..|combo| - 1], good);
      LastWhere(combo, good);
    }
  }

  /** The two counts of a profile are those of the products with these very statuses. */
  lemma ProfileCounts(combo: seq<Product>)
    ensures Verified(combo) == |set i: nat | i < |combo| && combo[i].verification == "PRODUCT_VERIFIED"|
    ensures Available(combo) == |set i: nat | i < |combo| && combo[i].availability == "AVAILABLE"|
  {
    var verified, available := (p: Product) => p.verification == "PRODUCT_VERIFIED",
        (p: Product) => p.availability == "AVAILABLE";
    CountIsWhere(combo, verified);
    CountIsWhere(combo, available);
    assert Where(combo, verified) == set i: nat | i < |combo| && combo[i].verification == "PRODUCT_VERIFIED";
    assert Where(combo, available) == set i: nat | i < |combo| && combo[i].availability == "AVAILABLE";
  }

  function ProfileOf(combo: seq<Product>): Profile {
    Profile(|combo|, Verified(combo), Available(combo), |Domains(combo)|, Composite(combo))
  }

  predicate Sensible(p: Profile) {
    p.items > 0 && p.merchants > 0 && p.verified <= p.items && p.available <= p.items
  }

  lemma ProfilesAreSensible(combo: seq<Product>)
    requires combo != []
    ensures Sensible(ProfileOf(combo))
  {
    assert combo[0].domain in Domains(combo);
  }

  function Share(count: nat, n: nat, weight: real): real
    requires n > 0
  {
    (count as real / n as real) * weight
  }

  function CapabilityScore(c: Capability): real {
    match c
    case VerifiedApi => 10.0
    case CheckoutHandoff => 7.0
    case _ => 3.0
  }

  function Ratio(cost: int, budget: int): real
    requires budget != 0
  {
    cost as real / budget as real
  }

  function Boost(chosen: bool): real {
    if chosen then 1.5 else 1.0
  }

  function BudgetScore(s: Strategy, cost: int, budget: int): real
    requires budget != 0
  {
    25.0 * (1.0 - Ratio(cost, budget) * 0.3) * Boost(s == LowestTotalPrice)
  }

  function MerchantScore(s: Strategy, merchants: nat): real
    requires merchants > 0
  {
    20.0 / merchants as real * Boost(s == FewestMerchants)
  }

  function Score(s: Strategy, cost: int, budget: int, p: Profile): real
    requires budget != 0 && p.items > 0 && p.merchants > 0
  {
    BudgetScore(s, cost, budget) + Share(p.verified, p.items, 20.0) + MerchantScore(s, p.merchants)
    + Share(p.available, p.items, 15.0) + CapabilityScore(p.capability) + 10.0
  }

  function Ceiling(s: Strategy): real {
    match s
    case LowestTotalPrice => 112.5
    case FewestMerchants => 110.0
    case _ => 100.0
  }

  lemma ShareIsBounded(count: nat, n: nat, weight: real)
    requires count <= n && n > 0 && weight > 0.0
    ensures 0.0 <= Share(count, n, weight) <= weight
  {
    var share := count as real / n as real;
    assert share * n as real == count as real;
    assert 0.0 <= share <= 1.0;
    assert 0.0 <= share * weight <= weight;
  }

  lemma RatioIsBounded(cost: int, budget: int)
    requires 0 <= cost <= budget && 0 < budget
    ensures 0.0 <= Ratio(cost, budget) <= 1.0
  {
    assert Ratio(cost, budget) * budget as real == cost as real;
  }

  lemma MerchantScoreIsBounded(s: Strategy, merchants: nat)
    requires merchants > 0
    ensures 0.0 < MerchantScore(s, merchants) <= 20.0 * Boost(s == FewestMerchants)
  {
    var x := 20.0 / merchants as real;
    assert x * merchants as real == 20.0;
  }

  lemma BudgetScoreIsBounded(s: Strategy, cost: int, budget: int)
    requires 0 <= cost <= budget && 0 < budget
    ensures 17.5 <= BudgetScore(s, cost, budget) <= 25.0 * Boost(s == LowestTotalPrice)
  {
    RatioIsBounded(cost, budget);
  }

  /** A cart within its budget scores more than 30.5, and at most a ceiling that depends on the strategy. */
  lemma ScoreBounds(s: Strategy, cost: int, budget: int, p: Profile)
    requires 0 <= cost <= budget && 0 < budget && Sensible(p)
    ensures 30.5 < Score(s, cost, budget, p) <= Ceiling(s)
  {
    BudgetScoreIsBounded(s, cost, budget);
    MerchantScoreIsBounded(s, p.merchants);
    ShareIsBounded(p.verified, p.items, 20.0);
    ShareIsBounded(p.available, p.items, 15.0);
  }

  /** The ceiling is reached by a free cart that is best in everything else. */
  lemma CeilingIsReached(s: Strategy, budget: int, n: nat)
    requires 0 < budget && n > 0
    ensures Score(s, 0, budget, Profile(n, n, n, 1, VerifiedApi)) == Ceiling(s)
  {
    assert Ratio(0, budget) * budget as real == 0.0;
    assert n as real / n as real == 1.0;
  }

  /** With everything else equal, the cheaper cart scores more exactly when the budget is positive. */
  lemma CheaperScoresMoreIff(s: Strategy, a: int, b: int, budget: int, p: Profile)
    requires a < b && budget != 0 && p.items > 0 && p.merchants > 0
    ensures Score(s, a, budget, p) > Score(s, b, budget, p) <==> budget > 0
  {
    var x, y, m := Ratio(a, budget), Ratio(b, budget), budget as real;
    assert x * m == a as real && y * m == b as real;
    assert (y - x) * m == b as real - a as real;
    if budget > 0 {
      assert y > x;
    } else {
      assert y < x;
    }
  }

  /** What one more of each earns: with the ceiling, these margins are the whole score. */
  lemma ScoreMargins(s: Strategy, cost: int, budget: int, p: Profile)
    requires budget != 0 && p.items > 0 && p.merchants > 0
    ensures Score(s, cost, budget, p.(verified := p.verified + 1)) - Score(s, cost, budget, p) == 20.0 / p.items as real
    ensures Score(s, cost, budget, p.(available := p.available + 1)) - Score(s, cost, budget, p)
         == 15.0 / p.items as real
    ensures Score(s, cost, budget, p.(merchants := 1)) - Score(s, cost, budget, p) ==
            (20.0 - 20.0 / p.merchants as real) * (if s == FewestMerchants then 1.5 else 1.0)
    ensures Score(s, cost, budget, p) - Score(s, cost + 1, budget, p) ==
            7.5 / budget as real * (if s == LowestTotalPrice then 1.5 else 1.0)
    ensures Score(s, cost, budget, p.(capability := VerifiedApi)) - Score(s, cost, budget, p) ==
            match p.capability case VerifiedApi => 0.0 case CheckoutHandoff => 3.0 case _ => 7.0
  {
    ShareMargin(p.verified, p.items, 20.0);
    ShareMargin(p.available, p.items, 15.0);
    RatioMargin(cost, budget);
  }

  lemma ShareMargin(count: nat, n: nat, weight: real)
    requires n > 0
    ensures Share(count + 1, n, weight) - Share(count, n, weight) == weight / n as real
  {
    var x, y, z := (count + 1) as real / n as real, count as real / n as real, weight / n as real;
    assert x * n as real == y * n as real + 1.0 && z * n as real == weight;
    assert (x - y) * n as real == 1.0;
    assert ((x - y) * weight - z) * n as real == 0.0;
  }

  lemma RatioMargin(cost: int, budget: int)
    requires budget != 0
    ensures (Ratio(cost + 1, budget) - Ratio(cost, budget)) * 7.5 == 7.5 / budget as real
  {
    var x, y, z, m := Ratio(cost + 1, budget), Ratio(cost, budget), 7.5 / budget as real, budget as real;
    assert x * m == y * m + 1.0 && z * m == 7.5;
    assert ((x - y) * 7.5 - z) * m == 0.0;
  }

  /** At least as good in everything the score looks at. */
  predicate AtLeastAsGood(a: Profile, costA: int, b: Profile, costB: int) {
    && a.items == b.items && costA <= costB
    && a.verified >= b.verified && a.available >= b.available && a.merchants <= b.merchants
    && CapabilityScore(a.capability) >= CapabilityScore(b.capability)
  }

  /** The same in everything the score looks at. */
  predicate AsGood(a: Profile, costA: int, b: Profile, costB: int) {
    AtLeastAsGood(a, costA, b, costB) && AtLeastAsGood(b, costB, a, costA)
  }

  lemma ShareGrows(a: nat, b: nat, n: nat, weight: real)
    requires a >= b && n > 0 && weight > 0.0
    ensures Share(a, n, weight) >= Share(b, n, weight)
    ensures a > b ==> Share(a, n, weight) > Share(b, n, weight)
  {
    var x, y := a as real / n as real, b as real / n as real;
    assert x * n as real == a as real && y * n as real == b as real;
    assert (x - y) * n as real == a as real - b as real;
    assert x >= y && (a > b ==> x > y);
    assert (x - y) * weight == Share(a, n, weight) - Share(b, n, weight);
  }

  lemma FewerMerchantsScoreMore(s: Strategy, a: nat, b: nat)
    requires 0 < a <= b
    ensures MerchantScore(s, a) >= MerchantScore(s, b)
    ensures a < b ==> MerchantScore(s, a) > MerchantScore(s, b)
  {
    var x, y := 20.0 / a as real, 20.0 / b as real;
    assert x * a as real == 20.0 && y * b as real == 20.0;
    assert (x - y) * a as real == y * (b as real - a as real);
    assert y > 0.0;
  }

  lemma CheaperScoresMore(s: Strategy, a: int, b: int, budget: int)
    requires a <= b && 0 < budget
    ensures BudgetScore(s, a, budget) >= BudgetScore(s, b, budget)
    ensures a < b ==> BudgetScore(s, a, budget) > BudgetScore(s, b, budget)
  {
    var x, y, m := Ratio(a, budget), Ratio(b, budget), budget as real;
    assert x * m == a as real && y * m == b as real;
    assert (y - x) * m == b as real - a as real;
  }

  /** Under a positive budget, a cart at least as good in everything scores at least as much, and more if it differs. */
  lemma BetterScoresMore(s: Strategy, budget: int, a: Profile, costA: int, b: Profile, costB: int)
    requires 0 < budget && Sensible(a) && Sensible(b) && AtLeastAsGood(a, costA, b, costB)
    ensures Score(s, costA, budget, a) >= Score(s, costB, budget, b)
    ensures !AsGood(a, costA, b, costB) ==> Score(s, costA, budget, a) > Score(s, costB, budget, b)
  {
    CheaperScoresMore(s, costA, costB, budget);
    FewerMerchantsScoreMore(s, a.merchants, b.merchants);
    ShareGrows(a.verified, b.verified, a.items, 20.0);
    ShareGrows(a.available, b.available, a.items, 15.0);
  }

  lemma AvailableIff(combo: seq<Product>)
    ensures Available(combo) > 0 <==> exists p :: p in combo && p.availability == "AVAILABLE"
  {
    ProfileCounts(combo);
    var places := set i: nat | i < |combo| && combo[i].availability == "AVAILABLE";
    if p :| p in combo && p.availability == "AVAILABLE" {
      var i :| 0 <= i < |combo| && combo[i] == p;
      assert i in places;
    } else {
      assert places == {};
    }
  }

  /**
    Availability raises the score of a combination, over that of the same profile with nothing available,
    exactly if some product in it has the status "AVAILABLE".
   */
  lemma AvailabilityEarnsIff(s: Strategy, cost: int, budget: int, combo: seq<Product>)
    requires combo != [] && budget != 0
    ensures Sensible(ProfileOf(combo))
    ensures Score(s, cost, budget, ProfileOf(combo)) > Score(s, cost, budget, ProfileOf(combo).(available := 0))
            <==> exists p :: p in combo && p.availability == "AVAILABLE"
  {
    ProfilesAreSensible(combo);
    AvailableIff(combo);
    var n, k := |combo| as real, Available(combo) as real;
    assert (k / n) * n == k;
    assert k / n > 0.0 <==> k > 0.0;
    assert Share(0, |combo|, 15.0) == 0.0;
  }

  /**
    The score looks for availability "AVAILABLE", which the product model does not list among its statuses,
    so a cart of products that keep to the listed ones never earns the 15 availability points.
   */
  lemma ListedAvailabilityEarnsNothing(s: Strategy, cost: int, budget: int, combo: seq<Product>)
    requires combo != [] && 0 <= cost <= budget && 0 < budget
    requires forall p :: p in combo ==> p.availability in {"IN_STOCK", "OUT_OF_STOCK", "UNKNOWN"}
    ensures Sensible(ProfileOf(combo))
    ensures Score(s, cost, budget, ProfileOf(combo)) <= Ceiling(s) - 15.0
  {
    ProfilesAreSensible(combo);
    AvailableIff(combo);
    NothingAvailableScores(s, cost, budget, ProfileOf(combo));
  }

  lemma NothingAvailableScores(s: Strategy, cost: int, budget: int, p: Profile)
    requires 0 <= cost <= budget && 0 < budget && Sensible(p) && p.available == 0
    ensures Score(s, cost, budget, p) <= Ceiling(s) - 15.0
  {
    BudgetScoreIsBounded(s, cost, budget);
    MerchantScoreIsBounded(s, p.merchants);
    ShareIsBounded(p.verified, p.items, 20.0);
    assert Share(0, p.items, 15.0) == 0.0;
  }
}

/** Sorting by score, highest first, keeping the order of equal scores. */
module CartRanking {
  import opened Carts

  datatype Cart = Cart(
    items: seq<Product>, quantities: seq<int>, domains: set<string>, cost: Cost, capability: Capability, score: real)

  function Insert(s: seq<Cart>, c: Cart): seq<Cart> {
    if s == [] || s[|s| - 1].score >= c.score then s + [c]
    else Insert(s[..|s| - 1], c) + [s[|s| - 1]]
  }

  function Ranked(s: seq<Cart>): seq<Cart> {
    if s == [] then [] else Insert(Ranked(s[..|s| - 1]), s[|s| - 1])
  }

  predicate Descending(s: seq<Cart>) {
    forall i, j :: 0 <= i < j < |s| ==> s[i].score >= s[j].score
  }

  function Scoring(s: seq<Cart>, v: real): seq<Cart> {
    if s == [] then []
    else
      var rest := Scoring(s[..|s| - 1], v);
      if s[|s| - 1].score == v then rest + [s[|s| - 1]] else rest
  }

  lemma {:induction false} InsertAdds(s: seq<Cart>, c: Cart)
    ensures multiset(Insert(s, c)) == multiset(s) + multiset{c}
  {
    if s != [] {
      InsertAdds(s[..|s| - 1], c);
      assert s == s[..|s| - 1] + [s[|s| - 1]];
    }
  }

  lemma {:induction false} InsertIsAtLeast(s: seq<Cart>, c: Cart, low: real)
    requires c.score >= low && forall d :: d in s ==> d.score >= low
    ensures forall d :: d in Insert(s, c) ==> d.score >= low
  {
    if s != [] {
      InsertIsAtLeast(s[..|s| - 1], c, low);
    }
  }

  lemma {:induction false} InsertSorts(s: seq<Cart>, c: Cart)
    requires Descending(s)
    ensures Descending(Insert(s, c))
  {
    if s != [] && s[|s| - 1].score < c.score {
      InsertSorts(s[..|s| - 1], c);
      InsertIsAtLeast(s[..|s| - 1], c, s[|s| - 1].score);
    }
  }

  lemma {:induction false} InsertIsStable(s: seq<Cart>, c: Cart, v: real)
    requires Descending(s)
    ensures Scoring(Insert(s, c), v) == if c.score == v then Scoring(s, v) + [c] else Scoring(s, v)
  {
    if s == [] || s[|s| - 1].score >= c.score {
      assert (s + [c])[..|s|] == s;
    } else {
      var init, last := s[..|s| - 1], s[|s| - 1];
      InsertIsStable(init, c, v);
      assert (Insert(init, c) + [last])[..|Insert(init, c)|] == Insert(init, c);
      if c.score == v {
        NothingBelow(init, last, v);
      }
    }
  }

  lemma NothingBelow(init: seq<Cart>, last: Cart, v: real)
    requires last.score < v
    ensures Scoring(init + [last], v) == Scoring(init, v)
  {
    assert (init + [last])[..|init|] == init;
  }

  /** Ranking sorts, and loses and invents nothing. */
  lemma {:induction false} RankedSorts(s: seq<Cart>)
    ensures Descending(Ranked(s)) && multiset(Ranked(s)) == multiset(s)
  {
    if s != [] {
      var init, last := s[..|s| - 1], s[|s| - 1];
      RankedSorts(init);
      InsertSorts(Ranked(init), last);
      InsertAdds(Ranked(init), last);
      assert s == init + [last];
    }
  }

  /** Carts with equal scores keep their order. */
  lemma {:induction false} RankedIsStable(s: seq<Cart>, v: real)
    ensures Scoring(Ranked(s), v) == Scoring(s, v)
  {
    if s != [] {
      RankedIsStable(s[..|s| - 1], v);
      RankedSorts(s[..|s| - 1]);
      InsertIsStable(Ranked(s[..|s| - 1]), s[|s| - 1], v);
    }
  }
}

/** The search itself: every combination of the first five candidates for each item. */
module CartOptimizers {
  import opened Outcomes
  import opened Carts
  import opened Combinations
  import opened CartScores
  import opened CartRanking

  datatype Optimization = Optimization(evaluated: nat, feasible: seq<Cart>, best: Option<Cart>)

  datatype Failure = ZeroDivision

  type Candidates = map<string, seq<Product>>

  function Found(r: Request, candidates: Candidates): seq<seq<Product>> {
    seq(|r.items|, i requires 0 <= i < |r.items| =>
      if r.items[i].query in candidates then candidates[r.items[i].query] else [])
  }

  function Top(l: seq<Product>): seq<Product> {
    if |l| <= 5 then l else l[..5]
  }

  function Pruned(r: Request, candidates: Candidates): (lists: seq<seq<Product>>)
    ensures |lists| == |r.items|
  {
    var found := Found(r, candidates);
    seq(|found|, i requires 0 <= i < |found| => Top(found[i]))
  }

  predicate Searchable(r: Request, candidates: Candidates) {
    r.items != [] && forall l :: l in Found(r, candidates) ==> l != []
  }

  predicate Feasible(r: Request, combo: seq<Product>)
    requires |combo| == |r.items|
  {
    CostOf(r, combo) <= r.budget && |Domains(combo)| <= r.maxMerchants
  }

  function CostSummary(total: int): Cost {
    Cost(total, None, None, 0, total, Unknown(None, None))
  }

  function CartOf(r: Request, combo: seq<Product>): Cart
    requires |combo| == |r.items| && combo != [] && r.budget != 0
  {
    ProfilesAreSensible(combo);
    Cart(combo, Quantities(r), Domains(combo), CostSummary(CostOf(r, combo)), Composite(combo),
         Score(r.strategy, CostOf(r, combo), r.budget, ProfileOf(combo)))
  }

  /** Combinations of one product for each item. */
  predicate Fitting(r: Request, combos: seq<seq<Product>>) {
    r.items != [] && forall c :: c in combos ==> |c| == |r.items|
  }

  /** The search stops at the first feasible combination if the budget is zero, so it needs none. */
  predicate Scorable(r: Request, combos: seq<seq<Product>>)
    requires Fitting(r, combos)
  {
    r.budget != 0 || forall c :: c in combos ==> !Feasible(r, c)
  }

  function Kept(r: Request, combos: seq<seq<Product>>): seq<Cart>
    requires Fitting(r, combos) && Scorable(r, combos)
  {
    if combos == [] then []
    else
      var last := combos[|combos| - 1];
      assert last in combos;
      var rest := Kept(r, combos[..|combos| - 1]);
      if Feasible(r, last) then rest + [CartOf(r, last)] else rest
  }

  function First(s: seq<Cart>): Option<Cart> {
    if s == [] then None else Some(s[0])
  }

  lemma PrunedFits(r: Request, candidates: Candidates)
    requires r.items != []
    ensures Fitting(r, Combine(Pruned(r, candidates)))
  {
    forall c | c in Combine(Pruned(r, candidates)) ensures |c| == |r.items| {
      CombineMembers(Pruned(r, candidates), c);
    }
  }

  /** What optimize_cart returns; the ranking of the kept carts is the library's stable sort. */
  function Optimized(r: Request, candidates: Candidates): Result<Optimization, Failure> {
    if !Searchable(r, candidates) then Ok(Optimization(0, [], None))
    else
      var combos := Combine(Pruned(r, candidates));
      PrunedFits(r, candidates);
      if !Scorable(r, combos) then Err(ZeroDivision)
      else
        var ranked := Ranked(Kept(r, combos));
        Ok(Optimization(|combos|, ranked, First(ranked)))
  }

  /** What the cart of a combination says. */
  predicate Shows(r: Request, combo: seq<Product>, c: Cart)
    requires |combo| == |r.items|
  {
    && c.items == combo && |c.quantities| == |r.items|
    && (forall i :: 0 <= i < |r.items| ==> c.quantities[i] == r.items[i].quantity)
    && c.domains == (set p | p in combo :: p.domain) && c.capability == Composite(combo)
    && c.cost.subtotal == c.cost.total == Subtotal(combo, c.quantities, |combo|)
    && c.cost.shipping == c.cost.tax == None && c.cost.unknown == ["SHIPPING_COST", "MERCHANT_TAX"]
    && r.budget != 0 && Sensible(ProfileOf(combo))
    && c.score == Score(r.strategy, c.cost.total, r.budget, ProfileOf(combo))
  }

  /** One combination: its cart, if it is feasible. */
  method Evaluate(r: Request, combo: seq<Product>) returns (cart: Result<Option<Cart>, Failure>)
    requires |combo| == |r.items| && combo != []
    ensures var within := CostOf(r, combo) <= r.budget && |set p | p in combo :: p.domain| <= r.maxMerchants;
            cart == if !within then Ok(None)
                    else if r.budget == 0 then Err(ZeroDivision)
                    else Ok(Some(CartOf(r, combo)))
    ensures cart.Ok? && cart.value.Some? ==> Shows(r, combo, cart.value.value)
  {
    var cost := CalculateCartCost(combo, Quantities(r), None, None);
    if cost.total > r.budget {
      return Ok(None);
    }
    var domains := Domains(combo);
    if |domains| > r.maxMerchants {
      return Ok(None);
    }
    if r.budget == 0 {
      return Err(ZeroDivision);
    }
    ProfilesAreSensible(combo);
    var score := Score(r.strategy, cost.total, r.budget, ProfileOf(combo));
    return Ok(Some(Cart(combo, Quantities(r), domains, cost, Composite(combo), score)));
  }

  lemma KeepNext(r: Request, combos: seq<seq<Product>>, n: nat)
    requires Fitting(r, combos) && n < |combos| && Scorable(r, combos[..n])
    ensures Scorable(r, combos[..n + 1]) <==> !(r.budget == 0 && Feasible(r, combos[n]))
    ensures Scorable(r, combos[..n + 1]) ==>
              Kept(r, combos[..n + 1]) ==
                Kept(r, combos[..n]) + (if Feasible(r, combos[n]) then [CartOf(r, combos[n])] else [])
  {
    var next := combos[..n + 1];
    assert next[..n] == combos[..n] && next[n] == combos[n];
    assert forall c :: c in next <==> c in combos[..n] || c == combos[n];
  }

  method Search(r: Request, combos: seq<seq<Product>>)
    returns (evaluated: nat, feasible: seq<Cart>, failed: bool)
    requires Fitting(r, combos)
    ensures failed <==> !Scorable(r, combos)
    ensures !failed ==> evaluated == |combos| && feasible == Kept(r, combos)
  {
    evaluated, feasible := 0, [];
    while evaluated < |combos|
      invariant evaluated <= |combos|
      invariant Scorable(r, combos[..evaluated]) && feasible == Kept(r, combos[..evaluated])
    {
      KeepNext(r, combos, evaluated);
      var cart := Evaluate(r, combos[evaluated]);
      if cart.Err? {
        return evaluated, [], true;
      }
      if cart.value.Some? {
        feasible := feasible + [cart.value.value];
      }
      evaluated := evaluated + 1;
    }
    assert combos[..|combos|] == combos;
    failed := false;
  }

  method OptimizeCart(r: Request, candidates: Candidates) returns (result: Result<Optimization, Failure>)
    ensures result == Optimized(r, candidates)
  {
    var lists := Found(r, candidates);
    if lists == [] || exists l :: l in lists && l == [] {
      return Ok(Optimization(0, [], None));
    }
    PrunedFits(r, candidates);
    var evaluated, feasible, failed := Search(r, Combine(Pruned(r, candidates)));
    if failed {
      return Err(ZeroDivision);
    }
    feasible := Ranked(feasible);
    return Ok(Optimization(evaluated, feasible, First(feasible)));
  }

  // ---------------------------------------------------------------------------------------------
  // Soundness, completeness, optimality
  // ---------------------------------------------------------------------------------------------

  /** How many of the carts are made of exactly these products. */
  function CartsFor(carts: seq<Cart>, combo: seq<Product>): nat {
    if carts == [] then 0
    else CartsFor(carts[..|carts| - 1], combo) + if carts[|carts| - 1].items == combo then 1 else 0
  }

  /** Every kept cart is the one computed for its products. */
  lemma {:induction false} KeptAreCarts(r: Request, combos: seq<seq<Product>>)
    requires Fitting(r, combos) && Scorable(r, combos)
    ensures forall c :: c in Kept(r, combos) ==>
              |c.items| == |r.items| && c.items != [] && r.budget != 0 && c == CartOf(r, c.items)
  {
    if combos != [] {
      assert combos[|combos| - 1] in combos;
      KeptAreCarts(r, combos[..|combos| - 1]);
    }
  }

  lemma {:induction false} KeptCounts(r: Request, combos: seq<seq<Product>>, combo: seq<Product>)
    requires Fitting(r, combos) && Scorable(r, combos)
    ensures CartsFor(Kept(r, combos), combo) ==
            if |combo| == |r.items| && Feasible(r, combo) then Count(combos, combo) else 0
  {
    if combos != [] {
      var init, last := combos[..|combos| - 1], combos[|combos| - 1];
      assert last in combos;
      KeptCounts(r, init, combo);
      CountFromTheEnd(combos, combo);
      if Feasible(r, last) {
        assert Kept(r, combos) == Kept(r, init) + [CartOf(r, last)];
        assert CartOf(r, last).items == last;
      } else {
        assert Kept(r, combos) == Kept(r, init);
      }
    }
  }

  lemma {:induction false} CartsForAppend(a: seq<Cart>, b: seq<Cart>, combo: seq<Product>)
    ensures CartsFor(a + b, combo) == CartsFor(a, combo) + CartsFor(b, combo)
  {
    if b == [] {
      assert a + b == a;
    } else {
      assert (a + b)[..|a + b| - 1] == a + b[..|b| - 1];
      CartsForAppend(a, b[..|b| - 1], combo);
    }
  }

  lemma {:induction false} InsertKeepsCounts(s: seq<Cart>, c: Cart, combo: seq<Product>)
    ensures CartsFor(Insert(s, c), combo) == CartsFor(s, combo) + CartsFor([c], combo)
  {
    if s == [] || s[|s| - 1].score >= c.score {
      CartsForAppend(s, [c], combo);
    } else {
      var init, last := s[..|s| - 1], s[|s| - 1];
      InsertKeepsCounts(init, c, combo);
      CartsForAppend(Insert(init, c), [last], combo);
    }
  }

  lemma {:induction false} RankedKeepsCounts(s: seq<Cart>, combo: seq<Product>)
    ensures CartsFor(Ranked(s), combo) == CartsFor(s, combo)
  {
    if s != [] {
      RankedKeepsCounts(s[..|s| - 1], combo);
      InsertKeepsCounts(Ranked(s[..|s| - 1]), s[|s| - 1], combo);
    }
  }

  /** One of the first five of the list. */
  predicate OneOfFive(l: seq<Product>, p: Product) {
    exists j :: 0 <= j < 5 && j < |l| && l[j] == p
  }

  /** The combinations a cart can be made of, said without the search: one of the first five found, per item. */
  predicate Candidate(r: Request, candidates: Candidates, combo: seq<Product>) {
    && |combo| == |r.items| > 0
    && forall i :: 0 <= i < |combo| ==>
         r.items[i].query in candidates && OneOfFive(candidates[r.items[i].query], combo[i])
  }

  /** Where the product stands among the first five found for item i. */
  function FoundAt(r: Request, candidates: Candidates, i: nat, p: Product): set<nat>
    requires i < |r.items|
  {
    if r.items[i].query in candidates then
      set j: nat | j < 5 && j < |candidates[r.items[i].query]| && candidates[r.items[i].query][j] == p
    else {}
  }

  /** In how many ways the combination can be found from item i on. */
  function WaysToFind(r: Request, candidates: Candidates, combo: seq<Product>, i: nat): nat
    requires i <= |combo| == |r.items|
    decreases |combo| - i
  {
    if i == |combo| then 1
    else |FoundAt(r, candidates, i, combo[i])| * WaysToFind(r, candidates, combo, i + 1)
  }

  /** The product of the numbers of candidates from item i on, five at most for each. */
  function SearchSize(r: Request, candidates: Candidates, i: nat): nat
    requires i <= |r.items|
    decreases |r.items| - i
  {
    if i == |r.items| then 1
    else
      var n := if r.items[i].query in candidates then |candidates[r.items[i].query]| else 0;
      (if n < 5 then n else 5) * SearchSize(r, candidates, i + 1)
  }

  lemma PrunedAt(r: Request, candidates: Candidates, i: nat)
    requires i < |r.items| && r.items[i].query in candidates
    ensures var l := candidates[r.items[i].query];
            Found(r, candidates)[i] == l && Pruned(r, candidates)[i] == l[..if |l| < 5 then |l| else 5]
  {
  }

  lemma PrunedHolds(r: Request, candidates: Candidates, i: nat, p: Product)
    requires i < |r.items|
    ensures p in Pruned(r, candidates)[i] <==>
            r.items[i].query in candidates && OneOfFive(candidates[r.items[i].query], p)
  {
    if r.items[i].query in candidates {
      PrunedAt(r, candidates, i);
    }
  }

  /** The pruned lists are searched for exactly the candidate combinations. */
  lemma CandidateIff(r: Request, candidates: Candidates, combo: seq<Product>)
    ensures Candidate(r, candidates, combo) <==> Searchable(r, candidates) && Picks(Pruned(r, candidates), combo)
  {
    if |combo| == |r.items| {
      forall i | 0 <= i < |combo|
        ensures combo[i] in Pruned(r, candidates)[i] <==>
                r.items[i].query in candidates && OneOfFive(candidates[r.items[i].query], combo[i])
      {
        PrunedHolds(r, candidates, i, combo[i]);
      }
      if Candidate(r, candidates, combo) {
        forall l | l in Found(r, candidates) ensures l != [] {
          var i :| 0 <= i < |r.items| && Found(r, candidates)[i] == l;
          PrunedAt(r, candidates, i);
        }
      }
    }
  }

  lemma FoundAtIsCounted(r: Request, candidates: Candidates, i: nat, p: Product)
    requires i < |r.items|
    ensures Count(Pruned(r, candidates)[i], p) == |FoundAt(r, candidates, i, p)|
  {
    CountIsPlaces(Pruned(r, candidates)[i], p);
    if r.items[i].query in candidates {
      PrunedAt(r, candidates, i);
    }
    assert Places(Pruned(r, candidates)[i], p) == FoundAt(r, candidates, i, p);
  }

  lemma {:induction false} WaysAreWaysToFind(r: Request, candidates: Candidates, combo: seq<Product>, i: nat)
    requires i <= |combo| == |r.items|
    ensures Ways(Pruned(r, candidates)[i..], combo[i..]) == WaysToFind(r, candidates, combo, i)
    decreases |combo| - i
  {
    if i < |combo| {
      FoundAtIsCounted(r, candidates, i, combo[i]);
      WaysAreWaysToFind(r, candidates, combo, i + 1);
      assert Pruned(r, candidates)[i..][1..] == Pruned(r, candidates)[i + 1..] && combo[i..][1..] == combo[i + 1..];
    }
  }

  lemma {:induction false} SizesAreSearchSize(r: Request, candidates: Candidates, i: nat)
    requires i <= |r.items|
    ensures Sizes(Pruned(r, candidates)[i..]) == SearchSize(r, candidates, i)
    decreases |r.items| - i
  {
    if i < |r.items| {
      SizesAreSearchSize(r, candidates, i + 1);
      assert Pruned(r, candidates)[i..][1..] == Pruned(r, candidates)[i + 1..];
      if r.items[i].query in candidates {
        PrunedAt(r, candidates, i);
      }
    }
  }

  lemma {:induction false} EmptyListEmptiesTheSearch(r: Request, candidates: Candidates, i: nat)
    requires i <= |r.items| && exists k :: i <= k < |r.items| && Found(r, candidates)[k] == []
    ensures SearchSize(r, candidates, i) == 0
    decreases |r.items| - i
  {
    if Found(r, candidates)[i] != [] {
      EmptyListEmptiesTheSearch(r, candidates, i + 1);
    }
  }

  /** Without an item, or with nothing found for one, nothing is searched. */
  lemma NothingToSearch(r: Request, candidates: Candidates)
    requires !Searchable(r, candidates)
    ensures r.items == [] || SearchSize(r, candidates, 0) == 0
  {
    if r.items != [] {
      var l :| l in Found(r, candidates) && l == [];
      var k :| 0 <= k < |r.items| && Found(r, candidates)[k] == l;
      EmptyListEmptiesTheSearch(r, candidates, 0);
    }
  }

  /** The search divides by a zero budget exactly when some candidate combination passes both filters. */
  lemma FailsIff(r: Request, candidates: Candidates)
    ensures Optimized(r, candidates).Err? <==>
            r.budget == 0 && exists combo :: Candidate(r, candidates, combo) && Feasible(r, combo)
  {
    var combos := Combine(Pruned(r, candidates));
    if Searchable(r, candidates) {
      PrunedFits(r, candidates);
      forall combo ensures combo in combos <==> Candidate(r, candidates, combo) {
        CombineMembers(Pruned(r, candidates), combo);
        CandidateIff(r, candidates, combo);
      }
    } else {
      forall combo ensures !Candidate(r, candidates, combo) {
        CandidateIff(r, candidates, combo);
      }
    }
  }

  /** A free product is feasible under a budget of zero, and the search for it raises. */
  lemma FreeProductFailsUnderZeroBudget() returns (r: Request, candidates: Candidates)
    ensures r.budget == 0 && Optimized(r, candidates) == Err(ZeroDivision)
  {
    var p := Product("p", 0, "d", "UNVERIFIED", "UNKNOWN", DiscoveryOnly);
    r, candidates := Request([Item("q", 1)], 0, 1, BestValue), map["q" := [p]];
    assert Found(r, candidates) == [[p]] && Pruned(r, candidates) == [[p]];
    assert Quantities(r) == [1];
    assert Subtotal([p], [1], 1) == Subtotal([p], [1], 0) + 0 * 1;
    assert Domains([p]) == {"d"};
    assert Candidate(r, candidates, [p]) && Feasible(r, [p]);
    FailsIff(r, candidates);
  }

  lemma SearchIsCounted(r: Request, candidates: Candidates, combo: seq<Product>)
    requires Searchable(r, candidates)
    ensures var lists := Pruned(r, candidates);
            && |Combine(lists)| == SearchSize(r, candidates, 0)
            && Count(Combine(lists), combo) ==
                 if Candidate(r, candidates, combo) then WaysToFind(r, candidates, combo, 0) else 0
  {
    var lists := Pruned(r, candidates);
    CombineLength(lists);
    SizesAreSearchSize(r, candidates, 0);
    assert lists[0..] == lists && combo[0..] == combo;
    CombineCounts(lists, combo);
    CandidateIff(r, candidates, combo);
    if |combo| == |lists| {
      WaysToPick(lists, combo);
      WaysAreWaysToFind(r, candidates, combo, 0);
    }
  }

  /**
    Sound and complete: a combination has as many feasible carts as there are ways to find it among the first
    five candidates of each item if it passes both filters, and none otherwise; every cart is the one computed
    for its products; and the count of evaluated candidates is the product of their numbers.
   */
  lemma SearchIsExact(r: Request, candidates: Candidates, combo: seq<Product>)
    requires Optimized(r, candidates).Ok?
    ensures var result := Optimized(r, candidates).value;
            && CartsFor(result.feasible, combo) ==
                 (if Candidate(r, candidates, combo) && Feasible(r, combo) then WaysToFind(r, candidates, combo, 0)
                  else 0)
            && (forall c :: c in result.feasible ==>
                 |c.items| == |r.items| && c.items != [] && r.budget != 0 && c == CartOf(r, c.items))
            && result.evaluated == (if r.items == [] then 0 else SearchSize(r, candidates, 0))
  {
    CandidateIff(r, candidates, combo);
    if !Searchable(r, candidates) {
      NothingToSearch(r, candidates);
    } else {
      SearchIsCounted(r, candidates, combo);
      var lists := Pruned(r, candidates);
      var combos := Combine(lists);
      PrunedFits(r, candidates);
      KeptAreCarts(r, combos);
      KeptCounts(r, combos, combo);
      RankedSorts(Kept(r, combos));
      RankedKeepsCounts(Kept(r, combos), combo);
      forall c | c in Ranked(Kept(r, combos)) ensures c in Kept(r, combos) {
        assert c in multiset(Ranked(Kept(r, combos)));
      }
    }
  }

  lemma {:induction false} CountedCartIsThere(carts: seq<Cart>, combo: seq<Product>)
    requires CartsFor(carts, combo) > 0
    ensures exists c :: c in carts && c.items == combo
  {
    if carts[|carts| - 1].items != combo {
      CountedCartIsThere(carts[..|carts| - 1], combo);
    }
  }

  lemma FeasibleCandidateIsListed(r: Request, candidates: Candidates, combo: seq<Product>)
    requires Optimized(r, candidates).Ok? && Candidate(r, candidates, combo) && Feasible(r, combo)
    ensures combo != [] && r.budget != 0 && CartOf(r, combo) in Optimized(r, candidates).value.feasible
  {
    SearchIsExact(r, candidates, combo);
    CandidateIff(r, candidates, combo);
    WaysToPick(Pruned(r, candidates), combo);
    WaysAreWaysToFind(r, candidates, combo, 0);
    assert Pruned(r, candidates)[0..] == Pruned(r, candidates) && combo[0..] == combo;
    CountedCartIsThere(Optimized(r, candidates).value.feasible, combo);
  }

  /**
    The recommended cart scores at least what every feasible candidate combination scores, and there is one
    whenever there is such a combination.
   */
  lemma BestIsOptimal(r: Request, candidates: Candidates, combo: seq<Product>)
    requires Optimized(r, candidates).Ok? && Candidate(r, candidates, combo) && Feasible(r, combo)
    ensures var result := Optimized(r, candidates).value;
            && Descending(result.feasible)
            && result.best.Some? && result.best.value in result.feasible
            && combo != [] && r.budget != 0 && CartOf(r, combo).score <= result.best.value.score
  {
    FeasibleCandidateIsListed(r, candidates, combo);
    PrunedFits(r, candidates);
    RankedSorts(Kept(r, Combine(Pruned(r, candidates))));
  }

  lemma {:induction false} TopIsFirstOfItsScore(s: seq<Cart>)
    requires s != []
    ensures Scoring(s, s[0].score) != [] && Scoring(s, s[0].score)[0] == s[0]
  {
    if |s| > 1 {
      TopIsFirstOfItsScore(s[..|s| - 1]);
    }
  }

  lemma KeptLast(r: Request, combos: seq<seq<Product>>, v: real)
    requires combos != [] && Fitting(r, combos) && Scorable(r, combos)
    ensures var init, last := combos[..|combos| - 1], combos[|combos| - 1];
            && last in combos && Fitting(r, init) && Scorable(r, init)
            && (Feasible(r, last) ==> r.budget != 0)
            && Scoring(Kept(r, combos), v) ==
                 if Feasible(r, last) && CartOf(r, last).score == v then Scoring(Kept(r, init), v) + [CartOf(r, last)]
                 else Scoring(Kept(r, init), v)
  {
    var init, last := combos[..|combos| - 1], combos[|combos| - 1];
    assert last in combos;
    var kept := Kept(r, init);
    if Feasible(r, last) {
      assert (kept + [CartOf(r, last)])[..|kept|] == kept;
    }
  }

  predicate ScoresOtherwise(r: Request, combo: seq<Product>, v: real)
    requires |combo| == |r.items| && combo != []
  {
    r.budget != 0 && CartOf(r, combo).score != v
  }

  /** The first kept cart with a given score, by where its combination stands. */
  lemma {:induction false} FirstKept(r: Request, combos: seq<seq<Product>>, v: real) returns (j: nat)
    requires Fitting(r, combos) && Scorable(r, combos) && Scoring(Kept(r, combos), v) != []
    ensures j < |combos| && Feasible(r, combos[j]) && r.budget != 0
    ensures combos[j] != [] && CartOf(r, combos[j]) == Scoring(Kept(r, combos), v)[0]
    ensures forall i: nat :: i < j && Feasible(r, combos[i]) ==> ScoresOtherwise(r, combos[i], v)
  {
    var n := |combos| - 1;
    var init, last := combos[..n], combos[n];
    assert last in combos;
    KeptLast(r, combos, v);
    if Scoring(Kept(r, init), v) != [] {
      j := FirstKept(r, init, v);
      assert forall i: nat :: i < j ==> init[i] == combos[i];
    } else {
      j := n;
      forall i: nat | i < j && Feasible(r, combos[i]) ensures ScoresOtherwise(r, combos[i], v) {
        assert init[i] == combos[i];
        NoneKept(r, init, v, i);
      }
    }
  }

  lemma {:induction false} NoneKept(r: Request, combos: seq<seq<Product>>, v: real, i: nat)
    requires Fitting(r, combos) && Scorable(r, combos) && Scoring(Kept(r, combos), v) == []
    requires i < |combos| && combos[i] in combos && Feasible(r, combos[i])
    ensures combos[i] != [] && ScoresOtherwise(r, combos[i], v)
  {
    KeptLast(r, combos, v);
    if i < |combos| - 1 {
      assert combos[..|combos| - 1][i] == combos[i];
      NoneKept(r, combos[..|combos| - 1], v, i);
    }
  }

  /** Of the feasible combinations with the best score the one found first is recommended. */
  lemma BestIsFoundFirst(r: Request, candidates: Candidates) returns (j: nat)
    requires Optimized(r, candidates).Ok? && Optimized(r, candidates).value.best.Some?
    ensures var combos, best := Combine(Pruned(r, candidates)), Optimized(r, candidates).value.best.value;
            && Fitting(r, combos) && j < |combos| && combos[j] == best.items && Feasible(r, combos[j])
            && forall i: nat :: i < j && Feasible(r, combos[i]) ==>
                 combos[i] != [] && r.budget != 0 && CartOf(r, combos[i]).score < best.score
  {
    var combos, best := Combine(Pruned(r, candidates)), Optimized(r, candidates).value.best.value;
    PrunedFits(r, candidates);
    var kept := Kept(r, combos);
    TopIsFirstOfItsScore(Ranked(kept));
    RankedIsStable(kept, best.score);
    j := FirstKept(r, combos, best.score);
    forall i: nat | i < j && Feasible(r, combos[i]) ensures CartOf(r, combos[i]).score < best.score {
      assert combos[i] in combos;
      CombineMembers(Pruned(r, candidates), combos[i]);
      CandidateIff(r, candidates, combos[i]);
      BestIsOptimal(r, candidates, combos[i]);
    }
  }

  /** Under a positive budget, no feasible combination with the recommended cart's profile is cheaper. */
  lemma NoCheaperCartWithTheSameProfile(r: Request, candidates: Candidates, combo: seq<Product>)
    requires Optimized(r, candidates).Ok? && Candidate(r, candidates, combo) && Feasible(r, combo)
    requires r.budget > 0
    ensures var best := Optimized(r, candidates).value.best;
            best.Some? && |best.value.items| == |r.items|
            && (ProfileOf(combo) == ProfileOf(best.value.items) ==> CostOf(r, combo) >= CostOf(r, best.value.items))
  {
    BestIsOptimal(r, candidates, combo);
    SearchIsExact(r, candidates, combo);
    var best := Optimized(r, candidates).value.best.value;
    if ProfileOf(combo) == ProfileOf(best.items) && CostOf(r, combo) < CostOf(r, best.items) {
      ProfilesAreSensible(combo);
      CheaperScoresMoreIff(r.strategy, CostOf(r, combo), CostOf(r, best.items), r.budget, ProfileOf(combo));
    }
  }

  /**
    Under a positive budget the recommended cart is Pareto-optimal: a feasible combination that is at least
    as good in cost, verification, availability, merchant count and capability is the same in all of them.
   */
  lemma BestIsParetoOptimal(r: Request, candidates: Candidates, combo: seq<Product>)
    requires Optimized(r, candidates).Ok? && Candidate(r, candidates, combo) && Feasible(r, combo)
    requires r.budget > 0
    ensures var best := Optimized(r, candidates).value.best;
            && best.Some? && |best.value.items| == |r.items|
            && var (p, q) := (ProfileOf(combo), ProfileOf(best.value.items));
            && var (a, b) := (CostOf(r, combo), CostOf(r, best.value.items));
            AtLeastAsGood(p, a, q, b) ==> AsGood(p, a, q, b)
  {
    BestIsOptimal(r, candidates, combo);
    SearchIsExact(r, candidates, combo);
    var best := Optimized(r, candidates).value.best.value;
    var p, q := ProfileOf(combo), ProfileOf(best.items);
    ProfilesAreSensible(combo);
    ProfilesAreSensible(best.items);
    if AtLeastAsGood(p, CostOf(r, combo), q, CostOf(r, best.items)) {
      BetterScoresMore(r.strategy, r.budget, p, CostOf(r, combo), q, CostOf(r, best.items));
    }
  }
}
