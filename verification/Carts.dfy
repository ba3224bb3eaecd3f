/** Products, shopping requests and the cost of a cart. */
module Carts {
  import opened Outcomes

  datatype Capability = VerifiedApi | CheckoutHandoff | DiscoveryOnly | Unsupported

  datatype Strategy = LowestTotalPrice | BestValue | FewestMerchants | HighestTrust | Balanced

  datatype Product = Product(
    id: string, price: int, domain: string, verification: string, availability: string, capability: Capability)

  datatype Item = Item(query: string, quantity: int)

  datatype Request = Request(items: seq<Item>, budget: int, maxMerchants: int, strategy: Strategy)

  datatype Cost = Cost(
    subtotal: int, shipping: Option<int>, tax: Option<int>, platformFee: int, total: int, unknown: seq<string>)

  function Quantities(r: Request): seq<int> {
    seq(|r.items|, i requires 0 <= i < |r.items| => r.items[i].quantity)
  }

  function Ones(n: nat): seq<int> {
    seq(n, _ => 1)
  }

  /** The price of the first n products, each taken as often as asked. */
  function Subtotal(products: seq<Product>, quantities: seq<int>, n: nat): int
    requires n <= |products| && n <= |quantities|
  {
    if n == 0 then 0
    else Subtotal(products, quantities, n - 1) + products[n - 1].price * quantities[n - 1]
  }

  /** Nothing is paid for a product that is taken no times. */
  lemma {:induction false} NothingTakenCostsNothing(products: seq<Product>, quantities: seq<int>, n: nat)
    requires n <= |products| && n <= |quantities| && forall i :: 0 <= i < n ==> quantities[i] == 0
    ensures Subtotal(products, quantities, n) == 0
  {
    if n > 0 {
      NothingTakenCostsNothing(products, quantities, n - 1);
    }
  }

  /** Taking one of the products more often adds its price each time; with the lemma above this is the whole sum. */
  lemma {:induction false} TakingMoreCosts(products: seq<Product>, quantities: seq<int>, n: nat, i: nat, more: int)
    requires i < n <= |products| && n <= |quantities|
    ensures Subtotal(products, quantities[i := quantities[i] + more], n) ==
            Subtotal(products, quantities, n) + products[i].price * more
  {
    var q := quantities[i := quantities[i] + more];
    if i < n - 1 {
      TakingMoreCosts(products, quantities, n - 1, i, more);
    } else {
      SameQuantitiesCostTheSame(products, quantities, q, n - 1);
      assert products[i].price * q[i] == products[i].price * quantities[i] + products[i].price * more;
    }
  }

  lemma {:induction false} SameQuantitiesCostTheSame(products: seq<Product>, a: seq<int>, b: seq<int>, n: nat)
    requires n <= |products| && n <= |a| && n <= |b| && forall i :: 0 <= i < n ==> a[i] == b[i]
    ensures Subtotal(products, a, n) == Subtotal(products, b, n)
  {
    if n > 0 {
      SameQuantitiesCostTheSame(products, a, b, n - 1);
    }
  }

  function Shorter(a: nat, b: nat): nat {
    if a <= b then a else b
  }

  function Known(amount: Option<int>): int {
    if amount.Some? then amount.value else 0
  }

  function Unknown(shipping: Option<int>, tax: Option<int>): seq<string> {
    (if shipping.None? then ["SHIPPING_COST"] else []) + (if tax.None? then ["MERCHANT_TAX"] else [])
  }

  /** Is the cost of this cart known to the last component? */
  predicate FullyVerified(c: Cost) {
    c.unknown == []
  }

  /**
    The cost of a cart. Without quantities every product is taken once; with too few or too many of them
    the surplus is ignored. Shipping and tax are never guessed: what is not verified is listed as unknown.
   */
  method CalculateCartCost(products: seq<Product>, asked: seq<int>, shipping: Option<int>, tax: Option<int>)
    returns (c: Cost)
    ensures var quantities := if asked == [] then Ones(|products|) else asked;
            c.subtotal == Subtotal(products, quantities, Shorter(|products|, |quantities|))
    ensures c.total == c.subtotal + Known(shipping) + Known(tax)
    ensures c.shipping == shipping && c.tax == tax && c.platformFee == 0
    ensures c.unknown == Unknown(shipping, tax)
    ensures "SHIPPING_COST" in c.unknown <==> shipping.None?
    ensures "MERCHANT_TAX" in c.unknown <==> tax.None?
    ensures FullyVerified(c) <==> shipping.Some? && tax.Some?
    ensures forall s, t :: shipping == Some(s) && tax == Some(t) ==> c.total == c.subtotal + s + t
    ensures shipping.None? && tax.None? ==> c.total == c.subtotal
  {
    var quantities := if asked == [] then Ones(|products|) else asked;
    var subtotal, i := 0, 0;
    while i < |products| && i < |quantities|
      invariant i <= |products| && i <= |quantities|
      invariant subtotal == Subtotal(products, quantities, i)
    {
      subtotal := subtotal + products[i].price * quantities[i];
      i := i + 1;
    }
    var unknown: seq<string> := [];
    var known := subtotal;
    if shipping.Some? {
      known := known + shipping.value;
    } else {
      unknown := unknown + ["SHIPPING_COST"];
    }
    if tax.Some? {
      known := known + tax.value;
    } else {
      unknown := unknown + ["MERCHANT_TAX"];
    }
    c := Cost(subtotal, shipping, tax, 0, known, unknown);
  }

  /** What CalculateCartCost says about a combination that has one quantity for each product. */
  function CostOf(r: Request, combo: seq<Product>): int
    requires |combo| == |r.items|
  {
    Subtotal(combo, Quantities(r), |combo|)
  }

  function Domains(combo: seq<Product>): set<string> {
    set p | p in combo :: p.domain
  }

  predicate Uses(combo: seq<Product>, c: Capability) {
    exists p :: p in combo && p.capability == c
  }

  function Composite(combo: seq<Product>): Capability {
    if Uses(combo, DiscoveryOnly) then DiscoveryOnly
    else if Uses(combo, CheckoutHandoff) then CheckoutHandoff
    else VerifiedApi
  }

  function Rank(c: Capability): nat {
    match c
    case Unsupported => 0
    case DiscoveryOnly => 1
    case CheckoutHandoff => 2
    case VerifiedApi => 3
  }

  predicate Lowest(combo: seq<Product>, c: Capability) {
    Uses(combo, c) && forall p :: p in combo ==> Rank(c) <= Rank(p.capability)
  }

  /**
    The composite capability is the lowest one in the cart exactly when no product is UNSUPPORTED; otherwise
    it is the lowest of the other products, and VERIFIED_API if there are none.
   */
  lemma CompositeIsLowestIff(combo: seq<Product>)
    requires combo != []
    ensures Lowest(combo, Composite(combo)) <==> !Uses(combo, Unsupported)
    ensures forall p :: p in combo && p.capability != Unsupported ==> Rank(Composite(combo)) <= Rank(p.capability)
    ensures Uses(combo, Composite(combo))
            || (Composite(combo) == VerifiedApi && forall p :: p in combo ==> p.capability == Unsupported)
  {
    forall q | q in combo && q.capability != Unsupported ensures Rank(Composite(combo)) <= Rank(q.capability) {
      assert Uses(combo, q.capability);
    }
    if !Uses(combo, Composite(combo)) {
      forall q | q in combo ensures q.capability == Unsupported {
        assert Uses(combo, q.capability);
      }
    }
    var p := combo[0];
    assert p in combo;
    if !Uses(combo, Unsupported) {
      forall q | q in combo ensures Rank(Composite(combo)) <= Rank(q.capability) {
        assert q.capability != Unsupported;
        assert Uses(combo, q.capability);
      }
      assert Uses(combo, p.capability);
    }
  }
}

/** The Cartesian product of lists, in the order in which the last list varies fastest. */
module Combinations {

  function Prefixed<T>(x: T, rests: seq<seq<T>>): seq<seq<T>> {
    seq(|rests|, i requires 0 <= i < |rests| => [x] + rests[i])
  }

  function Spread<T>(heads: seq<T>, rests: seq<seq<T>>): seq<seq<T>> {
    if heads == [] then [] else Prefixed(heads[0], rests) + Spread(heads[1..], rests)
  }

  function Combine<T>(lists: seq<seq<T>>): seq<seq<T>> {
    if lists == [] then [[]] else Spread(lists[0], Combine(lists[1..]))
  }

  function Sizes<T>(lists: seq<seq<T>>): nat {
    if lists == [] then 1 else |lists[0]| * Sizes(lists[1..])
  }

  predicate Picks<T(==)>(lists: seq<seq<T>>, c: seq<T>) {
    |c| == |lists| && forall i :: 0 <= i < |c| ==> c[i] in lists[i]
  }

  lemma {:induction false} SpreadLength<T>(heads: seq<T>, rests: seq<seq<T>>)
    ensures |Spread(heads, rests)| == |heads| * |rests|
  {
    if heads != [] {
      SpreadLength(heads[1..], rests);
    }
  }

  /** As many combinations as the lengths multiply to. */
  lemma {:induction false} CombineLength<T>(lists: seq<seq<T>>)
    ensures |Combine(lists)| == Sizes(lists)
  {
    if lists != [] {
      CombineLength(lists[1..]);
      SpreadLength(lists[0], Combine(lists[1..]));
    }
  }

  lemma {:induction false} SpreadOrder<T>(heads: seq<T>, rests: seq<seq<T>>, i: nat, j: nat)
    requires i < |heads| && j < |rests|
    ensures i * |rests| + j < |Spread(heads, rests)|
    ensures Spread(heads, rests)[i * |rests| + j] == [heads[i]] + rests[j]
  {
    SpreadLength(heads, rests);
    SpreadLength(heads[1..], rests);
    if i > 0 {
      SpreadOrder(heads[1..], rests, i - 1, j);
      assert i * |rests| == (i - 1) * |rests| + |rests|;
    }
  }

  /** The first list varies slowest: the combinations with its i-th element stand together, in the order of the rest. */
  lemma CombineOrder<T>(lists: seq<seq<T>>, i: nat, j: nat)
    requires lists != [] && i < |lists[0]| && j < Sizes(lists[1..])
    ensures |Combine(lists[1..])| == Sizes(lists[1..]) && i * Sizes(lists[1..]) + j < |Combine(lists)|
    ensures Combine(lists)[i * Sizes(lists[1..]) + j] == [lists[0][i]] + Combine(lists[1..])[j]
  {
    CombineLength(lists[1..]);
    SpreadOrder(lists[0], Combine(lists[1..]), i, j);
  }

  // How often an element occurs.

  function Count<T(==)>(s: seq<T>, x: T): nat {
    if s == [] then 0 else (if s[0] == x then 1 else 0) + Count(s[1..], x)
  }

  lemma {:induction false} CountAppend<T>(a: seq<T>, b: seq<T>, x: T)
    ensures Count(a + b, x) == Count(a, x) + Count(b, x)
  {
    if a == [] {
      assert a + b == b;
    } else {
      assert (a + b)[1..] == a[1..] + b;
      CountAppend(a[1..], b, x);
    }
  }

  lemma {:induction false} CountFromTheEnd<T>(s: seq<T>, x: T)
    requires s != []
    ensures Count(s, x) == Count(s[..|s| - 1], x) + if s[|s| - 1] == x then 1 else 0
  {
    CountAppend(s[..|s| - 1], [s[|s| - 1]], x);
    assert s == s[..|s| - 1] + [s[|s| - 1]];
  }

  function Places<T(==)>(s: seq<T>, x: T): set<nat> {
    set j: nat | j < |s| && s[j] == x
  }

  lemma LastPlace<T>(s: seq<T>, x: T)
    requires s != []
    ensures var n := |s| - 1;
            n !in Places(s[..n], x) && Places(s, x) == if s[n] == x then Places(s[..n], x) + {n} else Places(s[..n], x)
  {
  }

  /** Counting occurrences is counting the places where they stand. */
  lemma {:induction false} CountIsPlaces<T>(s: seq<T>, x: T)
    ensures Count(s, x) == |Places(s, x)|
  {
    if s == [] {
      assert Places(s, x) == {};
    } else {
      CountFromTheEnd(s, x);
      CountIsPlaces(s[..|s| - 1], x);
      LastPlace(s, x);
    }
  }

  lemma {:induction false} CountIsMembership<T>(s: seq<T>, x: T)
    ensures Count(s, x) > 0 <==> x in s
  {
    if s != [] {
      CountIsMembership(s[1..], x);
    }
  }

  lemma {:induction false} CountPrefixed<T>(x: T, rests: seq<seq<T>>, c: seq<T>)
    ensures Count(Prefixed(x, rests), c) == if c != [] && c[0] == x then Count(rests, c[1..]) else 0
  {
    if rests != [] {
      assert Prefixed(x, rests)[1..] == Prefixed(x, rests[1..]);
      CountPrefixed(x, rests[1..], c);
      assert Prefixed(x, rests)[0][1..] == rests[0];
      if c != [] && c[0] == x && c[1..] == rests[0] {
        assert c == Prefixed(x, rests)[0];
      }
    }
  }

  lemma {:induction false} CountSpread<T>(heads: seq<T>, rests: seq<seq<T>>, c: seq<T>)
    ensures Count(Spread(heads, rests), c) == if c == [] then 0 else Count(heads, c[0]) * Count(rests, c[1..])
  {
    if heads != [] {
      CountSpread(heads[1..], rests, c);
      CountPrefixed(heads[0], rests, c);
      CountAppend(Prefixed(heads[0], rests), Spread(heads[1..], rests), c);
    }
  }

  /** How often a combination can be picked: each element, times the ways to pick the rest. */
  function Ways<T(==)>(lists: seq<seq<T>>, c: seq<T>): nat
    requires |c| == |lists|
  {
    if lists == [] then 1 else Count(lists[0], c[0]) * Ways(lists[1..], c[1..])
  }

  /** A combination occurs as often as its elements can be picked, and nothing else occurs. */
  lemma {:induction false} CombineCounts<T>(lists: seq<seq<T>>, c: seq<T>)
    ensures Count(Combine(lists), c) == if |c| == |lists| then Ways(lists, c) else 0
  {
    if lists == [] {
      assert Combine(lists)[1..] == [];
    } else {
      CountSpread(lists[0], Combine(lists[1..]), c);
      if c != [] {
        CombineCounts(lists[1..], c[1..]);
      }
    }
  }

  lemma {:induction false} WaysToPick<T>(lists: seq<seq<T>>, c: seq<T>)
    requires |c| == |lists|
    ensures Ways(lists, c) > 0 <==> Picks(lists, c)
  {
    if lists != [] {
      WaysToPick(lists[1..], c[1..]);
      CountIsMembership(lists[0], c[0]);
      assert forall i :: 0 <= i < |c[1..]| ==> c[1..][i] == c[i + 1] && lists[1..][i] == lists[i + 1];
      assert forall i :: 0 < i < |c| ==> c[i] == c[1..][i - 1] && lists[i] == lists[1..][i - 1];
    }
  }

  /** The product holds exactly the picks of one element from each list. */
  lemma CombineMembers<T>(lists: seq<seq<T>>, c: seq<T>)
    ensures c in Combine(lists) <==> Picks(lists, c)
  {
    CombineCounts(lists, c);
    CountIsMembership(Combine(lists), c);
    if |c| == |lists| {
      WaysToPick(lists, c);
    }
  }
}
