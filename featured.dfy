/** The home page's featured meals, src/modules/homepage/FeaturedMeals.tsx: the fetched
    meals sorted in place by name, the first four kept, and the cart line a featured
    meal's button adds. `localeCompare` is an abstract comparison `leq` on names that is
    total and transitive. */
module FeaturedMeals {
  import opened Types
  import Cart

  /** A meal of `/api/meals`; `restaurant` is `meal.provider?.restaurant`. */
  datatype Meal = Meal(id: string, name: string, price: int, description: string,
                       image: Option<string>, providerId: string, categoryId: string,
                       restaurant: Option<string>)

  /** What the meals endpoint answered: a throw, or a body whose `data` may be missing. */
  datatype MealsResponse = Threw | Json(success: bool, data: Option<seq<Meal>>)

  const FeaturedCount: nat := 4

  /** `leq(a, b)` is `a.localeCompare(b) <= 0`: any two names compare, and the order is transitive. */
  ghost predicate TotalPreorder(leq: (string, string) -> bool)
  {
    (forall a, b :: leq(a, b) || leq(b, a))
    && (forall a, b, c :: leq(a, b) && leq(b, c) ==> leq(a, c))
  }

  predicate SortedByName(s: seq<Meal>, leq: (string, string) -> bool)
  {
    forall i, j :: 0 <= i < j < |s| ==> leq(s[i].name, s[j].name)
  }

  /** `.sort((a, b) => a.name.localeCompare(b.name))`: insertion sort. */
  method SortByName(a: array<Meal>, leq: (string, string) -> bool)
    requires TotalPreorder(leq)
    modifies a
    ensures SortedByName(a[..], leq)
    ensures multiset(a[..]) == multiset(old(a[..]))
  {
    var i := 0;
    while i < a.Length
      invariant 0 <= i <= a.Length
      invariant SortedByName(a[..i], leq)
      invariant multiset(a[..]) == multiset(old(a[..]))
    {
      InsertAt(a, i, leq);
      i := i + 1;
    }
    assert a[..a.Length] == a[..];
  }

  /** One insertion step: the meal at `i` sinks by adjacent swaps into the sorted prefix. */
  method InsertAt(a: array<Meal>, i: nat, leq: (string, string) -> bool)
    requires TotalPreorder(leq)
    requires i < a.Length && SortedByName(a[..i], leq)
    modifies a
    ensures SortedByName(a[..i + 1], leq)
    ensures multiset(a[..]) == multiset(old(a[..]))
  {
    var j := i;
    SinkStart(a[..], i, leq);
    while j > 0 && !leq(a[j - 1].name, a[j].name)
      invariant 0 <= j <= i
      invariant SortedExcept(a[..], i, j, leq) && BelowRest(a[..], i, j, leq)
      invariant multiset(a[..]) == multiset(old(a[..]))
    {
      assert leq(a[j].name, a[j - 1].name);
      ghost var before := a[..];
      SwapDown(a, j);
      SinkStep(before, a[..], i, j, leq);
      j := j - 1;
    }
    SinkDone(a[..], i, j, leq);
  }

  /** Sorted up to `hi`, leaving out the pairs that involve the sinking position `j`. */
  ghost predicate SortedExcept(s: seq<Meal>, hi: nat, j: nat, leq: (string, string) -> bool)
  {
    hi < |s| && forall k, l :: 0 <= k < l <= hi && k != j && l != j ==> leq(s[k].name, s[l].name)
  }

  /** The sinking meal at `j` comes before everything it has passed, up to `hi`. */
  ghost predicate BelowRest(s: seq<Meal>, hi: nat, j: nat, leq: (string, string) -> bool)
  {
    hi < |s| && j <= hi && forall l :: j < l <= hi ==> leq(s[j].name, s[l].name)
  }

  lemma SinkStart(s: seq<Meal>, i: nat, leq: (string, string) -> bool)
    requires i < |s| && SortedByName(s[..i], leq)
    ensures SortedExcept(s, i, i, leq) && BelowRest(s, i, i, leq)
  {
    var p := s[..i];
    forall k, l | 0 <= k < l <= i && k != i && l != i ensures leq(s[k].name, s[l].name) {
      assert p[k] == s[k] && p[l] == s[l];
    }
  }

  /** Swapping the sinking meal with a greater left neighbour moves the gap one step left. */
  lemma SinkStep(s: seq<Meal>, t: seq<Meal>, hi: nat, j: nat, leq: (string, string) -> bool)
    requires 0 < j <= hi && SortedExcept(s, hi, j, leq) && BelowRest(s, hi, j, leq)
    requires leq(s[j].name, s[j - 1].name)
    requires t == s[j - 1 := s[j]][j := s[j - 1]]
    ensures SortedExcept(t, hi, j - 1, leq) && BelowRest(t, hi, j - 1, leq)
  {
    forall k, l | 0 <= k < l <= hi && k != j - 1 && l != j - 1 ensures leq(t[k].name, t[l].name) {
      var k0 := if k == j then j - 1 else k;
      var l0 := if l == j then j - 1 else l;
      assert t[k] == s[k0] && t[l] == s[l0];
    }
    forall l | j - 1 < l <= hi ensures leq(t[j - 1].name, t[l].name) {
      if l > j { assert t[l] == s[l]; }
    }
  }

  /** Once the left neighbour is not greater (or there is none), the prefix is sorted. */
  lemma SinkDone(s: seq<Meal>, hi: nat, j: nat, leq: (string, string) -> bool)
    requires TotalPreorder(leq)
    requires SortedExcept(s, hi, j, leq) && BelowRest(s, hi, j, leq)
    requires j > 0 ==> leq(s[j - 1].name, s[j].name)
    ensures SortedByName(s[..hi + 1], leq)
  {
    var p := s[..hi + 1];
    forall k, l | 0 <= k < l <= hi ensures leq(p[k].name, p[l].name) {
      assert p[k] == s[k] && p[l] == s[l];
      if l == j && k < j - 1 {
        assert leq(s[k].name, s[j - 1].name);
      }
    }
  }

  /** Exchanges the meals at `j - 1` and `j`. */
  method SwapDown(a: array<Meal>, j: nat)
    requires 0 < j < a.Length
    modifies a
    ensures a[..] == old(a[..])[j - 1 := old(a[j])][j := old(a[j - 1])]
    ensures multiset(a[..]) == multiset(old(a[..]))
  {
    a[j - 1], a[j] := a[j], a[j - 1];
  }

  /** What being the featured list of `xs` means: min(4, n) meals, in name order, all
      from the input, and none of the meals left out comes before a featured one. */
  ghost predicate IsFeatured(featured: seq<Meal>, xs: seq<Meal>, leq: (string, string) -> bool)
  {
    && |featured| == (if |xs| < FeaturedCount then |xs| else FeaturedCount)
    && SortedByName(featured, leq)
    && multiset(featured) <= multiset(xs)
    && forall i, y :: 0 <= i < |featured| && y in multiset(xs) - multiset(featured) ==> leq(featured[i].name, y.name)
  }

  /** The featured list of a fetched `data`: `(data || []).sort(…).slice(0, 4)`. */
  method SelectFeatured(data: Option<seq<Meal>>, leq: (string, string) -> bool) returns (featured: seq<Meal>)
    requires TotalPreorder(leq)
    ensures IsFeatured(featured, if data.Some? then data.value else [], leq)
  {
    var xs := if data.Some? then data.value else [];
    var a := new Meal[|xs|](i requires 0 <= i < |xs| => xs[i]);
    assert a[..] == xs;
    SortByName(a, leq);
    var s := a[..];
    var k := if |s| < FeaturedCount then |s| else FeaturedCount;
    featured := s[..k];
    SortedPrefix(s, k, leq);
  }

  /** A prefix of a name-sorted list is sorted, is part of the list, and comes before
      everything the list has besides it. */
  lemma SortedPrefix(s: seq<Meal>, k: nat, leq: (string, string) -> bool)
    requires k <= |s| && SortedByName(s, leq)
    ensures SortedByName(s[..k], leq)
    ensures multiset(s[..k]) <= multiset(s)
    ensures forall i, y :: 0 <= i < k && y in multiset(s) - multiset(s[..k]) ==> leq(s[i].name, y.name)
  {
    var p, t := s[..k], s[k..];
    assert s == p + t;
    assert multiset(s) == multiset(p) + multiset(t);
    forall i, y | 0 <= i < k && y in multiset(s) - multiset(p)
      ensures leq(s[i].name, y.name)
    {
      assert y in multiset(t);
      var m :| 0 <= m < |t| && t[m] == y;
      assert s[k + m] == y;
    }
    forall i, j | 0 <= i < j < k ensures leq(p[i].name, p[j].name) {
      assert p[i] == s[i] && p[j] == s[j];
    }
  }

  /** The page state: the featured meals and the loading flag. */
  class FeaturedSection {
    var meals: seq<Meal>
    var loading: bool

    constructor ()
      ensures meals == [] && loading
    {
      meals := [];
      loading := true;
    }

    /** `fetchMeals`: a successful body replaces the list by its featured selection;
        anything else keeps it. Loading ends either way. */
    method FetchMeals(r: MealsResponse, leq: (string, string) -> bool)
      requires TotalPreorder(leq)
      modifies this`meals, this`loading
      ensures !loading
      ensures !(r.Json? && r.success) ==> meals == old(meals)
      ensures r.Json? && r.success ==> IsFeatured(meals, if r.data.Some? then r.data.value else [], leq)
      ensures r.Json? && r.success && r.data.None? ==> meals == []
    {
      if r.Json? && r.success {
        meals := SelectFeatured(r.data, leq);
      }
      loading := false;
    }
  }

  /** `handleAddToCart`'s argument: the meal's own fields, and its restaurant or
      "Local Restaurant" when it has none. */
  function CartPayload(meal: Meal): (m: Cart.NewMeal)
    ensures m.mealId == meal.id && m.name == meal.name && m.price == meal.price
    ensures m.image == meal.image && m.providerId == meal.providerId
    ensures m.providerName == if meal.restaurant.Some? && meal.restaurant.value != ""
                              then meal.restaurant.value else "Local Restaurant"
  {
    Cart.NewMeal(meal.id, meal.name, meal.price, meal.image, meal.providerId,
      if meal.restaurant.Some? && meal.restaurant.value != "" then meal.restaurant.value else "Local Restaurant")
  }

  /** A featured meal not yet in the cart becomes its last line, with quantity 1 and a
      provider name that is never empty. */
  lemma AddFeaturedToCart(items: seq<Cart.CartItem>, meal: Meal)
    requires Cart.Absent(items, meal.id)
    ensures var r := Cart.AddItem(items, CartPayload(meal));
      && |r| == |items| + 1 && r[..|items|] == items
      && r[|items|].mealId == meal.id && r[|items|].quantity == 1
      && r[|items|].providerName != ""
  {
    Cart.AddNew(items, CartPayload(meal));
  }
}
