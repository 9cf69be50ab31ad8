/**
 * The shop owner's analytics (`AnalyticsDashboard`): order and product metrics of the current
 * shop, its three most reviewed listings, and up to five recommendations chosen by fixed
 * rules. Money, rates and ratings are exact reals here.
 */
module Analytics {
  import opened Wrappers
  import opened Collections
  import opened Entities
  import opened Storage
  import opened Home

  // -----------------------------------------------------------------------------------------
  // Top products

  /** A list in order of non-increasing key. */
  predicate DescendingBy<T>(s: seq<T>, key: T -> int)
  {
    forall i, j :: 0 <= i < j < |s| ==> key(s[i]) >= key(s[j])
  }

  /** Puts `x` into a list ordered by key, ahead of every element whose key is not larger. */
  function InsertDescending<T>(x: T, s: seq<T>, key: T -> int): (r: seq<T>)
    ensures |r| == |s| + 1
  {
    if s == [] then [x]
    else if key(s[0]) <= key(x) then [x] + s
    else [s[0]] + InsertDescending(x, s[1..], key)
  }

  /** Insertion adds exactly one occurrence of `x`. */
  lemma {:induction false} InsertAddsOne<T>(x: T, s: seq<T>, key: T -> int)
    ensures multiset(InsertDescending(x, s, key)) == multiset(s) + multiset{x}
  {
    if s != [] && key(s[0]) > key(x) {
      InsertAddsOne(x, s[1..], key);
      assert s == [s[0]] + s[1..];
    }
  }

  /** Insertion into a list ordered by key keeps it ordered. */
  lemma {:induction false} InsertKeepsOrder<T>(x: T, s: seq<T>, key: T -> int)
    requires DescendingBy(s, key)
    ensures DescendingBy(InsertDescending(x, s, key), key)
  {
    var r := InsertDescending(x, s, key);
    if s == [] {
    } else if key(s[0]) <= key(x) {
      assert forall j :: 0 < j < |r| ==> r[j] == s[j - 1];
    } else {
      var rest := InsertDescending(x, s[1..], key);
      InsertKeepsOrder(x, s[1..], key);
      InsertAddsOne(x, s[1..], key);
      forall j | 0 < j < |r| ensures key(r[j]) <= key(s[0]) {
        assert r[j] == rest[j - 1];
        assert rest[j - 1] in multiset(rest);
        if rest[j - 1] != x {
          assert rest[j - 1] in s[1..];
        }
      }
    }
  }

  /** The same elements, largest key first; elements with equal keys keep their order. */
  function SortDescending<T>(s: seq<T>, key: T -> int): (r: seq<T>)
    ensures DescendingBy(r, key)
    ensures multiset(r) == multiset(s)
    ensures |r| == |s|
  {
    if s == [] then []
    else
      var rest := SortDescending(s[1..], key);
      InsertKeepsOrder(s[0], rest, key);
      InsertAddsOne(s[0], rest, key);
      assert s == [s[0]] + s[1..];
      InsertDescending(s[0], rest, key)
  }

  function Reviews(l: Listing): int { l.reviews }

  /** Listings in order of non-increasing review count. */
  predicate ByReviewsDesc(s: seq<Listing>)
  {
    DescendingBy(s, Reviews)
  }

  /**
   * `[...shopListings].sort((a, b) => b.reviews - a.reviews)`: the same listings, most
   * reviewed first; the input is a value and stays as it was.
   */
  function SortByReviews(s: seq<Listing>): (r: seq<Listing>)
    ensures forall i, j :: 0 <= i < j < |r| ==> r[i].reviews >= r[j].reviews
    ensures multiset(r) == multiset(s)
    ensures |r| == |s|
  {
    SortDescending(s, Reviews)
  }

  /** The first `n` of a list ordered by key have keys at least those of every element left out. */
  lemma {:induction false} TakeOfDescending<T>(s: seq<T>, key: T -> int, n: nat)
    requires DescendingBy(s, key)
    ensures multiset(Take(s, n)) <= multiset(s)
    ensures forall l, x :: l in multiset(s) - multiset(Take(s, n)) && x in Take(s, n) ==> key(l) <= key(x)
  {
    var k := |Take(s, n)|;
    assert Take(s, n) == s[..k];
    assert s == s[..k] + s[k..];
    assert multiset(s) == multiset(s[..k]) + multiset(s[k..]);
    assert multiset(s) - multiset(s[..k]) == multiset(s[k..]);
    forall l, x | l in multiset(s[k..]) && x in s[..k] ensures key(l) <= key(x) {
      var j :| 0 <= j < |s[k..]| && s[k..][j] == l;
      var i :| 0 <= i < k && s[i] == x;
      assert s[k + j] == l;
    }
  }

  /** A prefix of a list ordered by key is ordered by key. */
  lemma {:induction false} PrefixDescending<T>(s: seq<T>, key: T -> int, n: nat)
    requires DescendingBy(s, key)
    ensures DescendingBy(Take(s, n), key)
  {
    var r := Take(s, n);
    forall i, j | 0 <= i < j < |r| ensures key(r[i]) >= key(r[j]) {
      assert r[i] == s[i] && r[j] == s[j];
    }
  }

  /** Of a list ordered by key, the first of any non-empty prefix has the largest key of all. */
  lemma {:induction false} HeadOfDescending<T>(s: seq<T>, key: T -> int, n: nat)
    requires DescendingBy(s, key) && Take(s, n) != []
    ensures forall l :: l in multiset(s) ==> key(l) <= key(Take(s, n)[0])
  {
    forall l | l in multiset(s) ensures key(l) <= key(Take(s, n)[0]) {
      var j :| 0 <= j < |s| && s[j] == l;
      assert Take(s, n)[0] == s[0];
    }
  }

  /**
   * `topProducts`: the three most reviewed of the shop's listings (all of them when there are
   * fewer), most reviewed first; no listing left out has more reviews than one kept.
   */
  function TopProducts(shopListings: seq<Listing>): (r: seq<Listing>)
    ensures |r| == if |shopListings| < 3 then |shopListings| else 3
    ensures ByReviewsDesc(r)
    ensures multiset(r) <= multiset(shopListings)
    ensures forall l, x :: l in multiset(shopListings) - multiset(r) && x in r ==> l.reviews <= x.reviews
    ensures forall l :: l in r ==> l in shopListings
    ensures r != [] ==> forall l :: l in shopListings ==> l.reviews <= r[0].reviews
  {
    var sorted := SortByReviews(shopListings);
    TopOfSorted(shopListings, sorted);
    Take(sorted, 3)
  }

  /** The facts `TopProducts` promises, about the first three of the sorted listings. */
  lemma {:induction false} TopOfSorted(shopListings: seq<Listing>, sorted: seq<Listing>)
    requires ByReviewsDesc(sorted) && multiset(sorted) == multiset(shopListings)
    ensures var r := Take(sorted, 3);
      && ByReviewsDesc(r)
      && multiset(r) <= multiset(shopListings)
      && (forall l, x :: l in multiset(shopListings) - multiset(r) && x in r ==> l.reviews <= x.reviews)
      && (forall l :: l in r ==> l in shopListings)
      && (r != [] ==> forall l :: l in shopListings ==> l.reviews <= r[0].reviews)
  {
    var r := Take(sorted, 3);
    TakeOfDescending(sorted, Reviews, 3);
    PrefixDescending(sorted, Reviews, 3);
    forall l | l in r ensures l in shopListings {
      assert multiset(r)[l] > 0;
    }
    if r != [] {
      HeadOfDescending(sorted, Reviews, 3);
      forall l | l in shopListings ensures l.reviews <= r[0].reviews {
        assert l in multiset(sorted);
      }
    }
  }

  /** The restocking rule looks at the top product only, which is the same as asking whether
   * any listing of the shop has more than ten reviews. */
  lemma TopProductRule(shopListings: seq<Listing>)
    ensures var top := TopProducts(shopListings);
      (|top| > 0 && top[0].reviews > 10) <==> exists l :: l in shopListings && l.reviews > 10
  {
    var top := TopProducts(shopListings);
    if |top| > 0 && top[0].reviews > 10 {
      assert top[0] in shopListings;
    }
  }

  // -----------------------------------------------------------------------------------------
  // Metrics

  function OrderOfShop(shopId: Id): RentalRequest -> bool
  {
    (r: RentalRequest) => r.shopId == Some(shopId)
  }

  function Rating(l: Listing): real { l.rating }

  /** `n > 0 ? x / n : 0`. */
  function Ratio(x: real, n: nat): (a: real)
    ensures n > 0 ==> a * (n as real) == x
    ensures n == 0 ==> a == 0.0
  {
    if n > 0 then x / (n as real) else 0.0
  }

  datatype Metrics = Metrics(
    shopListings: seq<Listing>, shopOrders: seq<RentalRequest>,
    completedOrders: seq<RentalRequest>, pendingOrders: seq<RentalRequest>,
    totalRevenue: real, avgOrderValue: real, conversionRate: real, avgProductRating: real,
    topProducts: seq<Listing>)

  /**
   * The dashboard's figures for the current shop, none without a user or a shop: the shop's
   * listings and the received orders carrying its id, the completed and pending ones among
   * them, the revenue of the completed ones, the average order value and conversion rate
   * (0 when there is nothing to divide by), the average listing rating and the top products.
   */
  function ShopMetrics(currentUser: Option<User>, currentShop: Option<Shop>, listings: seq<Listing>,
                       receivedRequests: seq<RentalRequest>): (r: Option<Metrics>)
    ensures r.None? <==> currentUser.None? || currentShop.None?
    ensures r.Some? ==>
      var shopId := currentShop.value.id;
      var m := r.value;
      && (forall l :: l in m.shopListings <==> l in listings && l.shopId == Some(shopId))
      && (forall x :: x in m.shopOrders <==> x in receivedRequests && x.shopId == Some(shopId))
      && (forall l :: multiset(m.shopListings)[l] ==
            if l.shopId == Some(shopId) then multiset(listings)[l] else 0)
      && (forall x :: multiset(m.shopOrders)[x] ==
            if x.shopId == Some(shopId) then multiset(receivedRequests)[x] else 0)
      && m.completedOrders == ByStatus(m.shopOrders, Completed)
      && m.pendingOrders == ByStatus(m.shopOrders, Pending)
      && m.totalRevenue == SumOf(m.completedOrders, Cost)
      && m.avgOrderValue == Ratio(m.totalRevenue, |m.completedOrders|)
      && m.conversionRate == Ratio(|m.completedOrders| as real, |m.shopOrders|) * 100.0
      && m.avgProductRating == Ratio(SumOf(m.shopListings, Rating), |m.shopListings|)
      && m.topProducts == TopProducts(m.shopListings)
  {
    if currentUser.None? || currentShop.None? then None
    else
      var shopId := currentShop.value.id;
      var shopListings := Filter(listings, InShop(shopId));
      var shopOrders := Filter(receivedRequests, OrderOfShop(shopId));
      var completedOrders := ByStatus(shopOrders, Completed);
      var pendingOrders := ByStatus(shopOrders, Pending);
      var totalRevenue := SumOf(completedOrders, Cost);
      var avgOrderValue := Ratio(totalRevenue, |completedOrders|);
      var conversionRate := Ratio(|completedOrders| as real, |shopOrders|) * 100.0;
      var avgProductRating := Ratio(SumOf(shopListings, Rating), |shopListings|);
      Some(Metrics(shopListings, shopOrders, completedOrders, pendingOrders, totalRevenue,
                   avgOrderValue, conversionRate, avgProductRating, TopProducts(shopListings)))
  }

  /**
   * The completed and pending orders of a shop are disjoint parts of its orders; with
   * non-negative costs the revenue lies between 0 and what all its orders are worth; and the
   * conversion rate is a percentage.
   */
  lemma {:induction false} OrderMetricsBounds(shopOrders: seq<RentalRequest>)
    requires forall x :: x in shopOrders ==> x.totalCost >= 0.0
    ensures |ByStatus(shopOrders, Completed)| + |ByStatus(shopOrders, Pending)| <= |shopOrders|
    ensures 0.0 <= SumOf(ByStatus(shopOrders, Completed), Cost) <= SumOf(shopOrders, Cost)
    ensures 0.0 <= Ratio(|ByStatus(shopOrders, Completed)| as real, |shopOrders|) * 100.0 <= 100.0
  {
    StatusCountsBound(shopOrders, Completed, Pending, Pending);
    RevenueBound(shopOrders);
    RateIsPercentage(|ByStatus(shopOrders, Completed)|, |shopOrders|);
  }

  /** With non-negative costs, the completed orders are worth between 0 and all orders. */
  lemma RevenueBound(orders: seq<RentalRequest>)
    requires forall x :: x in orders ==> x.totalCost >= 0.0
    ensures 0.0 <= SumOf(ByStatus(orders, Completed), Cost) <= SumOf(orders, Cost)
  {
    var completed := WithStatus(Completed);
    SumOfFilterSplit(orders, Cost, completed);
    SumOfNonNegative(Filter(orders, completed), Cost);
    SumOfNonNegative(Filter(orders, Not(completed)), Cost);
  }

  /** A part of a whole, as a percentage, lies between 0 and 100. */
  lemma RateIsPercentage(part: nat, whole: nat)
    requires part <= whole
    ensures 0.0 <= Ratio(part as real, whole) * 100.0 <= 100.0
  {
    if whole > 0 {
      var rate := Ratio(part as real, whole);
      var n := whole as real;
      MulLess(rate, 0.0, n);
      MulLess(1.0, rate, n);
    }
  }

  /** The bounds above hold for the figures the dashboard shows. */
  lemma MetricsBounds(currentUser: Option<User>, currentShop: Option<Shop>,
                      listings: seq<Listing>, receivedRequests: seq<RentalRequest>)
    requires currentUser.Some? && currentShop.Some?
    requires forall x :: x in receivedRequests ==> x.totalCost >= 0.0
    ensures var m := ShopMetrics(currentUser, currentShop, listings, receivedRequests).value;
      && |m.completedOrders| + |m.pendingOrders| <= |m.shopOrders|
      && 0.0 <= m.totalRevenue <= SumOf(m.shopOrders, Cost)
      && 0.0 <= m.conversionRate <= 100.0
  {
    OrderMetricsBounds(ShopMetrics(currentUser, currentShop, listings, receivedRequests).value.shopOrders);
  }

  /** Multiplying by a positive factor keeps a strict order. */
  lemma MulLess(a: real, b: real, k: real)
    requires k > 0.0
    ensures a < b <==> a * k < b * k
  {
  }

  /**
   * The conversion rate is below 30 percent exactly when fewer than 30 in 100 shop orders
   * are completed: the rule needs no division.
   */
  lemma ConversionBelowThirty(completed: nat, orders: nat)
    requires orders > 0
    ensures Ratio(completed as real, orders) * 100.0 < 30.0 <==> completed * 100 < 30 * orders
  {
    var rate := Ratio(completed as real, orders);
    var o := orders as real;
    MulLess(rate * 100.0, 30.0, o);
    assert rate * 100.0 * o == (rate * o) * 100.0;
  }

  // -----------------------------------------------------------------------------------------
  // Recommendations

  /** The seven rules, in the order `generateRecommendations` tries them. */
  datatype Rule = LowConversion | LowRating | PopularItem | FewListings | PendingOrders
                | ManyCompleted | FewReviews

  datatype Impact = High | Medium | Low

  /** A recommendation card; its description text, which embeds formatted figures, and its
   * icon are not modelled. */
  datatype Recommendation = Recommendation(id: string, title: string, impact: Impact, action: string)

  /** The card each rule pushes. */
  function Card(rule: Rule): Recommendation
  {
    match rule
    case LowConversion => Recommendation("1", "Improve Product Descriptions", High, "Edit Product Descriptions")
    case LowRating => Recommendation("2", "Address Quality Concerns", High, "Review Feedback")
    case PopularItem => Recommendation("3", "Restock Popular Items", High, "Manage Inventory")
    case FewListings => Recommendation("4", "Expand Product Catalog", Medium, "Add More Products")
    case PendingOrders => Recommendation("5", "Respond to Orders Quickly", Medium, "View Orders")
    case ManyCompleted => Recommendation("6", "Optimize Pricing Strategy", Medium, "Check Competitors")
    case FewReviews => Recommendation("7", "Build Social Proof", Low, "Request Reviews")
  }

  /** Whether a rule fires for these metrics and this shop. */
  predicate Fires(rule: Rule, m: Metrics, shop: Shop)
  {
    match rule
    case LowConversion => m.conversionRate < 30.0 && |m.shopOrders| > 5
    case LowRating => m.avgProductRating < 4.5 && |m.shopListings| > 0
    case PopularItem => |m.topProducts| > 0 && m.topProducts[0].reviews > 10
    case FewListings => |m.shopListings| < 5
    case PendingOrders => |m.pendingOrders| > 0
    case ManyCompleted => |m.completedOrders| > 5
    case FewReviews => shop.reviews < 5
  }

  /** A rule on its own if it fires, nothing otherwise. */
  function Pick(rule: Rule, m: Metrics, shop: Shop): seq<Rule>
  {
    if Fires(rule, m, shop) then [rule] else []
  }

  /** The rules that fire, in rule order, before the cap. */
  function Candidates(m: Metrics, shop: Shop): (r: seq<Rule>)
    ensures forall rule :: rule in r <==> Fires(rule, m, shop)
  {
    Pick(LowConversion, m, shop) + Pick(LowRating, m, shop) + Pick(PopularItem, m, shop) +
    Pick(FewListings, m, shop) + Pick(PendingOrders, m, shop) + Pick(ManyCompleted, m, shop) +
    Pick(FewReviews, m, shop)
  }

  /** The card of each rule, in order. */
  function Cards(rules: seq<Rule>): (r: seq<Recommendation>)
    ensures |r| == |rules|
  {
    if rules == [] then [] else [Card(rules[0])] + Cards(rules[1..])
  }

  /** Pushing one more rule's card extends the cards by that card. */
  lemma {:induction false} CardsAppend(rules: seq<Rule>, rule: Rule)
    ensures Cards(rules + [rule]) == Cards(rules) + [Card(rule)]
  {
    if rules != [] {
      assert (rules + [rule])[1..] == rules[1..] + [rule];
      CardsAppend(rules[1..], rule);
    }
  }

  /** The cards of the first `n` rules are the first `n` cards. */
  lemma {:induction false} CardsTake(rules: seq<Rule>, n: nat)
    ensures Cards(Take(rules, n)) == Take(Cards(rules), n)
  {
    if rules != [] && n > 0 {
      CardsTake(rules[1..], n - 1);
      assert Take(rules, n)[1..] == Take(rules[1..], n - 1);
      assert Take(Cards(rules), n) == [Card(rules[0])] + Take(Cards(rules[1..]), n - 1);
    }
  }

  /**
   * One `if (…) recommendations.push({…})` of `generateRecommendations`: pushes the rule's
   * card when the rule fires, and keeps the list otherwise.
   */
  method PushIfFires(recommendations: seq<Recommendation>, ghost fired: seq<Rule>, rule: Rule,
                     m: Metrics, shop: Shop)
    returns (r: seq<Recommendation>)
    requires recommendations == Cards(fired)
    ensures r == Cards(fired + Pick(rule, m, shop))
  {
    if Fires(rule, m, shop) {
      CardsAppend(fired, rule);
      r := recommendations + [Card(rule)];
    } else {
      assert fired + Pick(rule, m, shop) == fired;
      r := recommendations;
    }
  }

  /**
   * `generateRecommendations`: tries the seven rules in order, pushing the card of each one
   * that fires, and keeps the first five: the cards of the first five firing rules.
   */
  method GenerateRecommendations(m: Metrics, shop: Shop) returns (recs: seq<Recommendation>)
    ensures recs == Cards(Take(Candidates(m, shop), 5))
    ensures |recs| <= 5
  {
    var recommendations: seq<Recommendation> := [];
    ghost var fired: seq<Rule> := [];
    recommendations := PushIfFires(recommendations, fired, LowConversion, m, shop);
    assert fired + Pick(LowConversion, m, shop) == Pick(LowConversion, m, shop);
    fired := Pick(LowConversion, m, shop);
    recommendations := PushIfFires(recommendations, fired, LowRating, m, shop);
    fired := fired + Pick(LowRating, m, shop);
    recommendations := PushIfFires(recommendations, fired, PopularItem, m, shop);
    fired := fired + Pick(PopularItem, m, shop);
    recommendations := PushIfFires(recommendations, fired, FewListings, m, shop);
    fired := fired + Pick(FewListings, m, shop);
    recommendations := PushIfFires(recommendations, fired, PendingOrders, m, shop);
    fired := fired + Pick(PendingOrders, m, shop);
    recommendations := PushIfFires(recommendations, fired, ManyCompleted, m, shop);
    fired := fired + Pick(ManyCompleted, m, shop);
    recommendations := PushIfFires(recommendations, fired, FewReviews, m, shop);
    fired := fired + Pick(FewReviews, m, shop);
    assert fired == Candidates(m, shop);
    CardsTake(fired, 5);
    recs := recommendations[..if |recommendations| < 5 then |recommendations| else 5];
    assert recs == Take(recommendations, 5);
  }

  /**
   * The rules of the last four recommendations in terms of the shop: fewer than five
   * listings, a pending order, more than five completed orders, fewer than five reviews.
   */
  lemma LaterRules(m: Metrics, shop: Shop)
    ensures FewListings in Candidates(m, shop) <==> |m.shopListings| < 5
    ensures PendingOrders in Candidates(m, shop) <==> |m.pendingOrders| > 0
    ensures ManyCompleted in Candidates(m, shop) <==> |m.completedOrders| > 5
    ensures FewReviews in Candidates(m, shop) <==> shop.reviews < 5
  {
    var c := Candidates(m, shop);
    assert FewListings in c <==> Fires(FewListings, m, shop);
    assert PendingOrders in c <==> Fires(PendingOrders, m, shop);
    assert ManyCompleted in c <==> Fires(ManyCompleted, m, shop);
    assert FewReviews in c <==> Fires(FewReviews, m, shop);
  }

  /** When five or fewer rules fire, the cap drops nothing; otherwise exactly five remain. */
  lemma CapDropsOnlyBeyondFive(m: Metrics, shop: Shop)
    ensures |Candidates(m, shop)| <= 5 ==> Take(Candidates(m, shop), 5) == Candidates(m, shop)
    ensures |Candidates(m, shop)| > 5 ==> |Take(Candidates(m, shop), 5)| == 5
  {
  }
}
