/** Promotion rules ranked by what they take off, and the discounts of an order: first the best promotion whose
    budget still holds, then the coupon on what is left. */
module Discounts {
  import opened Results

  datatype Scope = All | Category | Product

  datatype Kind = AmountOff | PercentOff

  datatype Rule = Rule(id: nat, kind: Kind, scope: Scope, scopeRef: int, threshold: int, discount: int, bps: int)

  datatype Item = Item(product: int, category: int, unit: int, quantity: int)

  datatype Candidate = Candidate(rule: Rule, discount: int)

  datatype Batch = Batch(kind: Kind, threshold: int, amount: int)

  const BPS_BASE := 10000

  // ---- What a rule takes off ----

  predicate Matches(it: Item, r: Rule) {
    match r.scope
    case All => true
    case Category => it.category == r.scopeRef
    case Product => it.product == r.scopeRef
  }

  function Line(it: Item): int {
    it.unit * it.quantity
  }

  function Subtotal(items: seq<Item>): int {
    if items == [] then 0 else Subtotal(items[..|items| - 1]) + Line(items[|items| - 1])
  }

  function Applicable(items: seq<Item>, r: Rule): int {
    if items == [] then 0
    else Applicable(items[..|items| - 1], r) + if Matches(items[|items| - 1], r) then Line(items[|items| - 1]) else 0
  }

  /** The percentage is rounded down. */
  function DiscountOnBase(base: int, r: Rule): int {
    match r.kind
    case AmountOff => if r.discount > base then base else r.discount
    case PercentOff => if r.bps <= 0 || r.bps >= BPS_BASE then 0 else base * (BPS_BASE - r.bps) / BPS_BASE
  }

  /** Discount of a rule that reaches its threshold; zero or less when it does not qualify. */
  function DiscountOf(items: seq<Item>, r: Rule): int {
    var base := Applicable(items, r);
    if base < r.threshold then 0 else DiscountOnBase(base, r)
  }

  ghost predicate Priced(items: seq<Item>) {
    forall i :: 0 <= i < |items| ==> items[i].unit >= 0 && items[i].quantity >= 0
  }

  lemma {:induction false} ApplicableIsPart(items: seq<Item>, r: Rule)
    requires Priced(items)
    ensures 0 <= Applicable(items, r) <= Subtotal(items)
  {
    if items != [] {
      ApplicableIsPart(items[..|items| - 1], r);
      assert Line(items[|items| - 1]) >= 0;
    }
  }

  lemma CancelFactor(x: int, y: int, factor: int)
    requires factor > 0 && x * factor <= y * factor
    ensures x <= y
  {
    assert x > y ==> (x - y) * factor > 0;
  }

  lemma PercentIsPart(base: int, keep: int, whole: int)
    requires base >= 0 && 0 <= keep <= whole && whole > 0
    ensures 0 <= base * keep / whole <= base
  {
    var product := base * keep;
    MulMonotone(base, keep, whole);
    assert product / whole * whole <= product;
    CancelFactor(product / whole, base, whole);
  }

  lemma MulMonotone(base: int, keep: int, whole: int)
    requires base >= 0 && 0 <= keep <= whole
    ensures 0 <= base * keep <= base * whole
  {
  }

  /** No rule takes off more than the items it applies to. */
  lemma DiscountIsPart(items: seq<Item>, r: Rule)
    requires Priced(items)
    ensures DiscountOf(items, r) <= Subtotal(items)
  {
    ApplicableIsPart(items, r);
    if 0 < r.bps < BPS_BASE {
      PercentIsPart(Applicable(items, r), BPS_BASE - r.bps, BPS_BASE);
    }
  }

  /** `left` is what a percentage of `parts` out of `whole` leaves of the base, rounded up. */
  ghost predicate RoundedUp(base: int, parts: int, whole: int, left: int) {
    base * parts <= left * whole < base * parts + whole
  }

  lemma PercentLeaves(base: int, parts: int, whole: int)
    requires whole > 0
    ensures RoundedUp(base, parts, whole, base - base * (whole - parts) / whole)
  {
    var taken := base * (whole - parts);
    assert taken == base * whole - base * parts;
    assert taken / whole * whole <= taken < taken / whole * whole + whole;
    assert (base - taken / whole) * whole == base * whole - taken / whole * whole;
  }

  /** What a rule leaves to pay: below its threshold everything; an amount off down to nothing; a percentage rounded up
      in the seller's favour, unless it is none at all. */
  lemma RuleLeaves(items: seq<Item>, r: Rule)
    requires Priced(items)
    ensures var base := Applicable(items, r); var left := base - DiscountOf(items, r);
      && (base < r.threshold ==> left == base)
      && (base >= r.threshold && r.kind.AmountOff? ==> left == if r.discount > base then 0 else base - r.discount)
      && (base >= r.threshold && r.kind.PercentOff? ==>
            if 0 < r.bps < BPS_BASE then RoundedUp(base, r.bps, BPS_BASE, left) else left == base)
  {
    PercentLeaves(Applicable(items, r), r.bps, BPS_BASE);
  }

  /** An item counts for a rule if the rule is for all, for its category or for its product. */
  lemma {:induction false} ScopeDecides(items: seq<Item>, r: Rule)
    ensures r.scope == All ==> Applicable(items, r) == Subtotal(items)
    ensures r.scope == Category && (forall i :: 0 <= i < |items| ==> items[i].category == r.scopeRef) ==>
      Applicable(items, r) == Subtotal(items)
    ensures r.scope == Product && (forall i :: 0 <= i < |items| ==> items[i].product == r.scopeRef) ==>
      Applicable(items, r) == Subtotal(items)
    ensures r.scope == Category && (forall i :: 0 <= i < |items| ==> items[i].category != r.scopeRef) ==>
      Applicable(items, r) == 0
    ensures r.scope == Product && (forall i :: 0 <= i < |items| ==> items[i].product != r.scopeRef) ==>
      Applicable(items, r) == 0
  {
    if items != [] {
      ScopeDecides(items[..|items| - 1], r);
    }
  }

  lemma {:induction false} ApplicableSplits(xs: seq<Item>, ys: seq<Item>, r: Rule)
    ensures Applicable(xs + ys, r) == Applicable(xs, r) + Applicable(ys, r)
  {
    if ys == [] {
      assert xs + ys == xs;
    } else {
      assert (xs + ys)[..|xs + ys| - 1] == xs + ys[..|ys| - 1];
      ApplicableSplits(xs, ys[..|ys| - 1], r);
    }
  }

  // ---- Ranking ----

  function Qualifying(items: seq<Item>, rules: seq<Rule>): seq<Candidate> {
    if rules == [] then []
    else
      var r := rules[|rules| - 1];
      Qualifying(items, rules[..|rules| - 1])
        + if DiscountOf(items, r) > 0 then [Candidate(r, DiscountOf(items, r))] else []
  }

  /** Candidates are exactly the rules that take something off, with what they take off. */
  lemma {:induction false} QualifyingExactly(items: seq<Item>, rules: seq<Rule>, c: Candidate)
    ensures c in Qualifying(items, rules) <==> c.rule in rules && c.discount == DiscountOf(items, c.rule) > 0
  {
    if rules != [] {
      QualifyingExactly(items, rules[..|rules| - 1], c);
      assert rules == rules[..|rules| - 1] + [rules[|rules| - 1]];
    }
  }

  ghost predicate Descending(cs: seq<Candidate>) {
    forall i, j :: 0 <= i < j < |cs| ==> cs[i].discount >= cs[j].discount
  }

  /** The candidates with one discount, in their order. */
  function WithDiscount(cs: seq<Candidate>, d: int): seq<Candidate> {
    if cs == [] then []
    else if cs[|cs| - 1].discount == d then WithDiscount(cs[..|cs| - 1], d) + [cs[|cs| - 1]]
    else WithDiscount(cs[..|cs| - 1], d)
  }

  /** A stable descending arrangement: the candidates of each discount are the same and in the same order. */
  ghost predicate IsRanking(ranked: seq<Candidate>, cs: seq<Candidate>) {
    Descending(ranked) && forall d: int :: WithDiscount(ranked, d) == WithDiscount(cs, d)
  }

  lemma {:induction false} WithDiscountConcat(xs: seq<Candidate>, ys: seq<Candidate>, d: int)
    ensures WithDiscount(xs + ys, d) == WithDiscount(xs, d) + WithDiscount(ys, d)
  {
    if ys == [] {
      assert xs + ys == xs;
    } else {
      assert (xs + ys)[..|xs + ys| - 1] == xs + ys[..|ys| - 1];
      WithDiscountConcat(xs, ys[..|ys| - 1], d);
    }
  }

  lemma {:induction false} NoneWithDiscount(cs: seq<Candidate>, d: int)
    ensures WithDiscount(cs, d) == [] <==> forall i :: 0 <= i < |cs| ==> cs[i].discount != d
  {
    if cs != [] {
      NoneWithDiscount(cs[..|cs| - 1], d);
    }
  }

  lemma LastIsSmallest(s: seq<Candidate>, t: seq<Candidate>)
    requires s != [] && t != [] && Descending(s) && Descending(t)
    requires forall d: int :: WithDiscount(s, d) == WithDiscount(t, d)
    ensures s[|s| - 1].discount >= t[|t| - 1].discount
  {
    var d := s[|s| - 1].discount;
    NoneWithDiscount(s, d);
    NoneWithDiscount(t, d);
    assert WithDiscount(s, d) == WithDiscount(t, d);
    var i :| 0 <= i < |t| && t[i].discount == d;
  }

  lemma SameFront(a: seq<Candidate>, b: seq<Candidate>, x: Candidate)
    requires a + [x] == b + [x]
    ensures a == b
  {
    assert (a + [x])[..|a|] == a && (b + [x])[..|b|] == b;
  }

  lemma WithDiscountAppend(cs: seq<Candidate>, x: Candidate, d: int)
    ensures WithDiscount(cs + [x], d) == if x.discount == d then WithDiscount(cs, d) + [x] else WithDiscount(cs, d)
  {
    assert (cs + [x])[..|cs|] == cs;
  }

  lemma DropLast(s: seq<Candidate>, t: seq<Candidate>, x: Candidate, d: int)
    requires WithDiscount(s + [x], d) == WithDiscount(t + [x], d)
    ensures WithDiscount(s, d) == WithDiscount(t, d)
  {
    WithDiscountAppend(s, x, d);
    WithDiscountAppend(t, x, d);
    if x.discount == d {
      SameFront(WithDiscount(s, d), WithDiscount(t, d), x);
    }
  }

  /** There is only one stable descending arrangement, so any stable sort gives the same ranking. */
  lemma {:induction false} RankingIsUnique(s: seq<Candidate>, t: seq<Candidate>)
    requires Descending(s) && Descending(t)
    requires forall d: int :: WithDiscount(s, d) == WithDiscount(t, d)
    ensures s == t
    decreases |s|
  {
    if s == [] || t == [] {
      if s != [] {
        NoneWithDiscount(s, s[0].discount);
      }
      if t != [] {
        NoneWithDiscount(t, t[0].discount);
      }
    } else {
      LastIsSmallest(s, t);
      LastIsSmallest(t, s);
      var d := s[|s| - 1].discount;
      assert WithDiscount(s, d)[|WithDiscount(s, d)| - 1] == s[|s| - 1];
      assert WithDiscount(t, d)[|WithDiscount(t, d)| - 1] == t[|t| - 1];
      var fronts, frontt := s[..|s| - 1], t[..|t| - 1];
      assert s == fronts + [s[|s| - 1]] && t == frontt + [s[|s| - 1]];
      forall e: int ensures WithDiscount(fronts, e) == WithDiscount(frontt, e) {
        DropLast(fronts, frontt, s[|s| - 1], e);
      }
      RankingIsUnique(fronts, frontt);
    }
  }

  /** Collects the qualifying rules in the order given, then sorts them stably. */
  method RankPromoRules(items: seq<Item>, rules: seq<Rule>) returns (ranked: seq<Candidate>)
    ensures IsRanking(ranked, Qualifying(items, rules))
  {
    var out: seq<Candidate> := [];
    var i := 0;
    while i < |rules|
      invariant 0 <= i <= |rules|
      invariant out == Qualifying(items, rules[..i])
    {
      var base := SumApplicable(items, rules[i]);
      if base >= rules[i].threshold {
        var d := DiscountOnBase(base, rules[i]);
        if d > 0 {
          out := out + [Candidate(rules[i], d)];
        }
      }
      assert rules[..i + 1][..i] == rules[..i];
      i := i + 1;
    }
    assert rules[..i] == rules;
    ranked := SortStable(out);
  }

  method SumApplicable(items: seq<Item>, r: Rule) returns (sum: int)
    ensures sum == Applicable(items, r)
  {
    sum := 0;
    var i := 0;
    while i < |items|
      invariant 0 <= i <= |items|
      invariant sum == Applicable(items[..i], r)
    {
      assert items[..i + 1][..i] == items[..i];
      if Matches(items[i], r) {
        sum := sum + items[i].unit * items[i].quantity;
      }
      i := i + 1;
    }
    assert items[..i] == items;
  }

  /** Each candidate goes behind the ones that take off at least as much. */
  method SortStable(cs: seq<Candidate>) returns (ranked: seq<Candidate>)
    ensures IsRanking(ranked, cs)
  {
    ranked := [];
    var i := 0;
    while i < |cs|
      invariant 0 <= i <= |cs|
      invariant IsRanking(ranked, cs[..i])
    {
      var x := cs[i];
      var k := |ranked|;
      while k > 0 && ranked[k - 1].discount < x.discount
        invariant 0 <= k <= |ranked|
        invariant forall j :: k <= j < |ranked| ==> ranked[j].discount < x.discount
      {
        k := k - 1;
      }
      InsertKeepsRanking(ranked, cs[..i], k, x);
      assert cs[..i + 1] == cs[..i] + [x];
      ranked := ranked[..k] + [x] + ranked[k..];
      i := i + 1;
    }
    assert cs[..i] == cs;
  }

  lemma InsertKeepsRanking(ranked: seq<Candidate>, cs: seq<Candidate>, k: nat, x: Candidate)
    requires IsRanking(ranked, cs) && k <= |ranked|
    requires k > 0 ==> ranked[k - 1].discount >= x.discount
    requires forall j :: k <= j < |ranked| ==> ranked[j].discount < x.discount
    ensures IsRanking(ranked[..k] + [x] + ranked[k..], cs + [x])
  {
    var later := ranked[..k] + [x] + ranked[k..];
    forall i, j | 0 <= i < j < |later| ensures later[i].discount >= later[j].discount {
      if i < k && k > 0 {
        assert ranked[i].discount >= ranked[k - 1].discount;
      }
    }
    forall d: int ensures WithDiscount(later, d) == WithDiscount(cs + [x], d) {
      InsertedFilter(ranked, k, x, d);
      assert (cs + [x])[..|cs|] == cs;
      assert WithDiscount(ranked, d) == WithDiscount(cs, d);
    }
  }

  lemma InsertedFilter(ranked: seq<Candidate>, k: nat, x: Candidate, d: int)
    requires k <= |ranked| && forall j :: k <= j < |ranked| ==> ranked[j].discount < x.discount
    ensures WithDiscount(ranked[..k] + [x] + ranked[k..], d) ==
      if x.discount == d then WithDiscount(ranked, d) + [x] else WithDiscount(ranked, d)
  {
    WithDiscountConcat(ranked[..k] + [x], ranked[k..], d);
    WithDiscountConcat(ranked[..k], [x], d);
    WithDiscountConcat(ranked[..k], ranked[k..], d);
    assert ranked == ranked[..k] + ranked[k..];
    assert [x][..0] == [];
    if x.discount == d {
      NoneWithDiscount(ranked[k..], d);
    }
  }

  // ---- The coupon ----

  function CouponDiscount(b: Batch, base: int): int {
    if base <= 0 || base < b.threshold then 0
    else
      match b.kind
      case AmountOff => if b.amount > base then base else b.amount
      case PercentOff => if b.amount <= 0 || b.amount >= 100 then 0 else base * (100 - b.amount) / 100
  }

  /** A coupon never takes off more than the base, and a larger base never takes off less. */
  lemma CouponIsMonotone(b: Batch, base: int, larger: int)
    requires base <= larger && CouponDiscount(b, base) > 0
    ensures CouponDiscount(b, base) <= CouponDiscount(b, larger) <= larger
  {
    if b.kind.PercentOff? {
      PercentIsPart(larger, 100 - b.amount, 100);
      assert base * (100 - b.amount) <= larger * (100 - b.amount);
    }
  }

  /** What a coupon leaves to pay: everything below its threshold; an amount off down to nothing; a percentage rounded
      up, unless it is none at all. */
  lemma CouponLeaves(b: Batch, base: int)
    ensures var left := base - CouponDiscount(b, base);
      && (base <= 0 || base < b.threshold ==> left == base)
      && (base > 0 && base >= b.threshold && b.kind.AmountOff? ==>
            left == if b.amount > base then 0 else base - b.amount)
      && (base > 0 && base >= b.threshold && b.kind.PercentOff? ==>
            if 0 < b.amount < 100 then RoundedUp(base, b.amount, 100, left) else left == base)
  {
    PercentLeaves(base, b.amount, 100);
  }

  // ---- Quote and order ----

  datatype Quote = Quote(subtotal: int, promos: seq<Candidate>, coupon: Option<Batch>)

  datatype Refusal = ThresholdNotMet | CouponUnavailable | BudgetError

  /** quoteOrder: the coupon has to reach its threshold behind the best promotion. */
  function MakeQuote(subtotal: int, promos: seq<Candidate>, coupon: Option<Batch>): Result<Quote, Refusal> {
    if coupon.Some? && CouponDiscount(coupon.value, subtotal - if promos == [] then 0 else promos[0].discount) <= 0
    then Failure(ThresholdNotMet)
    else Success(Quote(subtotal, promos, coupon))
  }

  /** The candidates of a quote: descending, positive, and no more than the subtotal. */
  ghost predicate Sane(subtotal: int, promos: seq<Candidate>) {
    && subtotal >= 0 && Descending(promos)
    && forall i :: 0 <= i < |promos| ==> 0 < promos[i].discount <= subtotal
  }

  /** How the budget update of a candidate ends. */
  datatype Charge = Charged | Exhausted | Broken

  /** `rule`: the id written to the order, 0 for none. */
  datatype Bill = Bill(promo: int, coupon: int, final: int, rule: nat)

  /** The bill of a quote when the charges end like that: the first promotion charged, the coupon on the rest. */
  ghost predicate Bills(q: Quote, charges: seq<Charge>, bill: Bill)
    requires |charges| == |q.promos|
  {
    var n := FirstCharged(charges);
    && bill.promo == (if n < |charges| then q.promos[n].discount else 0)
    && bill.rule == (if n < |charges| then q.promos[n].rule.id else 0)
    && bill.coupon == (if q.coupon.Some? then CouponDiscount(q.coupon.value, q.subtotal - bill.promo) else 0)
    && (q.coupon.Some? ==> bill.coupon > 0)
    && bill.final == q.subtotal - bill.promo - bill.coupon >= 0
  }

  function FirstCharged(charges: seq<Charge>): nat
    ensures FirstCharged(charges) <= |charges|
  {
    if charges == [] || !charges[0].Exhausted? then 0 else 1 + FirstCharged(charges[1..])
  }

  /** applyDiscountsInTx: the first promotion whose budget is not used up, then the coupon on the rest, all or
      nothing. */
  method ApplyDiscounts(q: Quote, charges: seq<Charge>, couponFree: bool) returns (r: Result<Bill, Refusal>)
    requires |charges| == |q.promos| && Sane(q.subtotal, q.promos) && MakeQuote(q.subtotal, q.promos, q.coupon).Success?
    ensures var n := FirstCharged(charges);
      && (r.Failure? <==> (n < |charges| && charges[n].Broken?) || (q.coupon.Some? && !couponFree))
      && (r.Failure? ==> r.error != ThresholdNotMet)
      && (r.Success? ==> Bills(q, charges, r.value))
  {
    var promo, rule, i := 0, 0, 0;
    while i < |q.promos|
      invariant 0 <= i <= |q.promos| && promo == 0 && rule == 0
      invariant FirstCharged(charges) == i + FirstCharged(charges[i..])
    {
      FirstChargedStep(charges, i);
      if charges[i].Charged? {
        promo, rule := q.promos[i].discount, q.promos[i].rule.id;
        break;
      }
      if charges[i].Broken? {
        return Failure(BudgetError);
      }
      i := i + 1;
    }
    var base, coupon := q.subtotal - promo, 0;
    if q.coupon.Some? {
      CouponIsMonotone(q.coupon.value, q.subtotal - (if q.promos == [] then 0 else q.promos[0].discount), base);
      coupon := CouponDiscount(q.coupon.value, base);
      if coupon <= 0 {
        return Failure(ThresholdNotMet);
      }
      if !couponFree {
        return Failure(CouponUnavailable);
      }
    }
    var final := base - coupon;
    if final < 0 {
      final := 0;
    }
    r := Success(Bill(promo, coupon, final, rule));
  }

  /** The first candidate whose budget is not used up, if there is one. */
  lemma {:induction false} FirstChargedIs(charges: seq<Charge>)
    ensures var n := FirstCharged(charges);
      && (forall i :: 0 <= i < n ==> charges[i].Exhausted?)
      && (n < |charges| ==> !charges[n].Exhausted?)
  {
    if charges != [] && charges[0].Exhausted? {
      FirstChargedIs(charges[1..]);
      forall i | 0 <= i < FirstCharged(charges) ensures charges[i].Exhausted? {
        assert i > 0 ==> charges[i] == charges[1..][i - 1];
      }
    }
  }

  /** A quote is refused exactly for a coupon that takes nothing off behind the best promotion. */
  lemma QuoteIsRefusedIff(subtotal: int, promos: seq<Candidate>, coupon: Option<Batch>)
    ensures var left := subtotal - if promos == [] then 0 else promos[0].discount;
      var r := MakeQuote(subtotal, promos, coupon);
      && (r.Failure? ==> coupon.Some? && CouponDiscount(coupon.value, left) <= 0)
      && (coupon.Some? && (left <= 0 || left < coupon.value.threshold) ==> r == Failure(ThresholdNotMet))
      && (coupon.Some? && 0 < left && coupon.value.threshold <= left ==>
            coupon.value.kind.AmountOff? && coupon.value.amount > 0 ==> r.Success?)
      && (coupon.None? ==> r.Success?)
      && (r.Success? ==> r.value == Quote(subtotal, promos, coupon))
  {
  }

  lemma FirstChargedStep(charges: seq<Charge>, i: nat)
    requires i < |charges|
    ensures charges[i].Exhausted? ==> FirstCharged(charges[i..]) == 1 + FirstCharged(charges[i + 1..])
    ensures !charges[i].Exhausted? ==> FirstCharged(charges[i..]) == 0
  {
    assert charges[i..][1..] == charges[i + 1..];
  }

  /** The ranking of a cart gives sane candidates, so accepting a quote is a promise the order keeps. */
  lemma RankingIsSane(items: seq<Item>, rules: seq<Rule>, ranked: seq<Candidate>)
    requires Priced(items) && IsRanking(ranked, Qualifying(items, rules))
    ensures Sane(Subtotal(items), ranked)
  {
    ApplicableIsPart(items, Rule(0, AmountOff, All, 0, 0, 0, 0));
    forall i | 0 <= i < |ranked| ensures 0 < ranked[i].discount <= Subtotal(items) {
      var d := ranked[i].discount;
      NoneWithDiscount(ranked, d);
      NoneWithDiscount(Qualifying(items, rules), d);
      assert WithDiscount(ranked, d) == WithDiscount(Qualifying(items, rules), d);
      QualifyingDiscounts(items, rules);
    }
  }

  lemma {:induction false} QualifyingDiscounts(items: seq<Item>, rules: seq<Rule>)
    requires Priced(items)
    ensures forall i :: 0 <= i < |Qualifying(items, rules)| ==>
      0 < Qualifying(items, rules)[i].discount <= Subtotal(items)
  {
    if rules != [] {
      QualifyingDiscounts(items, rules[..|rules| - 1]);
      DiscountIsPart(items, rules[|rules| - 1]);
    }
  }

  /** CalculateBestDiscount drops the candidates whose budget for today is too small; the rest stays as it was
      ranked. */
  function Keep(cs: seq<Candidate>, allowed: Candidate -> bool): seq<Candidate> {
    if cs == [] then []
    else if allowed(cs[|cs| - 1]) then Keep(cs[..|cs| - 1], allowed) + [cs[|cs| - 1]]
    else Keep(cs[..|cs| - 1], allowed)
  }

  lemma SaneAppend(subtotal: int, cs: seq<Candidate>, x: Candidate)
    requires Sane(subtotal, cs) && 0 < x.discount <= subtotal
    requires forall i :: 0 <= i < |cs| ==> cs[i].discount >= x.discount
    ensures Sane(subtotal, cs + [x])
  {
  }

  lemma {:induction false} KeptCandidatesAreSane(subtotal: int, cs: seq<Candidate>, allowed: Candidate -> bool)
    requires Sane(subtotal, cs)
    ensures Sane(subtotal, Keep(cs, allowed))
    ensures forall i :: 0 <= i < |Keep(cs, allowed)| ==> Keep(cs, allowed)[i] in cs && allowed(Keep(cs, allowed)[i])
  {
    if cs != [] {
      var front, last := cs[..|cs| - 1], cs[|cs| - 1];
      var kept := Keep(front, allowed);
      KeptCandidatesAreSane(subtotal, front, allowed);
      forall i | 0 <= i < |kept| ensures kept[i].discount >= last.discount && kept[i] in cs {
        var k :| 0 <= k < |front| && front[k] == kept[i];
        assert cs[k] == kept[i];
      }
      if allowed(last) {
        SaneAppend(subtotal, kept, last);
      }
    }
  }

  lemma {:induction false} AllowedCandidatesAreKept(cs: seq<Candidate>, allowed: Candidate -> bool, c: Candidate)
    ensures c in Keep(cs, allowed) <==> c in cs && allowed(c)
  {
    if cs != [] {
      AllowedCandidatesAreKept(cs[..|cs| - 1], allowed, c);
      assert cs == cs[..|cs| - 1] + [cs[|cs| - 1]];
    }
  }
}
