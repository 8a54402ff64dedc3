/** Usage pricing (apps/api/src/instance.rs): the price tiers of a plan, what they cost, and the check
    that a provider's price means the same. */
module Pricing {
  import opened Common
  import opened Text

  const MAX_SAFE_INTEGER: nat := 9_007_199_254_740_991
  const U64_MAX: nat := 18_446_744_073_709_551_615
  const STORAGE_UNIT: nat := 1_000

  // ---------------------------------------------------------------- plans

  datatype PlanTier = Free | PayAsYouGo | Pro

  datatype Plan = Plan(
    displayName: string, currency: string, storageBytes: nat, monthlyReads: nat, monthlyWrites: nat,
    monthlyActiveUsers: nat, projectLimit: Option<nat>, basePriceCents: Option<nat>, perOrganization: bool,
    readsOverage: bool, writesOverage: bool, signupsOverage: bool, overageEnabled: bool, active: bool)

  predicate ValidLimit(value: nat) { 0 < value <= MAX_SAFE_INTEGER }

  predicate ValidPlan(tier: PlanTier, plan: Plan) {
    && 0 < |Trim(plan.displayName)| <= 100
    && |plan.currency| == 3 && (forall c :: c in plan.currency ==> 'a' <= c <= 'z')
    && ValidLimit(plan.storageBytes) && ValidLimit(plan.monthlyReads) && ValidLimit(plan.monthlyWrites)
    && ValidLimit(plan.monthlyActiveUsers)
    && plan.projectLimit != Some(0)
    && plan.storageBytes % STORAGE_UNIT == 0
    && (plan.basePriceCents.Some? ==> plan.basePriceCents.value <= MAX_SAFE_INTEGER)
    && plan.overageEnabled == (plan.readsOverage || plan.writesOverage || plan.signupsOverage)
    && match tier
       case Free => plan.perOrganization && plan.basePriceCents == Some(0) && plan.projectLimit.Some?
                    && !plan.overageEnabled && plan.active
       case PayAsYouGo => plan.basePriceCents.None? && plan.overageEnabled
       case Pro => plan.basePriceCents.Some? && plan.basePriceCents.value != 0 && plan.overageEnabled
  }

  /** What an accepted plan of each tier costs at the outset: a free one nothing, and no overage either; a plan paid
      by use no base price; a pro plan a base price; and overage is on exactly if some metric has it. */
  lemma AcceptedPlanTerms(tier: PlanTier, plan: Plan)
    requires ValidPlan(tier, plan)
    ensures plan.overageEnabled <==> plan.readsOverage || plan.writesOverage || plan.signupsOverage
    ensures tier == Free ==> plan.basePriceCents == Some(0) && !plan.overageEnabled && plan.projectLimit.Some?
    ensures tier == PayAsYouGo ==> plan.basePriceCents == None && plan.overageEnabled
    ensures tier == Pro ==> plan.basePriceCents.Some? && 0 < plan.basePriceCents.value && plan.overageEnabled
    ensures plan.storageBytes % 1_000 == 0 && 0 < plan.storageBytes <= 9_007_199_254_740_991
  {
  }

  // ---------------------------------------------------------------- tiers

  datatype Metric = Reads | Writes | StorageByteHours | MonthlyActiveUsers

  /** A price per unit, in cents as a decimal text, up to a usage or without end. */
  datatype Tier = Tier(upTo: Option<nat>, rate: string)

  /** Allowance, breakpoint, first and later rate of a metric; none if the allowance overflows. */
  datatype Terms = Terms(included: nat, breakpoint: Option<nat>, first: string, later: string)

  function TermsOf(metric: Metric, plan: Plan): Option<Terms> {
    match metric
    case Reads => Some(Terms(plan.monthlyReads, None, "0.000025", "0.000025"))
    case Writes => Some(Terms(plan.monthlyWrites, Some(1_000_000), "0.00015", "0.000225"))
    case StorageByteHours =>
      var included := plan.storageBytes / STORAGE_UNIT * 730;
      if U64_MAX < included then None else Some(Terms(included, None, "0.000000027397", "0.000000027397"))
    case MonthlyActiveUsers => Some(Terms(plan.monthlyActiveUsers, Some(50_000), "0.5", "1.5"))
  }

  function TiersOf(terms: Terms): seq<Tier> {
    [Tier(Some(terms.included), "0")]
    + (if terms.breakpoint.Some? && terms.included < terms.breakpoint.value
       then [Tier(terms.breakpoint, terms.first)] else [])
    + [Tier(None, if terms.breakpoint.Some? then terms.later else terms.first)]
  }

  function PriceTiers(metric: Metric, plan: Plan): Option<seq<Tier>> {
    var terms := TermsOf(metric, plan);
    if terms.None? then None else Some(TiersOf(terms.value))
  }

  // ---------------------------------------------------------------- decimal texts

  predicate DigitsIn(s: string, from: nat, to: nat) requires from <= to <= |s| {
    forall k :: from <= k < to ==> '0' <= s[k] <= '9'
  }

  /** Digits, possibly followed by a point and more digits. */
  predicate Plain(s: string) {
    var i := Find(s, '.');
    0 < i && DigitsIn(s, 0, i) && (i < |s| ==> DigitsIn(s, i + 1, |s|))
  }

  /** The number written from one position to another. */
  function NumberIn(s: string, from: nat, to: nat): nat
    requires from <= to <= |s| && DigitsIn(s, from, to)
  {
    if from == to then 0 else NumberIn(s, from, to - 1) * 10 + (s[to - 1] as int - '0' as int)
  }

  function Pow10(n: nat): (p: nat)
    ensures p > 0
  {
    if n == 0 then 1 else 10 * Pow10(n - 1)
  }

  /** The digits after a point at `i`, as a fraction. */
  function Fraction(s: string, i: nat): real
    requires i < |s| && DigitsIn(s, i + 1, |s|)
  {
    NumberIn(s, i + 1, |s|) as real / Pow10(|s| - i - 1) as real
  }

  /** The number a plain decimal text denotes. */
  function Amount(s: string): real requires Plain(s) {
    var i := Find(s, '.');
    NumberIn(s, 0, i) as real + if i == |s| then 0.0 else Fraction(s, i)
  }

  function TrimZeros(s: string): string {
    if s != "" && s[|s| - 1] == '0' then TrimZeros(s[..|s| - 1]) else s
  }

  function Normalized(value: string): string { WithoutZeros(Trim(value)) }

  function WithoutZeros(s: string): string {
    var i := Find(s, '.');
    if i == |s| then s
    else if TrimZeros(s[i + 1..]) == "" then s[..i]
    else TrimZeros(s)
  }

  lemma {:induction false} NumberSame(s: string, t: string, from: nat, to: nat)
    requires from <= to <= |s| && to <= |t| && forall k :: from <= k < to ==> s[k] == t[k]
    requires DigitsIn(s, from, to)
    ensures DigitsIn(t, from, to) && NumberIn(s, from, to) == NumberIn(t, from, to)
  {
    if from == to {
    } else {
      NumberSame(s, t, from, to - 1);
    }
  }

  lemma TenthOf(n: nat, p: nat)
    requires p > 0
    ensures (n * 10) as real / (10 * p) as real == n as real / p as real
  {
  }

  /** Dropping a last zero after the point keeps the fraction. */
  lemma DropZero(s: string, i: nat)
    requires i + 1 < |s| && s[|s| - 1] == '0'
    ensures DigitsIn(s, i + 1, |s|) <==> DigitsIn(s[..|s| - 1], i + 1, |s| - 1)
    ensures DigitsIn(s, i + 1, |s|) ==> Fraction(s, i) == Fraction(s[..|s| - 1], i)
  {
    var t, n := s[..|s| - 1], |s| - 1;
    assert forall k :: i + 1 <= k < n ==> s[k] == t[k];
    if DigitsIn(s, i + 1, |s|) {
      NumberSame(s, t, i + 1, n);
      TenthOf(NumberIn(t, i + 1, n), Pow10(n - i - 1));
    }
  }

  /** Trimming zeros stops at the point at the latest and keeps the fraction. */
  lemma {:induction false} TrimmedFraction(s: string, i: nat)
    requires i < |s| && s[i] == '.'
    ensures i < |TrimZeros(s)| <= |s| && TrimZeros(s) == s[..|TrimZeros(s)|]
    ensures DigitsIn(s, i + 1, |s|) <==> DigitsIn(TrimZeros(s), i + 1, |TrimZeros(s)|)
    ensures DigitsIn(s, i + 1, |s|) ==> Fraction(s, i) == Fraction(TrimZeros(s), i)
    ensures |TrimZeros(s)| == i + 1 <==> TrimZeros(s[i + 1..]) == ""
  {
    if s[|s| - 1] == '0' {
      var t := s[..|s| - 1];
      DropZero(s, i);
      TrimmedFraction(t, i);
      assert s[i + 1..][..|s| - i - 2] == t[i + 1..];
    } else {
      assert s[..|s|] == s;
    }
  }

  /** A text cut at or after its point, or before it, reads the same up to there. */
  lemma CutAmount(s: string, t: string, i: nat)
    requires i == Find(s, '.') < |s| && i <= |t| <= |s| && t == s[..|t|]
    ensures Find(t, '.') == i
    ensures DigitsIn(s, 0, i) <==> DigitsIn(t, 0, i)
    ensures DigitsIn(s, 0, i) ==> NumberIn(s, 0, i) == NumberIn(t, 0, i)
  {
    FindFirst(t, i, '.');
    if DigitsIn(s, 0, i) { NumberSame(s, t, 0, i); }
  }

  /** Normalising keeps the number, and only a plain text has a plain normal form. */
  lemma NormalizedKeepsAmount(value: string)
    ensures Plain(Trim(value)) <==> Plain(Normalized(value))
    ensures Plain(Trim(value)) ==> Amount(Normalized(value)) == Amount(Trim(value))
  {
    var s := Trim(value);
    var i := Find(s, '.');
    if i < |s| {
      TrimmedFraction(s, i);
      CutAmount(s, Normalized(value), i);
    }
  }

  /** Zeros at the end. */
  function Zeros(n: nat): string { if n == 0 then "" else Zeros(n - 1) + "0" }

  lemma {:induction false} TrimPadded(s: string, n: nat)
    ensures TrimZeros(s + Zeros(n)) == TrimZeros(s)
  {
    if n == 0 {
      assert s + Zeros(n) == s;
    } else {
      TrimPadded(s, n - 1);
      OneZero(s, Zeros(n - 1));
      TrimOne(s + Zeros(n - 1), (s + Zeros(n - 1)) + "0");
    }
  }

  lemma OneZero(s: string, z: string)
    ensures s + (z + "0") == (s + z) + "0"
  {
  }

  lemma TrimOne(s: string, t: string)
    requires t == s + "0"
    ensures TrimZeros(t) == TrimZeros(s)
  {
    assert t[..|t| - 1] == s;
  }

  lemma PaddedFraction(s: string, t: string, i: nat, n: nat)
    requires i == Find(s, '.') < |s| && t == s + Zeros(n)
    ensures Find(t, '.') == i && i < |t| && t[..i] == s[..i] && TrimZeros(t) == TrimZeros(s)
    ensures TrimZeros(t[i + 1..]) == TrimZeros(s[i + 1..])
  {
    assert t[i] == s[i] && forall k :: 0 <= k < i ==> t[k] == s[k];
    FindFirst(t, i, '.');
    TrimPadded(s, n);
    assert t[i + 1..] == s[i + 1..] + Zeros(n);
    TrimPadded(s[i + 1..], n);
  }

  lemma PaddedWhole(s: string, t: string, n: nat)
    requires '.' !in s && t == s + ("." + Zeros(n))
    ensures Find(t, '.') == |s| < |t| && t[..|s|] == s && TrimZeros(t[|s| + 1..]) == ""
  {
    assert t[|s|] == '.' && forall k :: 0 <= k < |s| ==> t[k] == s[k];
    FindFirst(t, |s|, '.');
    assert t[|s| + 1..] == "" + Zeros(n);
    TrimPadded("", n);
  }

  /** A decimal padded with zeros after the point has the same normal form, and a whole number with nothing but
      zeros after the point that of the number: so the provider's way of writing a rate does not matter. */
  lemma PaddingIsIgnored(s: string, t: string, n: nat)
    requires t == if '.' in s then s + Zeros(n) else s + ("." + Zeros(n))
    ensures WithoutZeros(t) == WithoutZeros(s)
    ensures '.' !in s ==> WithoutZeros(s) == s
  {
    if '.' in s {
      PaddedFraction(s, t, Find(s, '.'), n);
    } else {
      PaddedWhole(s, t, n);
      FindFirst(s, |s|, '.');
    }
  }

  // ---------------------------------------------------------------- graduated cost

  /** A band of usage with a rate per unit and a fee for entering it. */
  datatype Band = Band(upTo: Option<nat>, rate: real, flat: real)

  /** Graduated pricing: each band charges for the usage that falls into it. */
  function Cost(bands: seq<Band>, previous: nat, usage: nat): real {
    if bands == [] || usage <= previous then 0.0
    else
      var top := if bands[0].upTo.None? then usage else Min(usage, bands[0].upTo.value);
      bands[0].flat + bands[0].rate * Max(0, top - previous) as real
      + Cost(bands[1..], if bands[0].upTo.None? then usage else Max(previous, bands[0].upTo.value), usage)
  }

  function BandsOf(tiers: seq<Tier>): seq<Band>
    requires forall i :: 0 <= i < |tiers| ==> Plain(tiers[i].rate)
  {
    if tiers == [] then []
    else [Band(tiers[0].upTo, Amount(tiers[0].rate), 0.0)] + BandsOf(tiers[1..])
  }

  /** Free to the allowance, first rate to the breakpoint, later rate beyond; with no breakpoint, or one
      inside the allowance, a single rate. */
  function ClosedCost(included: nat, breakpoint: Option<nat>, first: real, later: real, usage: nat): real {
    if breakpoint.None? then first * Max(0, usage - included) as real
    else
      var from := Max(included, breakpoint.value);
      first * Max(0, Min(usage, from) - included) as real + later * Max(0, usage - from) as real
  }

  predicate PlainTerms(terms: Terms) { Plain(terms.first) && Plain(terms.later) }

  lemma ZeroIsPlain()
    ensures Plain("0") && Amount("0") == 0.0
  {
    FindFirst("0", 1, '.');
    assert NumberIn("0", 0, 1) == 0;
  }

  lemma BandsOfTwo(a: Tier, b: Tier)
    requires Plain(a.rate) && Plain(b.rate)
    ensures BandsOf([a, b]) == [Band(a.upTo, Amount(a.rate), 0.0), Band(b.upTo, Amount(b.rate), 0.0)]
  {
    assert [a, b][1..] == [b] && [b][1..] == [];
    assert BandsOf([b]) == [Band(b.upTo, Amount(b.rate), 0.0)];
  }

  lemma BandsOfThree(a: Tier, b: Tier, c: Tier)
    requires Plain(a.rate) && Plain(b.rate) && Plain(c.rate)
    ensures BandsOf([a, b, c])
         == [Band(a.upTo, Amount(a.rate), 0.0), Band(b.upTo, Amount(b.rate), 0.0), Band(c.upTo, Amount(c.rate), 0.0)]
  {
    assert [a, b, c][1..] == [b, c];
    BandsOfTwo(b, c);
  }

  lemma TiersPlain(terms: Terms)
    requires PlainTerms(terms)
    ensures Plain("0") && Amount("0") == 0.0
    ensures forall i :: 0 <= i < |TiersOf(terms)| ==> Plain(TiersOf(terms)[i].rate)
  {
    ZeroIsPlain();
  }

  /** The bands the tiers stand for. */
  function BandShape(included: nat, breakpoint: Option<nat>, first: real, later: real): seq<Band> {
    if breakpoint.None? then [Band(Some(included), 0.0, 0.0), Band(None, first, 0.0)]
    else if breakpoint.value <= included then [Band(Some(included), 0.0, 0.0), Band(None, later, 0.0)]
    else [Band(Some(included), 0.0, 0.0), Band(breakpoint, first, 0.0), Band(None, later, 0.0)]
  }

  lemma TiersMean(terms: Terms)
    requires PlainTerms(terms)
    ensures forall i :: 0 <= i < |TiersOf(terms)| ==> Plain(TiersOf(terms)[i].rate)
    ensures BandsOf(TiersOf(terms))
        == BandShape(terms.included, terms.breakpoint, Amount(terms.first), Amount(terms.later))
  {
    TiersPlain(terms);
    var free := Tier(Some(terms.included), "0");
    if terms.breakpoint.None? {
      assert TiersOf(terms) == [free, Tier(None, terms.first)];
      BandsOfTwo(free, Tier(None, terms.first));
    } else if terms.breakpoint.value <= terms.included {
      assert TiersOf(terms) == [free, Tier(None, terms.later)];
      BandsOfTwo(free, Tier(None, terms.later));
    } else {
      assert TiersOf(terms) == [free, Tier(terms.breakpoint, terms.first), Tier(None, terms.later)];
      BandsOfThree(free, Tier(terms.breakpoint, terms.first), Tier(None, terms.later));
    }
  }

  lemma CostOfShape(included: nat, breakpoint: Option<nat>, first: real, later: real, usage: nat)
    ensures Cost(BandShape(included, breakpoint, first, later), 0, usage)
         == ClosedCost(included, breakpoint, first, later, usage)
  {
    var free := Band(Some(included), 0.0, 0.0);
    if breakpoint.None? {
      TwoBands(free, Band(None, first, 0.0), usage);
    } else if breakpoint.value <= included {
      TwoBands(free, Band(None, later, 0.0), usage);
    } else {
      ThreeBands(free, Band(breakpoint, first, 0.0), Band(None, later, 0.0), usage);
    }
  }

  lemma LastBand(end: Band, previous: nat, usage: nat)
    requires end.upTo.None? && end.flat == 0.0
    ensures Cost([end], previous, usage) == end.rate * Max(0, usage - previous) as real
  {
    assert [end][1..] == [];
  }

  lemma TwoBands(free: Band, end: Band, usage: nat)
    requires free.upTo.Some? && end.upTo.None? && free.flat == 0.0 == end.flat && free.rate == 0.0
    ensures Cost([free, end], 0, usage) == end.rate * Max(0, usage - free.upTo.value) as real
  {
    assert [free, end][1..] == [end];
    LastBand(end, free.upTo.value, usage);
  }

  lemma ThreeBands(free: Band, middle: Band, end: Band, usage: nat)
    requires free.upTo.Some? && middle.upTo.Some? && end.upTo.None?
    requires free.flat == middle.flat == end.flat == 0.0 && free.rate == 0.0 && free.upTo.value < middle.upTo.value
    ensures Cost([free, middle, end], 0, usage)
         == middle.rate * Max(0, Min(usage, middle.upTo.value) - free.upTo.value) as real
            + end.rate * Max(0, usage - middle.upTo.value) as real
  {
    var included := free.upTo.value;
    assert [free, middle, end][1..] == [middle, end] && [middle, end][1..] == [end];
    LastBand(end, middle.upTo.value, usage);
    if included < usage {
      assert Cost([middle, end], included, usage)
          == middle.rate * Max(0, Min(usage, middle.upTo.value) - included) as real
             + Cost([end], middle.upTo.value, usage);
    }
  }

  /** What the next unit costs: nothing inside the allowance, then the first rate, then the later one. */
  lemma NextUnit(included: nat, breakpoint: Option<nat>, first: real, later: real, usage: nat)
    ensures ClosedCost(included, breakpoint, first, later, usage + 1)
        - ClosedCost(included, breakpoint, first, later, usage)
         == if usage < included then 0.0
            else if breakpoint.None? || usage < breakpoint.value then first else later
  {
    if breakpoint.None? {
      Slope(first, usage - included);
    } else {
      var from := Max(included, breakpoint.value);
      Slope(first, Min(usage, from) - included);
      Slope(later, usage - from);
    }
  }

  lemma Slope(rate: real, x: int)
    ensures rate * Max(0, x + 1) as real - rate * Max(0, x) as real == if x < 0 then 0.0 else rate
  {
  }

  // ---------------------------------------------------------------- the plans' own prices

  /** The value of a text with one digit before the point. */
  lemma RateIs(s: string, n: nat, p: nat)
    requires 2 < |s| && '0' <= s[0] <= '9' && s[1] == '.' && DigitsIn(s, 2, |s|)
    requires NumberIn(s, 2, |s|) == n && Pow10(|s| - 2) == p
    ensures Plain(s) && Amount(s) == (s[0] as int - '0' as int) as real + n as real / p as real
  {
    FindFirst(s, 1, '.');
    assert NumberIn(s, 0, 0) == 0;
    assert NumberIn(s, 0, 1) == s[0] as int - '0' as int;
  }

  /** Cents per unit up to the breakpoint. */
  function FirstRate(metric: Metric): real {
    match metric
    case Reads => 0.000025
    case Writes => 0.00015
    case StorageByteHours => 0.000000027397
    case MonthlyActiveUsers => 0.5
  }

  /** Cents per unit beyond it. */
  function LaterRate(metric: Metric): real {
    match metric
    case Reads => 0.000025
    case Writes => 0.000225
    case StorageByteHours => 0.000000027397
    case MonthlyActiveUsers => 1.5
  }

  lemma {:induction false} Pow10Sum(m: nat, n: nat)
    ensures Pow10(m + n) == Pow10(m) * Pow10(n)
  {
    if n == 0 {
    } else {
      Pow10Sum(m, n - 1);
    }
  }

  lemma SmallPowers()
    ensures Pow10(1) == 10 && Pow10(5) == 100_000 && Pow10(6) == 1_000_000 && Pow10(12) == 1_000_000_000_000
  {
    assert Pow10(2) == 100 && Pow10(3) == 1_000;
    Pow10Sum(2, 3);
    Pow10Sum(3, 3);
    Pow10Sum(6, 6);
  }

  lemma UserRates()
    ensures Plain("0.5") && Amount("0.5") == 0.5 && Plain("1.5") && Amount("1.5") == 1.5
  {
    SmallPowers();
    RateIs("0.5", 5, 10);
    RateIs("1.5", 5, 10);
  }

  lemma ReadRate()
    ensures Plain("0.000025") && Amount("0.000025") == 0.000025
  {
    SmallPowers();
    RateIs("0.000025", 25, 1_000_000);
  }

  lemma FirstWriteRate()
    ensures Plain("0.00015") && Amount("0.00015") == 0.00015
  {
    SmallPowers();
    RateIs("0.00015", 15, 100_000);
  }

  lemma LaterWriteRate()
    ensures Plain("0.000225") && Amount("0.000225") == 0.000225
  {
    SmallPowers();
    RateIs("0.000225", 225, 1_000_000);
  }

  lemma StorageRate()
    ensures Plain("0.000000027397") && Amount("0.000000027397") == 0.000000027397
  {
    SmallPowers();
    var s := "0.000000027397";
    assert NumberIn(s, 2, 9) == 0;
    assert NumberIn(s, 2, 12) == 273;
    assert NumberIn(s, 2, 14) == 27397;
    RateIs(s, 27397, 1_000_000_000_000);
  }

  lemma RatesKnown(metric: Metric, plan: Plan)
    requires TermsOf(metric, plan).Some?
    ensures var terms := TermsOf(metric, plan).value;
      PlainTerms(terms) && Amount(terms.first) == FirstRate(metric) && Amount(terms.later) == LaterRate(metric)
  {
    match metric
    case Reads => ReadRate();
    case Writes => FirstWriteRate(); LaterWriteRate();
    case StorageByteHours => StorageRate();
    case MonthlyActiveUsers => UserRates();
  }

  function Included(metric: Metric, plan: Plan): nat {
    match metric
    case Reads => plan.monthlyReads
    case Writes => plan.monthlyWrites
    case StorageByteHours => plan.storageBytes / STORAGE_UNIT * 730
    case MonthlyActiveUsers => plan.monthlyActiveUsers
  }

  function Breakpoint(metric: Metric): Option<nat> {
    match metric
    case Writes => Some(1_000_000)
    case MonthlyActiveUsers => Some(50_000)
    case _ => None
  }

  /** What a plan charges for a usage. */
  function PlanCost(metric: Metric, plan: Plan, usage: nat): real {
    ClosedCost(Included(metric, plan), Breakpoint(metric), FirstRate(metric), LaterRate(metric), usage)
  }

  /** The limits of an accepted plan are never zero and its tiers strictly ascend to an open end. */
  ghost predicate Ascending(tiers: seq<Tier>) {
    && tiers != [] && tiers[|tiers| - 1].upTo.None?
    && (forall i :: 0 <= i < |tiers| - 1 ==> tiers[i].upTo.Some? && 0 < tiers[i].upTo.value)
    && (forall i :: 0 <= i < |tiers| - 2 ==> tiers[i].upTo.value < tiers[i + 1].upTo.value)
  }

  /** For every accepted plan, metric and usage: tier construction succeeds, the tiers ascend, and their
      graduated cost is the closed form. */
  lemma AcceptedPlanCost(tier: PlanTier, plan: Plan, metric: Metric, usage: nat)
    requires ValidPlan(tier, plan)
    ensures PriceTiers(metric, plan).Some?
    ensures var tiers := PriceTiers(metric, plan).value;
      && Ascending(tiers)
      && (forall i :: 0 <= i < |tiers| ==> Plain(tiers[i].rate))
      && Cost(BandsOf(tiers), 0, usage) == PlanCost(metric, plan, usage)
  {
    TermsKnown(tier, plan, metric);
    RatesKnown(metric, plan);
    var terms := TermsOf(metric, plan).value;
    AscendingTiers(terms);
    TiersCost(terms, usage);
  }

  lemma TermsKnown(tier: PlanTier, plan: Plan, metric: Metric)
    requires ValidPlan(tier, plan)
    ensures var terms := TermsOf(metric, plan);
      terms.Some? && 0 < terms.value.included == Included(metric, plan) && terms.value.breakpoint == Breakpoint(metric)
  {
  }

  lemma TiersCost(terms: Terms, usage: nat)
    requires PlainTerms(terms)
    ensures forall i :: 0 <= i < |TiersOf(terms)| ==> Plain(TiersOf(terms)[i].rate)
    ensures Cost(BandsOf(TiersOf(terms)), 0, usage)
         == ClosedCost(terms.included, terms.breakpoint, Amount(terms.first), Amount(terms.later), usage)
  {
    TiersMean(terms);
    CostOfShape(terms.included, terms.breakpoint, Amount(terms.first), Amount(terms.later), usage);
  }

  lemma AscendingTiers(terms: Terms)
    requires terms.included > 0
    ensures Ascending(TiersOf(terms))
  {
  }

  /** The next unit never costs less than nothing nor less than the unit before it. */
  lemma CostIsMonotoneAndConvex(metric: Metric, plan: Plan, usage: nat)
    ensures PlanCost(metric, plan, usage) <= PlanCost(metric, plan, usage + 1)
    ensures PlanCost(metric, plan, usage + 1) - PlanCost(metric, plan, usage)
         <= PlanCost(metric, plan, usage + 2) - PlanCost(metric, plan, usage + 1)
  {
    NextUnit(Included(metric, plan), Breakpoint(metric), FirstRate(metric), LaterRate(metric), usage);
    NextUnit(Included(metric, plan), Breakpoint(metric), FirstRate(metric), LaterRate(metric), usage + 1);
  }

  // ---------------------------------------------------------------- the provider's price

  /** A tier as the provider reports it. */
  datatype ProviderTier = ProviderTier(
    upTo: Option<nat>, unitDecimal: Option<string>, unit: Option<int>, flatDecimal: Option<string>, flat: Option<int>)

  datatype ProviderPrice = ProviderPrice(scheme: Option<string>, mode: Option<string>, tiers: Option<seq<ProviderTier>>)

  /** The text the check compares; a whole amount other than zero never matches. */
  function UnitText(tier: ProviderTier): Option<string> {
    if tier.unitDecimal.Some? then tier.unitDecimal
    else if tier.unit.None? then None
    else Some(if tier.unit.value == 0 then "0" else "")
  }

  predicate TierMatches(actual: ProviderTier, expected: Tier) {
    && actual.upTo == expected.upTo
    && UnitText(actual).Some?
    && Normalized(UnitText(actual).value) == Normalized(expected.rate)
    && (actual.flatDecimal.Some? ==> Normalized(actual.flatDecimal.value) == "0")
    && (actual.flat.Some? ==> actual.flat.value == 0)
  }

  /** What an amount given as a decimal text or a whole number denotes. */
  function Denotes(decimal: Option<string>, whole: Option<int>): Option<real> {
    if decimal.Some? then (if Plain(Trim(decimal.value)) then Some(Amount(Trim(decimal.value))) else None)
    else if whole.Some? then Some(whole.value as real)
    else None
  }

  /** The band the provider will charge by; none if an amount is missing or unreadable. */
  function ProviderBand(tier: ProviderTier): Option<Band> {
    var rate := Denotes(tier.unitDecimal, tier.unit);
    var flat := Denotes(tier.flatDecimal, if tier.flat.Some? then tier.flat else Some(0));
    if rate.None? || flat.None? then None else Some(Band(tier.upTo, rate.value, flat.value))
  }

  lemma EmptyIsNotPlain()
    ensures Normalized("") == "" && !Plain("")
  {
  }

  lemma PlainZero()
    ensures Trim("0") == "0" && Plain("0") && Amount("0") == 0.0
  {
    ZeroIsPlain();
    assert TrimStart("0") == "0" && TrimEnd("0") == "0";
  }

  lemma FlatIsZero(tier: ProviderTier)
    requires tier.flatDecimal.Some? ==> Normalized(tier.flatDecimal.value) == "0"
    requires tier.flat.Some? ==> tier.flat.value == 0
    ensures Denotes(tier.flatDecimal, if tier.flat.Some? then tier.flat else Some(0)) == Some(0.0)
  {
    PlainZero();
    if tier.flatDecimal.Some? { NormalizedKeepsAmount(tier.flatDecimal.value); }
  }

  lemma UnitIsSame(tier: ProviderTier, rate: string)
    requires UnitText(tier).Some? && Normalized(UnitText(tier).value) == Normalized(rate) && Plain(Trim(rate))
    ensures Denotes(tier.unitDecimal, tier.unit) == Some(Amount(Trim(rate)))
  {
    PlainZero();
    EmptyIsNotPlain();
    NormalizedKeepsAmount(rate);
    NormalizedKeepsAmount(UnitText(tier).value);
  }

  /** An accepted tier is charged exactly as the expected one. */
  lemma MatchingTierMeansTheSame(actual: ProviderTier, expected: Tier)
    requires TierMatches(actual, expected) && Plain(Trim(expected.rate))
    ensures ProviderBand(actual) == Some(Band(expected.upTo, Amount(Trim(expected.rate)), 0.0))
  {
    FlatIsZero(actual);
    UnitIsSame(actual, expected.rate);
  }

  predicate Trimmed(s: string) { Trim(s) == s }

  lemma PlainIsTrimmed(s: string)
    requires Plain(s)
    ensures Trimmed(s)
  {
    assert '0' <= s[0] <= '9';
    var last := s[|s| - 1];
    assert last == '.' || '0' <= last <= '9';
    assert TrimStart(s) == s && TrimEnd(s) == s;
  }

  ghost predicate SameBands(actual: seq<ProviderTier>, bands: seq<Band>) {
    |actual| == |bands| && forall i :: 0 <= i < |actual| ==> ProviderBand(actual[i]) == Some(bands[i])
  }

  lemma {:induction false} BandsOfAt(tiers: seq<Tier>)
    requires forall i :: 0 <= i < |tiers| ==> Plain(tiers[i].rate)
    ensures |BandsOf(tiers)| == |tiers|
    ensures forall i :: 0 <= i < |tiers| ==> BandsOf(tiers)[i] == Band(tiers[i].upTo, Amount(tiers[i].rate), 0.0)
  {
    if tiers == [] {
    } else {
      BandsOfAt(tiers[1..]);
    }
  }

  ghost predicate Matches(price: ProviderPrice, expected: seq<Tier>) {
    && price.scheme == Some("tiered") && price.mode == Some("graduated")
    && price.tiers.Some? && |price.tiers.value| == |expected|
    && forall i :: 0 <= i < |expected| ==> TierMatches(price.tiers.value[i], expected[i])
  }

  /** The check, tier by tier. */
  method ValidatePriceTiers(price: ProviderPrice, expected: seq<Tier>) returns (ok: bool)
    ensures ok <==> Matches(price, expected)
    ensures ok && (forall i :: 0 <= i < |expected| ==> Plain(expected[i].rate)) ==>
      SameBands(price.tiers.value, BandsOf(expected))
  {
    if price.scheme != Some("tiered") || price.mode != Some("graduated") {
      return false;
    }
    if price.tiers.None? || |price.tiers.value| != |expected| {
      return false;
    }
    for i := 0 to |expected|
      invariant forall j :: 0 <= j < i ==> TierMatches(price.tiers.value[j], expected[j])
    {
      var actual := price.tiers.value[i];
      if actual.upTo != expected[i].upTo {
        return false;
      }
      var text := UnitText(actual);
      if text.None? || Normalized(text.value) != Normalized(expected[i].rate) {
        return false;
      }
      if (actual.flatDecimal.Some? && Normalized(actual.flatDecimal.value) != "0")
         || (actual.flat.Some? && actual.flat.value != 0) {
        return false;
      }
    }
    ok := true;
    if forall i :: 0 <= i < |expected| ==> Plain(expected[i].rate) { AcceptedTiersMeanTheSame(price, expected); }
  }

  lemma AcceptedTiersMeanTheSame(price: ProviderPrice, expected: seq<Tier>)
    requires Matches(price, expected) && forall i :: 0 <= i < |expected| ==> Plain(expected[i].rate)
    ensures SameBands(price.tiers.value, BandsOf(expected))
  {
    BandsOfAt(expected);
    forall i | 0 <= i < |expected|
      ensures ProviderBand(price.tiers.value[i]) == Some(BandsOf(expected)[i])
    {
      PlainIsTrimmed(expected[i].rate);
      MatchingTierMeansTheSame(price.tiers.value[i], expected[i]);
    }
  }

  lemma SameBandsUnique(actual: seq<ProviderTier>, one: seq<Band>, two: seq<Band>)
    requires SameBands(actual, one) && SameBands(actual, two)
    ensures one == two
  {
    forall i | 0 <= i < |one| ensures one[i] == two[i] {
      assert Some(one[i]) == ProviderBand(actual[i]) == Some(two[i]);
    }
  }

  /** Volume pricing: all of the usage at the rate of the band it ends in. */
  function VolumeCost(bands: seq<Band>, usage: nat): real {
    if bands == [] then 0.0
    else if bands[0].upTo.None? || usage <= bands[0].upTo.value then bands[0].flat + bands[0].rate * usage as real
    else VolumeCost(bands[1..], usage)
  }

  /** What the provider charges under its own billing scheme; none if it does not bill by tiers. */
  function Charged(price: ProviderPrice, bands: seq<Band>, usage: nat): Option<real> {
    if price.scheme != Some("tiered") then None
    else if price.mode == Some("graduated") then Some(Cost(bands, 0, usage))
    else if price.mode == Some("volume") then Some(VolumeCost(bands, usage))
    else None
  }

  /** A provider price accepted for an accepted plan charges, at every usage, what the plan says. */
  lemma AcceptedPriceCharges(tier: PlanTier, plan: Plan, metric: Metric, price: ProviderPrice, bands: seq<Band>,
                             usage: nat)
    requires ValidPlan(tier, plan) && PriceTiers(metric, plan).Some? && Matches(price, PriceTiers(metric, plan).value)
    requires SameBands(price.tiers.value, bands)
    ensures Charged(price, bands, usage) == Some(PlanCost(metric, plan, usage))
  {
    AcceptedPlanCost(tier, plan, metric, usage);
    var tiers := PriceTiers(metric, plan).value;
    AcceptedTiersMeanTheSame(price, tiers);
    SameBandsUnique(price.tiers.value, bands, BandsOf(tiers));
  }
}
