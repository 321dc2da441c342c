/**
  The price calculator: the base price of a selection in a year (with the
  Photography + VideoRecording bundle substituted for the two individual
  prices, and add-ons charged only when the service they depend on is
  selected), the candidate discounts, and the final price with the largest
  candidate discount subtracted once.
 */
module PriceCalculator {
  import opened PriceTable

  /** The flat discount a WeddingSession earns outside the 2022 Photography case. */
  const FlatDiscount: nat := 300

  /** What `calculate` returns. */
  datatype PriceResult = PriceResult(basePrice: int, finalPrice: int)

  /** True when every service of `services` is selected. */
  function IsPackageSelected(sel: set<Service>, services: seq<Service>): (r: bool)
    ensures r <==> forall i :: 0 <= i < |services| ==> services[i] in sel
    decreases |services|
  {
    |services| == 0 || (services[0] in sel && IsPackageSelected(sel, services[1..]))
  }

  /** The base price of a selection, before any discount. */
  function BasePrice(sel: set<Service>, y: Year): (r: nat)
    ensures r <= ListPrice(y, sel)
    ensures WeddingSession in sel ==> ServicePrice(y, WeddingSession) <= r
  {
    var core :=
      if IsPackageSelected(sel, [Photography, VideoRecording]) then PackagePrice(y)
      else
        (if Photography in sel then ServicePrice(y, Photography) else 0)
        + (if VideoRecording in sel then ServicePrice(y, VideoRecording) else 0);
    var session := if WeddingSession in sel then ServicePrice(y, WeddingSession) else 0;
    var bluray :=
      if BlurayPackage in sel && VideoRecording in sel then ServicePrice(y, BlurayPackage) else 0;
    var twoDay :=
      if TwoDayEvent in sel && (Photography in sel || VideoRecording in sel)
      then ServicePrice(y, TwoDayEvent) else 0;
    PackageBetweenPartsAndSum(y);
    core + session + bluray + twoDay
  }

  /** Whether a selected service is paid for, individually or within the bundle. */
  predicate Charged(sel: set<Service>, s: Service) {
    s in sel &&
    match s
    case BlurayPackage => VideoRecording in sel
    case TwoDayEvent => Photography in sel || VideoRecording in sel
    case _ => true
  }

  /** The selected services that are paid for. */
  function ChargedServices(sel: set<Service>): (c: set<Service>)
    ensures sel - c <= {BlurayPackage, TwoDayEvent}
    ensures VideoRecording in sel ==> c == sel
    ensures Photography in sel && VideoRecording !in sel ==> c == sel - {BlurayPackage}
    ensures Photography !in sel && VideoRecording !in sel ==> c == sel - {BlurayPackage, TwoDayEvent}
  {
    set s | s in sel && Charged(sel, s)
  }

  /** How much the bundle saves against the two individual prices, when it applies. */
  function BundleSaving(sel: set<Service>, y: Year): nat {
    PackageBetweenPartsAndSum(y);
    if Photography in sel && VideoRecording in sel
    then ServicePrice(y, Photography) + ServicePrice(y, VideoRecording) - PackagePrice(y)
    else 0
  }

  /** Reference definition of the base price: the list price of the charged
      services, less the bundle saving. */
  lemma BasePriceIsChargedListPrice(sel: set<Service>, y: Year)
    ensures BasePrice(sel, y) == ListPrice(y, ChargedServices(sel)) - BundleSaving(sel, y)
  {
  }

  /** With Photography and VideoRecording both selected the base price holds
      the bundle price and neither of their individual prices: it is the
      package price plus the list price of the other charged services. */
  lemma BundleSubstitution(sel: set<Service>, y: Year)
    requires Photography in sel && VideoRecording in sel
    ensures BasePrice(sel, y)
         == PackagePrice(y) + ListPrice(y, ChargedServices(sel) - {Photography, VideoRecording})
  {
  }

  /** Without both of them the two are charged individually, as listed. */
  lemma NoBundleIsListPrice(sel: set<Service>, y: Year)
    requires !(Photography in sel && VideoRecording in sel)
    ensures BasePrice(sel, y) == ListPrice(y, ChargedServices(sel))
  {
  }

  /** A WeddingSession always adds its own price. */
  lemma SessionAlwaysCharged(sel: set<Service>, y: Year)
    ensures BasePrice(sel + {WeddingSession}, y)
         == BasePrice(sel - {WeddingSession}, y) + ServicePrice(y, WeddingSession)
  {
  }

  /** A BlurayPackage adds its price exactly when VideoRecording is selected. */
  lemma BlurayChargedOnlyWithVideo(sel: set<Service>, y: Year)
    ensures BasePrice(sel + {BlurayPackage}, y)
         == BasePrice(sel - {BlurayPackage}, y)
            + (if VideoRecording in sel then ServicePrice(y, BlurayPackage) else 0)
  {
  }

  /** A TwoDayEvent adds its price exactly when Photography or VideoRecording is selected. */
  lemma TwoDayChargedOnlyWithCoverage(sel: set<Service>, y: Year)
    ensures BasePrice(sel + {TwoDayEvent}, y)
         == BasePrice(sel - {TwoDayEvent}, y)
            + (if Photography in sel || VideoRecording in sel then ServicePrice(y, TwoDayEvent) else 0)
  {
  }

  /** The candidate discounts of a selection. */
  function PotentialDiscounts(sel: set<Service>, y: Year): (ds: seq<nat>)
    ensures |ds| <= 1
    ensures forall i :: 0 <= i < |ds| ==> 0 < ds[i] <= ServicePrice(y, WeddingSession)
    ensures ds == [] <==> WeddingSession !in sel || (Photography !in sel && VideoRecording !in sel)
  {
    if WeddingSession in sel then
      if YearNumber(y) == 2022 && Photography in sel then [ServicePrice(y, WeddingSession)]
      else if Photography in sel || VideoRecording in sel then [FlatDiscount]
      else []
    else []
  }

  /** In 2022 a WeddingSession taken with Photography is free. */
  lemma SessionFreeIn2022(sel: set<Service>)
    requires WeddingSession in sel && Photography in sel
    ensures PotentialDiscounts(sel, Y2022) == [ServicePrice(Y2022, WeddingSession)]
  {
  }

  /** Otherwise a WeddingSession with Photography or VideoRecording earns the flat discount only. */
  lemma FlatDiscountOtherwise(sel: set<Service>, y: Year)
    requires WeddingSession in sel && (Photography in sel || VideoRecording in sel)
    requires !(y == Y2022 && Photography in sel)
    ensures PotentialDiscounts(sel, y) == [FlatDiscount]
  {
  }

  /** The larger of two numbers. */
  function Max(a: nat, b: nat): nat {
    if a < b then b else a
  }

  /** The largest of zero and the candidates. */
  function MaxDiscount(ds: seq<nat>): (m: nat)
    ensures forall i :: 0 <= i < |ds| ==> ds[i] <= m
    ensures m == 0 || m in ds
    decreases |ds|
  {
    if |ds| == 0 then 0 else Max(ds[0], MaxDiscount(ds[1..]))
  }

  /** How many candidates equal `d`. */
  function CountOf(ds: seq<nat>, d: nat): (n: nat)
    ensures n == multiset(ds)[d]
    ensures n > 0 <==> d in ds
    decreases |ds|
  {
    if |ds| == 0 then 0
    else
      assert ds == [ds[0]] + ds[1..];
      (if ds[0] == d then 1 else 0) + CountOf(ds[1..], d)
  }

  /** The discount that is subtracted from the base price. */
  function AppliedDiscount(sel: set<Service>, y: Year): (d: nat)
    ensures d <= ServicePrice(y, WeddingSession)
    ensures WeddingSession !in sel ==> d == 0
  {
    MaxDiscount(PotentialDiscounts(sel, y))
  }

  /** The base price and the final price of a selection. */
  function Calculate(sel: set<Service>, y: Year): (r: PriceResult)
    ensures r.basePrice == BasePrice(sel, y)
    ensures 0 <= r.finalPrice <= r.basePrice
    ensures WeddingSession !in sel ==> r.finalPrice == r.basePrice
  {
    var basePrice := BasePrice(sel, y);
    PriceResult(basePrice, basePrice - AppliedDiscount(sel, y))
  }

  /** Whether the advisory about several equally large discounts is raised. */
  function TieWarning(sel: set<Service>, y: Year): (r: bool)
    ensures r ==> |PotentialDiscounts(sel, y)| >= 2
    ensures r ==> AppliedDiscount(sel, y) > 0
  {
    var ds := PotentialDiscounts(sel, y);
    var m := MaxDiscount(ds);
    m > 0 && CountOf(ds, m) > 1
  }

  /** The advisory can never be raised: there is at most one candidate. */
  lemma NeverTieWarning(sel: set<Service>, y: Year)
    ensures !TieWarning(sel, y)
  {
  }

  /** The final price is the base price less the one discount the rules give. */
  lemma FinalPriceByRules(sel: set<Service>, y: Year)
    ensures Calculate(sel, y).finalPrice == BasePrice(sel, y) -
      (if WeddingSession !in sel then 0
       else if y == Y2022 && Photography in sel then ServicePrice(y, WeddingSession)
       else if Photography in sel || VideoRecording in sel then FlatDiscount
       else 0)
  {
  }

  /** The price of the services an array names; order and repetition do not matter. */
  function CalculatePrice(services: seq<Service>, y: Year): (r: PriceResult)
    ensures 0 <= r.finalPrice <= r.basePrice
    ensures WeddingSession !in services ==> r.finalPrice == r.basePrice
  {
    Calculate((set s | s in services), y)
  }

  /** Two arrays naming the same services have the same price. */
  lemma CalculatePriceIgnoresOrder(a: seq<Service>, b: seq<Service>, y: Year)
    requires forall s :: s in a <==> s in b
    ensures CalculatePrice(a, y) == CalculatePrice(b, y)
  {
  }

  /** 2022, Photography and WeddingSession: 2500 before the free session, 1900 after. */
  lemma ScenarioPhotographySession2022()
    ensures CalculatePrice([Photography, WeddingSession], Y2022) == PriceResult(2500, 1900)
  {
  }

  /** 2020, VideoRecording and WeddingSession: 2300 before the flat discount, 2000 after. */
  lemma ScenarioVideoSession2020()
    ensures CalculatePrice([VideoRecording, WeddingSession], Y2020) == PriceResult(2300, 2000)
  {
  }

  /** 2021, the bundle with both add-ons and no session: 3000, undiscounted. */
  lemma ScenarioBundleAddOns2021()
    ensures CalculatePrice([Photography, VideoRecording, BlurayPackage, TwoDayEvent], Y2021)
         == PriceResult(3000, 3000)
  {
  }
}
