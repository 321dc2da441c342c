/**
  The static price data of the wedding calculator: one price per service for
  each supported year, and one bundle price per year for Photography and
  VideoRecording taken together. Both tables are total over closed
  enumerations, so a lookup can never miss.
 */
module PriceTable {

  datatype Option<T> = None | Some(value: T)

  /** The supported pricing years. */
  datatype Year = Y2020 | Y2021 | Y2022

  /** The services a customer can select. */
  datatype Service = Photography | VideoRecording | BlurayPackage | TwoDayEvent | WeddingSession

  /** Every service, once each, in the order the price table lists them. */
  const AllServices: seq<Service> :=
    [Photography, VideoRecording, BlurayPackage, TwoDayEvent, WeddingSession]

  /** The calendar number a year stands for. */
  function YearNumber(y: Year): int {
    match y
    case Y2020 => 2020
    case Y2021 => 2021
    case Y2022 => 2022
  }

  /** The year a number names, if it is one of the supported years: the
      closed set of years that the source's year type admits. */
  function LookupYear(n: int): (r: Option<Year>)
    ensures r.Some? ==> YearNumber(r.value) == n
    ensures r.None? ==> n != 2020 && n != 2021 && n != 2022
  {
    if n == 2020 then Some(Y2020)
    else if n == 2021 then Some(Y2021)
    else if n == 2022 then Some(Y2022)
    else None
  }

  /** Looking up a year's own number gives that year back, and a lookup
      succeeds exactly on the number of some year. */
  lemma LookupYearRoundTrip(y: Year, n: int)
    ensures LookupYear(YearNumber(y)) == Some(y)
    ensures LookupYear(n).Some? <==> exists y' :: YearNumber(y') == n
  {
  }

  /** The individual price of a service in a year. */
  function ServicePrice(y: Year, s: Service): (p: nat)
    ensures p > 0
  {
    match s
    case Photography =>
      (match y case Y2020 => 1700 case Y2021 => 1800 case Y2022 => 1900)
    case VideoRecording =>
      (match y case Y2020 => 1700 case Y2021 => 1800 case Y2022 => 1900)
    case BlurayPackage => 300
    case TwoDayEvent => 400
    case WeddingSession => 600
  }

  /** The price of Photography and VideoRecording bought together. */
  function PackagePrice(y: Year): (p: nat)
    ensures p > 0
  {
    match y
    case Y2020 => 2200
    case Y2021 => 2300
    case Y2022 => 2500
  }

  /** In every year the bundle costs more than either of its parts alone and
      less than the two bought separately. */
  lemma PackageBetweenPartsAndSum(y: Year)
    ensures ServicePrice(y, Photography) < PackagePrice(y)
    ensures ServicePrice(y, VideoRecording) < PackagePrice(y)
    ensures PackagePrice(y) < ServicePrice(y, Photography) + ServicePrice(y, VideoRecording)
  {
  }

  /** The sum of the individual prices of those services of `xs` that are in `chosen`. */
  function SumPrices(y: Year, xs: seq<Service>, chosen: set<Service>): nat
    decreases |xs|
  {
    if |xs| == 0 then 0
    else (if xs[0] in chosen then ServicePrice(y, xs[0]) else 0) + SumPrices(y, xs[1..], chosen)
  }

  predicate Distinct(xs: seq<Service>) {
    forall i, j :: 0 <= i < j < |xs| ==> xs[i] != xs[j]
  }

  /** Over a list without repetitions, choosing one more service adds exactly
      its price if the list holds it, and nothing otherwise. */
  lemma {:induction false} SumPricesInsert(y: Year, xs: seq<Service>, chosen: set<Service>, x: Service)
    requires Distinct(xs)
    requires x !in chosen
    ensures SumPrices(y, xs, chosen + {x})
         == SumPrices(y, xs, chosen) + (if x in xs then ServicePrice(y, x) else 0)
    decreases |xs|
  {
    if |xs| != 0 {
      assert Distinct(xs[1..]) by {
        forall i, j | 0 <= i < j < |xs[1..]| ensures xs[1..][i] != xs[1..][j] {
          assert xs[1..][i] == xs[i + 1] && xs[1..][j] == xs[j + 1];
        }
      }
      SumPricesInsert(y, xs[1..], chosen, x);
      if xs[0] == x {
        assert x !in xs[1..] by {
          forall k | 0 <= k < |xs[1..]| ensures xs[1..][k] != x {
            assert xs[1..][k] == xs[k + 1];
          }
        }
      } else {
        assert x in xs <==> x in xs[1..] by {
          assert xs == [xs[0]] + xs[1..];
        }
      }
    }
  }

  /** The list price of a set of services: the sum of their individual prices. */
  function ListPrice(y: Year, chosen: set<Service>): nat {
    SumPrices(y, AllServices, chosen)
  }

  /** The list price is additive: one more service adds exactly its own price. */
  lemma ListPriceInsert(y: Year, chosen: set<Service>, x: Service)
    requires x !in chosen
    ensures ListPrice(y, chosen + {x}) == ListPrice(y, chosen) + ServicePrice(y, x)
  {
    assert Distinct(AllServices);
    assert x in AllServices by {
      match x
      case Photography => assert AllServices[0] == x;
      case VideoRecording => assert AllServices[1] == x;
      case BlurayPackage => assert AllServices[2] == x;
      case TwoDayEvent => assert AllServices[3] == x;
      case WeddingSession => assert AllServices[4] == x;
    }
    SumPricesInsert(y, AllServices, chosen, x);
  }
}
