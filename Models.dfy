/**
 * The subscription record, its three closed enumerations and the per-cycle
 * rules: the monthly-equivalent cost and the one-period date advance.
 *
 * Dates are instants on an integer time line. The platform calendar
 * (`Calendar.current.date(byAdding:to:)`) is not re-derived: it is passed in
 * as a function value that may fail (Swift's optional result), and the lemmas
 * that need it to move forward for a positive period say so with `Advances`.
 */
module Models {
  import opened Wrappers

  type Date = int

  /** A `UUID`, represented by its `uuidString`. */
  type Uuid = string

  datatype BillingCycle = Weekly | Monthly | Quarterly | SemiAnnually | Annually {

    /** The `String` raw value the record is stored under. */
    function RawValue(): string
    {
      match this
      case Weekly => "Weekly"
      case Monthly => "Monthly"
      case Quarterly => "Quarterly"
      case SemiAnnually => "Semi-annually"
      case Annually => "Annually"
    }
  }

  /** `BillingCycle(rawValue:)`. */
  function ParseBillingCycle(raw: string): (r: Option<BillingCycle>)
    ensures forall c: BillingCycle :: r == Some(c) <==> c.RawValue() == raw
  {
    if raw == "Weekly" then Some(Weekly)
    else if raw == "Monthly" then Some(Monthly)
    else if raw == "Quarterly" then Some(Quarterly)
    else if raw == "Semi-annually" then Some(SemiAnnually)
    else if raw == "Annually" then Some(Annually)
    else None
  }

  datatype SubscriptionCategory =
    | Entertainment | Productivity | Finance | Health | Education | News
    | Music | Streaming | Gaming | Business | Utilities | Other
  {
    function RawValue(): string
    {
      match this
      case Entertainment => "Entertainment"
      case Productivity => "Productivity"
      case Finance => "Finance"
      case Health => "Health & Fitness"
      case Education => "Education"
      case News => "News & Magazines"
      case Music => "Music"
      case Streaming => "Video Streaming"
      case Gaming => "Gaming"
      case Business => "Business"
      case Utilities => "Utilities"
      case Other => "Other"
    }

    /** The position of the case in its declaration, which `allCases` follows. */
    function Ordinal(): nat
    {
      match this
      case Entertainment => 0
      case Productivity => 1
      case Finance => 2
      case Health => 3
      case Education => 4
      case News => 5
      case Music => 6
      case Streaming => 7
      case Gaming => 8
      case Business => 9
      case Utilities => 10
      case Other => 11
    }

    /** The SF Symbols name shown beside the category. */
    function IconName(): (r: string)
      ensures r != ""
    {
      match this
      case Entertainment => "tv"
      case Productivity => "hammer"
      case Finance => "dollarsign.circle"
      case Health => "heart"
      case Education => "book"
      case News => "newspaper"
      case Music => "music.note"
      case Streaming => "play.rectangle"
      case Gaming => "gamecontroller"
      case Business => "briefcase"
      case Utilities => "wrench.and.screwdriver"
      case Other => "folder"
    }
  }

  /** `SubscriptionCategory(rawValue:)`. */
  function ParseCategory(raw: string): (r: Option<SubscriptionCategory>)
    ensures forall c: SubscriptionCategory :: r == Some(c) <==> c.RawValue() == raw
  {
    if raw == "Entertainment" then Some(Entertainment)
    else if raw == "Productivity" then Some(Productivity)
    else if raw == "Finance" then Some(Finance)
    else if raw == "Health & Fitness" then Some(Health)
    else if raw == "Education" then Some(Education)
    else if raw == "News & Magazines" then Some(News)
    else if raw == "Music" then Some(Music)
    else if raw == "Video Streaming" then Some(Streaming)
    else if raw == "Gaming" then Some(Gaming)
    else if raw == "Business" then Some(Business)
    else if raw == "Utilities" then Some(Utilities)
    else if raw == "Other" then Some(Other)
    else None
  }

  /** `SubscriptionCategory.allCases`, in declaration order: no category twice. */
  function AllCategories(): (r: seq<SubscriptionCategory>)
    ensures |r| == 12
    ensures forall i :: 0 <= i < |r| ==> r[i].Ordinal() == i
    ensures forall i, j :: 0 <= i < j < |r| ==> r[i] != r[j]
  {
    [Entertainment, Productivity, Finance, Health, Education, News,
     Music, Streaming, Gaming, Business, Utilities, Other]
  }

  /** ... and every category is among them. */
  lemma AllCategoriesComplete()
    ensures forall c: SubscriptionCategory :: c in AllCategories()
  {
    var all := AllCategories();
    forall c: SubscriptionCategory ensures c in all {
      match c
      case Entertainment => assert all[0] == c;
      case Productivity => assert all[1] == c;
      case Finance => assert all[2] == c;
      case Health => assert all[3] == c;
      case Education => assert all[4] == c;
      case News => assert all[5] == c;
      case Music => assert all[6] == c;
      case Streaming => assert all[7] == c;
      case Gaming => assert all[8] == c;
      case Business => assert all[9] == c;
      case Utilities => assert all[10] == c;
      case Other => assert all[11] == c;
    }
  }

  datatype Currency = USD | EUR | GBP | JPY | TWD {

    function RawValue(): string
    {
      match this
      case USD => "USD"
      case EUR => "EUR"
      case GBP => "GBP"
      case JPY => "JPY"
      case TWD => "TWD"
    }

    function Symbol(): (r: string)
      ensures r != ""
    {
      match this
      case USD => "$"
      case EUR => "€"
      case GBP => "£"
      case JPY => "¥"
      case TWD => "NT$"
    }
  }

  /** `Currency(rawValue:)`. */
  function ParseCurrency(raw: string): (r: Option<Currency>)
    ensures forall c: Currency :: r == Some(c) <==> c.RawValue() == raw
  {
    if raw == "USD" then Some(USD)
    else if raw == "EUR" then Some(EUR)
    else if raw == "GBP" then Some(GBP)
    else if raw == "JPY" then Some(JPY)
    else if raw == "TWD" then Some(TWD)
    else None
  }

  /** No two cases of an enumeration share a raw value, so every stored raw value decodes to the case that wrote it. */
  lemma RawValuesInjective()
    ensures forall a: BillingCycle, b: BillingCycle :: a.RawValue() == b.RawValue() ==> a == b
    ensures forall a: SubscriptionCategory, b: SubscriptionCategory :: a.RawValue() == b.RawValue() ==> a == b
    ensures forall a: Currency, b: Currency :: a.RawValue() == b.RawValue() ==> a == b
  {
    forall a: BillingCycle, b: BillingCycle | a.RawValue() == b.RawValue() ensures a == b {
      assert ParseBillingCycle(a.RawValue()) == Some(a) && ParseBillingCycle(b.RawValue()) == Some(b);
    }
    forall a: SubscriptionCategory, b: SubscriptionCategory | a.RawValue() == b.RawValue() ensures a == b {
      assert ParseCategory(a.RawValue()) == Some(a) && ParseCategory(b.RawValue()) == Some(b);
    }
    forall a: Currency, b: Currency | a.RawValue() == b.RawValue() ensures a == b {
      assert ParseCurrency(a.RawValue()) == Some(a) && ParseCurrency(b.RawValue()) == Some(b);
    }
  }

  /** The calendar units a `DateComponents` value is built from here. */
  datatype CalendarUnit = Day | WeekOfYear | Month | Year

  /** A `DateComponents` value with exactly one component set. */
  datatype DateComponents = DateComponents(unit: CalendarUnit, value: int)

  /** `Calendar.current.date(byAdding:to:)`: may yield no date. */
  type Calendar = (DateComponents, Date) -> Option<Date>

  /** A calendar on which adding a positive amount moves forward and a negative one backward. */
  ghost predicate Advances(cal: Calendar)
  {
    forall c: DateComponents, d: Date :: cal(c, d).Some? ==>
      && (c.value > 0 ==> cal(c, d).value > d)
      && (c.value < 0 ==> cal(c, d).value < d)
      && (c.value == 0 ==> cal(c, d).value == d)
  }

  /** The `DateComponents` that one billing period adds. */
  function CyclePeriod(cycle: BillingCycle): (p: DateComponents)
    ensures p.value > 0
  {
    match cycle
    case Weekly => DateComponents(WeekOfYear, 1)
    case Monthly => DateComponents(Month, 1)
    case Quarterly => DateComponents(Month, 3)
    case SemiAnnually => DateComponents(Month, 6)
    case Annually => DateComponents(Year, 1)
  }

  /** The length of a period in whole months, when it is one. */
  function PeriodInMonths(p: DateComponents): Option<int>
  {
    match p.unit
    case Month => Some(p.value)
    case Year => Some(12 * p.value)
    case _ => None
  }

  datatype Subscription = Subscription(
    id: Uuid,
    name: string,
    cost: real,
    currency: string,
    billingCycle: BillingCycle,
    nextPaymentDate: Date,
    category: SubscriptionCategory,
    description: Option<string>,
    isActive: bool)
  {
    /** The checks the add and edit forms make before a record reaches the store. */
    predicate Valid()
    {
      name != "" && cost > 0.0
    }

    /**
     * The cost normalised to one month. For a cycle that is a whole number
     * of months long, the monthly figure times that number gives back the
     * cost; a weekly cost is scaled by 4.33 weeks per month.
     */
    function MonthlyCost(): (r: real)
      ensures match PeriodInMonths(CyclePeriod(billingCycle))
              case Some(months) => r * months as real == cost
              case None => billingCycle == Weekly && r == cost * 4.33
      ensures r > 0.0 <==> cost > 0.0
    {
      match billingCycle
      case Weekly => cost * 4.33
      case Monthly => cost
      case Quarterly => cost / 3.0
      case SemiAnnually => cost / 6.0
      case Annually => cost / 12.0
    }

    /** Twelve monthly figures make the yearly cost of an annual or monthly plan. */
    lemma YearOfMonthlyCost()
      ensures billingCycle == Annually ==> MonthlyCost() * 12.0 == cost
      ensures billingCycle == Monthly ==> MonthlyCost() * 12.0 == 12.0 * cost
    {
    }

    /**
     * One billing period after `date` (not after `nextPaymentDate`); `date`
     * itself when the calendar yields no date.
     */
    function NextPaymentDateAfter(date: Date, cal: Calendar): (r: Date)
      ensures cal(CyclePeriod(billingCycle), date).Some? ==> r == cal(CyclePeriod(billingCycle), date).value
      ensures cal(CyclePeriod(billingCycle), date).None? ==> r == date
      ensures Advances(cal) ==> (r > date <==> cal(CyclePeriod(billingCycle), date).Some?)
      ensures Advances(cal) ==> r >= date
    {
      cal(CyclePeriod(billingCycle), date).GetOr(date)
    }
  }

  /**
   * The initialiser without an `id`: the freshly generated identifier is
   * supplied as `freshId`; currency, description and `isActive` have the
   * Swift initialiser's defaults.
   */
  function NewSubscription(
    freshId: Uuid, name: string, cost: real, currency: string := "USD",
    billingCycle: BillingCycle, nextPaymentDate: Date, category: SubscriptionCategory,
    description: Option<string> := None, isActive: bool := true): (s: Subscription)
    ensures s.id == freshId
    ensures s.name == name && s.cost == cost && s.currency == currency
    ensures s.billingCycle == billingCycle && s.nextPaymentDate == nextPaymentDate
    ensures s.category == category && s.description == description && s.isActive == isActive
  {
    Subscription(freshId, name, cost, currency, billingCycle, nextPaymentDate,
                 category, description, isActive)
  }

  /** `monthlyCost` is linear in `cost`, whatever the cycle. */
  lemma MonthlyCostLinear(s: Subscription, k: real, a: real, b: real)
    ensures s.(cost := k * a + b).MonthlyCost()
         == k * s.(cost := a).MonthlyCost() + s.(cost := b).MonthlyCost()
  {
  }

  /** The date advance depends on the cycle and its argument only, never on the stored date. */
  lemma NextPaymentDateAfterIgnoresStoredDate(s: Subscription, stored: Date, date: Date, cal: Calendar)
    ensures s.(nextPaymentDate := stored).NextPaymentDateAfter(date, cal)
         == s.NextPaymentDateAfter(date, cal)
  {
  }

  /** The date `days` days after `now`, or `now` when the calendar yields none. */
  function DaysAfter(now: Date, days: int, cal: Calendar): (r: Date)
    ensures Advances(cal) && days >= 0 ==> r >= now
  {
    cal(DateComponents(Day, days), now).GetOr(now)
  }

  /** `Subscription.sampleData`: five active demo records due 3, 12, 45, 180 and 28 days from now. */
  function SampleData(now: Date, cal: Calendar, ids: seq<Uuid>): (r: seq<Subscription>)
    requires |ids| == 5
    ensures |r| == 5
    ensures forall i :: 0 <= i < 5 ==> r[i].id == ids[i] && r[i].isActive && r[i].Valid()
    ensures forall i :: 0 <= i < 5 ==> r[i].currency == "USD" && ParseCurrency(r[i].currency) == Some(USD)
    ensures Advances(cal) ==> forall i :: 0 <= i < 5 ==> r[i].nextPaymentDate >= now
  {
    assert ParseCurrency("USD") == Some(USD);
    seq(5, i requires 0 <= i < 5 => SampleEntry(i, now, cal, ids[i]))
  }

  /** The `i`-th demo record of `sampleData`, with identifier `id`. */
  function SampleEntry(i: nat, now: Date, cal: Calendar, id: Uuid): (s: Subscription)
    requires i < 5
    ensures s.id == id && s.isActive && s.Valid() && s.currency == "USD"
    ensures Advances(cal) ==> s.nextPaymentDate >= now
  {
    match i
    case 0 => NewSubscription(id, "Spotify Premium", 9.99, "USD", Monthly,
                              DaysAfter(now, 3, cal), Music, Some("音樂串流服務"))
    case 1 => NewSubscription(id, "Netflix", 15.99, "USD", Monthly,
                              DaysAfter(now, 12, cal), Streaming, Some("影音串流平台"))
    case 2 => NewSubscription(id, "Adobe Creative Cloud", 239.88, "USD", Annually,
                              DaysAfter(now, 45, cal), Productivity, Some("創意軟體套件"))
    case 3 => NewSubscription(id, "Notion Pro", 96.00, "USD", Annually,
                              DaysAfter(now, 180, cal), Productivity, Some("生產力與筆記應用"))
    case _ => NewSubscription(id, "GitHub Pro", 4.00, "USD", Monthly,
                              DaysAfter(now, 28, cal), Business, Some("程式碼儲存庫託管"))
  }
}
