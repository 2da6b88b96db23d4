/** The tracking page: a form that appends products to an in-memory list,
    removal by id, and the colour band and label shown for each product. */
module GetNotified {
  import opened Common
  import opened Expiry
  import opened Evaluator
  import Decimal
  import Scheduler

  /** A product as the page stores it: no contact fields. */
  datatype TrackedProduct = TrackedProduct(
    id: int,
    name: string,
    expiryDate: string,
    notificationType: Channel,
    frequency: string)

  /** The add-product form's fields. */
  datatype FormData = FormData(
    name: string,
    expiryDate: string,
    notificationType: Channel,
    frequency: string)

  /** The page's state: the tracked list and the form. */
  datatype Page = Page(products: seq<TrackedProduct>, form: FormData)

  /** The form as the page first shows it and as a successful submit leaves it. */
  const InitialForm: FormData := FormData("", "", Email, "1_week_before")

  /** The frequency choices the form's drop-down offers, in order. */
  const FrequencyOptions: seq<string> :=
    ["1_month_before", "1_week_before", "5_days_before", "2_days_before", "1_day_before", "5_minutes_before"]

  /** The submit guard: both the name and the expiry date are filled in. */
  predicate CanSubmit(form: FormData)
  {
    form.name != "" && form.expiryDate != ""
  }

  /** `handleSubmit`, with the new id (the current time in the source) passed in. */
  function HandleSubmit(page: Page, newId: int): (r: Page)
    ensures !CanSubmit(page.form) ==> r == page
    ensures CanSubmit(page.form) ==>
              && |r.products| == |page.products| + 1
              && r.products[..|page.products|] == page.products
              && r.products[|page.products|].id == newId
              && r.products[|page.products|].name == page.form.name
              && r.products[|page.products|].expiryDate == page.form.expiryDate
              && r.products[|page.products|].notificationType == page.form.notificationType
              && r.products[|page.products|].frequency == page.form.frequency
              && r.form == InitialForm
  {
    if CanSubmit(page.form) then
      var form := page.form;
      var added := TrackedProduct(newId, form.name, form.expiryDate, form.notificationType, form.frequency);
      Page(page.products + [added], InitialForm)
    else page
  }

  /** Number of products in the list carrying the given id. */
  function CountWithId(products: seq<TrackedProduct>, id: int): nat
  {
    if |products| == 0 then 0
    else (if products[0].id == id then 1 else 0) + CountWithId(products[1..], id)
  }

  /** `removeProduct`: keep exactly the products whose id differs. */
  function RemoveProduct(products: seq<TrackedProduct>, id: int): (r: seq<TrackedProduct>)
    ensures |r| == |products| - CountWithId(products, id)
  {
    if |products| == 0 then []
    else if products[0].id != id then [products[0]] + RemoveProduct(products[1..], id)
    else RemoveProduct(products[1..], id)
  }

  /** The products that survive removal are exactly those with a different id. */
  lemma {:induction false} RemoveMembership(products: seq<TrackedProduct>, id: int, p: TrackedProduct)
    ensures p in RemoveProduct(products, id) <==> p in products && p.id != id
  {
    if |products| > 0 {
      RemoveMembership(products[1..], id, p);
      assert p in products <==> p == products[0] || p in products[1..];
    }
  }

  /** Removal keeps the relative order: it works piecewise on a concatenation. */
  lemma {:induction false} RemoveAppend(a: seq<TrackedProduct>, b: seq<TrackedProduct>, id: int)
    ensures RemoveProduct(a + b, id) == RemoveProduct(a, id) + RemoveProduct(b, id)
  {
    if |a| == 0 {
      assert a + b == b;
    } else {
      assert (a + b)[0] == a[0];
      assert (a + b)[1..] == a[1..] + b;
      RemoveAppend(a[1..], b, id);
    }
  }

  /** Removing an id no product carries changes nothing. */
  lemma {:induction false} RemoveAbsent(products: seq<TrackedProduct>, id: int)
    requires forall p :: p in products ==> p.id != id
    ensures RemoveProduct(products, id) == products
  {
    if |products| > 0 {
      assert products[0] in products;
      assert forall p :: p in products[1..] ==> p in products;
      RemoveAbsent(products[1..], id);
      assert [products[0]] + products[1..] == products;
    }
  }

  /** Removing twice is removing once. */
  lemma RemoveIdempotent(products: seq<TrackedProduct>, id: int)
    ensures RemoveProduct(RemoveProduct(products, id), id) == RemoveProduct(products, id)
  {
    forall p | p in RemoveProduct(products, id)
      ensures p.id != id
    {
      RemoveMembership(products, id, p);
    }
    RemoveAbsent(RemoveProduct(products, id), id);
  }

  /** Adding a product under a fresh id and then removing that id restores the list. */
  lemma SubmitThenRemove(page: Page, newId: int)
    requires CanSubmit(page.form)
    requires forall p :: p in page.products ==> p.id != newId
    ensures RemoveProduct(HandleSubmit(page, newId).products, newId) == page.products
  {
    var added := HandleSubmit(page, newId).products;
    assert added == page.products + [added[|page.products|]];
    RemoveAppend(page.products, [added[|page.products|]], newId);
    RemoveAbsent(page.products, newId);
  }

  /** The four status bands. */
  datatype StatusColor = Red | Orange | Yellow | Green

  /** `getStatusColor`. A NaN day count fails every comparison and lands in green. */
  function GetStatusColor(days: DayCount): (c: StatusColor)
    ensures days.Days? ==> (c == Red <==> days.n < 0)
    ensures days.Days? ==> (c == Orange <==> 0 <= days.n <= 3)
    ensures days.Days? ==> (c == Yellow <==> 4 <= days.n <= 7)
    ensures days.Days? ==> (c == Green <==> days.n > 7)
    ensures days.NotANumber? ==> c == Green
  {
    match days
    case NotANumber => Green
    case Days(d) =>
      if d < 0 then Red
      else if d <= 3 then Orange
      else if d <= 7 then Yellow
      else Green
  }

  /** How pressing a band is: red is the most urgent, green the least. */
  function Urgency(c: StatusColor): nat
  {
    match c
    case Red => 3
    case Orange => 2
    case Yellow => 1
    case Green => 0
  }

  /** Fewer days left never shows a less urgent colour. */
  lemma ColorMonotone(a: int, b: int)
    requires a <= b
    ensures Urgency(GetStatusColor(Days(a))) >= Urgency(GetStatusColor(Days(b)))
  {
  }

  const ExpiredPrefix: string := "Expired "
  const AgoSuffix: string := " days ago"
  const LeftSuffix: string := " days left"
  const TodayLabel: string := "Expires today"
  /** `${NaN} days left` */
  const NaNLabel: string := "NaN" + LeftSuffix

  /** The label next to the colour band. */
  function StatusLabel(days: DayCount): (r: string)
    ensures |r| >= |ExpiredPrefix|
    ensures r[..|ExpiredPrefix|] == ExpiredPrefix <==> days.Days? && days.n < 0
    ensures r == TodayLabel <==> days == Days(0)
  {
    match days
    case NotANumber =>
      assert NaNLabel[0] != ExpiredPrefix[0] && NaNLabel[0] != TodayLabel[0];
      NaNLabel
    case Days(d) =>
      if d < 0 then
        var r := ExpiredPrefix + Decimal.FromNat(-d) + AgoSuffix;
        assert r[..|ExpiredPrefix|] == ExpiredPrefix && r[6] != TodayLabel[6];
        r
      else if d == 0 then
        assert TodayLabel[6] != ExpiredPrefix[6];
        TodayLabel
      else
        var digits := Decimal.FromNat(d);
        var r := digits + LeftSuffix;
        assert r[0] == digits[0] && Decimal.IsDigit(r[0]);
        assert r[0] != ExpiredPrefix[0] && r[0] != TodayLabel[0];
        r
  }

  /** Reads a label back into the day count it shows. */
  function ParseLabel(s: string): Option<DayCount>
  {
    if s == TodayLabel then Some(Days(0))
    else if s == NaNLabel then Some(NotANumber)
    else if |s| >= |ExpiredPrefix| + |AgoSuffix|
         && s[..|ExpiredPrefix|] == ExpiredPrefix
         && s[|s| - |AgoSuffix|..] == AgoSuffix then
      match Decimal.ToNat(s[|ExpiredPrefix|..|s| - |AgoSuffix|])
      case Some(n) => Some(Days(-(n as int)))
      case None => None
    else if |s| >= |LeftSuffix| && s[|s| - |LeftSuffix|..] == LeftSuffix then
      match Decimal.ToNat(s[..|s| - |LeftSuffix|])
      case Some(n) => Some(Days(n))
      case None => None
    else None
  }

  /** The label shows the day count faithfully: reading it back recovers the
      count, so no two counts share a label (an expired count is shown as its
      magnitude, a non-negative number). */
  lemma LabelRoundTrip(days: DayCount)
    ensures ParseLabel(StatusLabel(days)) == Some(days)
  {
    var s := StatusLabel(days);
    match days
    case NotANumber =>
      assert s[0] == 'N' != TodayLabel[0];
    case Days(d) =>
      if d < 0 {
        var digits := Decimal.FromNat(-d);
        assert s[6] == 'd' != TodayLabel[6];
        assert s[0] == 'E' != NaNLabel[0];
        assert s[..|ExpiredPrefix|] == ExpiredPrefix;
        assert s[|s| - |AgoSuffix|..] == AgoSuffix;
        assert s[|ExpiredPrefix|..|s| - |AgoSuffix|] == digits;
        Decimal.ToNatFromNat(-d);
      } else if d > 0 {
        var digits := Decimal.FromNat(d);
        assert s[0] == digits[0];
        assert Decimal.IsDigit(s[0]);
        assert s != TodayLabel && s != NaNLabel;
        assert s[..|ExpiredPrefix|] != ExpiredPrefix by {
          assert s[0] != ExpiredPrefix[0];
        }
        assert s[|s| - |LeftSuffix|..] == LeftSuffix;
        assert s[..|s| - |LeftSuffix|] == digits;
        Decimal.ToNatFromNat(d);
      }
  }

  /** Distinct day counts always show distinct labels. */
  lemma LabelInjective(a: DayCount, b: DayCount)
    requires StatusLabel(a) == StatusLabel(b)
    ensures a == b
  {
    LabelRoundTrip(a);
    LabelRoundTrip(b);
  }

  /** The days shown for a product on the page. */
  function DisplayDays(nowMs: int, parse: Scheduler.DateParser, p: TrackedProduct): (r: DayCount)
    ensures r.NotANumber? <==> parse(p.expiryDate).None?
    ensures parse(p.expiryDate).Some? ==>
              r.Days? && (r.n - 1) * MsPerDay < parse(p.expiryDate).value - nowMs <= r.n * MsPerDay
  {
    DaysUntilExpiry(nowMs, parse(p.expiryDate))
  }

  /** A page product handed to the scheduler: the page has no contact fields. */
  function AsScheduled(p: TrackedProduct): Scheduler.Product
  {
    Scheduler.Product(p.id, p.name, p.expiryDate, p.notificationType, p.frequency, None, None)
  }

  /** The page and the scheduler count days with the same formula. */
  lemma DisplayDaysAgree(nowMs: int, parse: Scheduler.DateParser, p: TrackedProduct)
    ensures DisplayDays(nowMs, parse, p) == Scheduler.DaysLeft(nowMs, parse, AsScheduled(p))
  {
  }

  /** Products entered on the page carry no contact, so a pass over them never
      dispatches anything, whatever their dates and settings. */
  lemma {:induction false} PageProductsNeverDispatch(nowMs: int, parse: Scheduler.DateParser, products: seq<TrackedProduct>)
    ensures Scheduler.Pass(nowMs, parse, seq(|products|, i requires 0 <= i < |products| => AsScheduled(products[i]))) == []
  {
    if |products| > 0 {
      var mapped := seq(|products|, i requires 0 <= i < |products| => AsScheduled(products[i]));
      var tail := products[1..];
      PageProductsNeverDispatch(nowMs, parse, tail);
      assert mapped[1..] == seq(|tail|, i requires 0 <= i < |tail| => AsScheduled(tail[i]));
      assert Scheduler.Evaluate(nowMs, parse, mapped[0]).None?;
    }
  }

  /** The drop-down never offers `same_day`, and its last option is one the
      evaluator does not know. */
  lemma OptionsVersusEvaluator()
    ensures forall o :: o in FrequencyOptions ==> ParseFrequency(o) != SameDay
    ensures ParseFrequency(FrequencyOptions[5]).Unknown?
    ensures forall k :: 0 <= k < 5 ==> !ParseFrequency(FrequencyOptions[k]).Unknown?
  {
  }
}
