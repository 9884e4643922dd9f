/**
 * Properties that span more than one handler: what the schema admits is
 * always reported, and what `/add` stores shows up in `/report` and in the
 * total of `/users/:id`.
 */
module Flows {
  import opened Basics
  import opened Dates
  import opened Numbers
  import opened CostModel
  import opened Report
  import opened Users
  import opened AddRoute

  /**
   * A cost the schema admits names one of the report's buckets: grouping it
   * appends its entry there and nowhere else, so the drop branch is never
   * taken for documents written through the schema.
   */
  lemma ValidCostLandsInBucket(s: seq<Cost>, x: Cost)
    requires IsValid(x)
    ensures var c := CategoryOf(x.category).value;
            && x.category == Name(c)
            && Bucket(s + [x], c) == Bucket(s, c) + [EntryOf(x)]
            && (forall k :: k != c ==> Bucket(s + [x], k) == Bucket(s, k))
            && KnownCount(s + [x]) == KnownCount(s) + 1
  {
    var c := CategoryOf(x.category).value;
    BucketAppend(s, x, c);
    forall k | k != c ensures Bucket(s + [x], k) == Bucket(s, k) {
      BucketAppend(s, x, k);
      NamesDiffer(k, c);
    }
    assert (s + [x])[..|s|] == s;
  }

  /**
   * After a successful add, the report of the month that holds the new
   * document's date ends its category's bucket with the document's entry;
   * the other buckets are as before.
   */
  lemma AddThenReport(costs: seq<Cost>, input: CostInput, now: Instant, year: int, month: int)
    requires Valid(now)
    requires AddCost(costs, input, now, None).0.Ok?
    requires InWindow(AddCost(costs, input, now, None).0.body.date, year, month)
    ensures var x := AddCost(costs, input, now, None).0.body;
            var after := AddCost(costs, input, now, None).1;
            var c := CategoryOf(x.category).value;
            var s := WindowStart(year, month);
            && 1 <= EntryOf(x).day <= DaysInMonth(s.year, s.month)
            && Bucket(Fetch(after, x.userid, year, month), c)
                 == Bucket(Fetch(costs, x.userid, year, month), c) + [EntryOf(x)]
            && forall k :: k != c ==>
                 Bucket(Fetch(after, x.userid, year, month), k) == Bucket(Fetch(costs, x.userid, year, month), k)
  {
    var x := AddCost(costs, input, now, None).0.body;
    WindowMembership(x.date, year, month);
    FetchAppend(costs, x, x.userid, year, month);
    ValidCostLandsInBucket(Fetch(costs, x.userid, year, month), x);
  }

  /** After a successful add, the user's summary total has grown by exactly the new `sum`. */
  lemma AddThenSummary(costs: seq<Cost>, input: CostInput, now: Instant)
    requires Valid(now)
    requires AddCost(costs, input, now, None).0.Ok?
    ensures var x := AddCost(costs, input, now, None).0.body;
            var after := AddCost(costs, input, now, None).1;
            && UserTotal(after, Some(x.userid)) == UserTotal(costs, Some(x.userid)) + x.sum
            && forall uid :: uid != x.userid ==> UserTotal(after, Some(uid)) == UserTotal(costs, Some(uid))
  {
    var x := AddCost(costs, input, now, None).0.body;
    UserTotalAppend(costs, x, Some(x.userid));
    forall uid | uid != x.userid ensures UserTotal(costs + [x], Some(uid)) == UserTotal(costs, Some(uid)) {
      UserTotalAppend(costs, x, Some(uid));
    }
  }

  /**
   * The add-then-report flow for user 123123: a "milk test" food cost of 10
   * added without a date during May 2025 (outside the last 999 ms of May 31) is the
   * last entry of the food bucket of the report for id=123123, year=2025, month=5.
   */
  lemma MilkTestExample(costs: seq<Cost>, now: Instant)
    requires Valid(now) && now.year == 2025 && now.month == 5
    requires !(now.day == 31 && now.hour == 23 && now.minute == 59 && now.second == 59 && now.ms > 0)
    ensures var input := CostInput(Some("milk test"), Some("food"), Some(123123), Some(10.0), None);
            var r := AddCost(costs, input, now, None);
            && r.0.Ok? && r.0.body.description == "milk test"
            && ParseInt("123123") == Some(123123) && ParseInt("2025") == Some(2025) && ParseInt("5") == Some(5)
            && Bucket(Fetch(r.1, 123123, 2025, 5), Food)
                 == Bucket(Fetch(costs, 123123, 2025, 5), Food) + [Entry(10.0, "milk test", now.day)]
  {
    var input := CostInput(Some("milk test"), Some("food"), Some(123123), Some(10.0), None);
    ParseShowRoundTrip(123123);
    ParseShowRoundTrip(2025);
    ParseShowRoundTrip(5);
    assert ShowInt(123123) == "123123" && ShowInt(2025) == "2025" && ShowInt(5) == "5";
    WindowMembership(now, 2025, 5);
    WindowSpansMonth(2025, 5);
    AddThenReport(costs, input, now, 2025, 5);
  }
}
