/**
 * The monthly report of `GET /report` (routes/api.js): the date window of the
 * requested month, the store query for one user's costs inside it, the
 * grouping of those costs into the five category buckets, and the reshaping
 * of the buckets into the response's `costs` array.
 */
module Report {
  import opened Basics
  import opened Dates
  import opened Numbers
  import opened CostModel
  import opened Http

  /** One line of a bucket: `{sum, description, day}`. */
  datatype Entry = Entry(sum: real, description: string, day: int)

  /** The entry a cost contributes: its sum and description, and the day of the month of its date. */
  function EntryOf(c: Cost): (e: Entry)
    ensures Valid(c.date) ==> 1 <= e.day <= DaysInMonth(c.date.year, c.date.month)
  {
    Entry(c.sum, c.description, c.date.day)
  }

  // ---------------------------------------------------------------------------
  // The window

  /** `new Date(year, month - 1, 1)`: day 1 of the month at 00:00:00. */
  function WindowStart(year: int, month: int): (s: Instant)
    ensures Valid(s) && s.day == 1 && s.hour == 0 && s.minute == 0 && s.second == 0 && s.ms == 0
  {
    MakeDate(year, month - 1, 1, 0, 0, 0)
  }

  /** `new Date(year, month, 0, 23, 59, 59)`: day 0 of the next month at 23:59:59. */
  function WindowEnd(year: int, month: int): (e: Instant)
    ensures Valid(e) && e.hour == 23 && e.minute == 59 && e.second == 59 && e.ms == 0
    ensures e.year == WindowStart(year, month).year && e.month == WindowStart(year, month).month
    ensures e.day == DaysInMonth(e.year, e.month)
  {
    DayZeroIsLastDay(year, month, 23, 59, 59);
    MakeDate(year, month, 0, 23, 59, 59)
  }

  /** The query's `date: {$gte: start, $lte: end}`. */
  predicate InWindow(t: Instant, year: int, month: int)
    ensures Valid(t) && InWindow(t, year, month) ==>
              t.year == WindowStart(year, month).year && t.month == WindowStart(year, month).month
  {
    AtOrBefore(WindowStart(year, month), t) && AtOrBefore(t, WindowEnd(year, month))
  }

  /**
   * The window runs from the first instant of one calendar month to 23:59:59
   * on that month's last day, for any year and month number.
   */
  lemma WindowSpansMonth(year: int, month: int)
    ensures var s, e := WindowStart(year, month), WindowEnd(year, month);
            && s == Instant(FullYear(year) + (month - 1) / 12, (month - 1) % 12 + 1, 1, 0, 0, 0, 0)
            && e == Instant(s.year, s.month, DaysInMonth(s.year, s.month), 23, 59, 59, 0)
  {
    DayZeroIsLastDay(year, month, 23, 59, 59);
  }

  /**
   * A well-formed instant is in the window exactly when it lies in the
   * window's calendar month and is not later than 23:59:59.000 on its last day.
   */
  lemma WindowMembership(t: Instant, year: int, month: int)
    requires Valid(t)
    ensures var s := WindowStart(year, month);
            InWindow(t, year, month) <==>
              && t.year == s.year && t.month == s.month
              && !(t.day == DaysInMonth(s.year, s.month) && t.hour == 23 && t.minute == 59 && t.second == 59 && t.ms > 0)
  {
    WindowSpansMonth(year, month);
  }

  /**
   * For a month 1..12: the 1st at 00:00:00 and the last day at 23:59:59 are in
   * the window; one millisecond later, and the 1st of the next month, are not.
   */
  lemma MonthBoundaries(year: int, month: int)
    requires 1 <= month <= 12
    ensures var y := FullYear(year);
            var last := DaysInMonth(y, month);
            var next := NextDay(y, month, last);
            && InWindow(Instant(y, month, 1, 0, 0, 0, 0), year, month)
            && InWindow(Instant(y, month, last, 23, 59, 59, 0), year, month)
            && !InWindow(Instant(y, month, last, 23, 59, 59, 1), year, month)
            && !InWindow(Instant(next.0, next.1, next.2, 0, 0, 0, 0), year, month)
  {
    WindowSpansMonth(year, month);
  }

  // ---------------------------------------------------------------------------
  // The store query

  /** `Cost.find({userid, date: {$gte: start, $lte: end}})`: the matching costs in store order. */
  function Fetch(costs: seq<Cost>, uid: int, year: int, month: int): (r: seq<Cost>)
    ensures |r| <= |costs|
    ensures forall x :: x in r ==> x in costs && x.userid == uid && InWindow(x.date, year, month)
    ensures forall x :: x in costs && x.userid == uid && InWindow(x.date, year, month) ==> x in r
  {
    if costs == [] then []
    else
      var rest := Fetch(costs[..|costs| - 1], uid, year, month);
      var last := costs[|costs| - 1];
      assert forall x :: x in costs ==> x in costs[..|costs| - 1] || x == last;
      if last.userid == uid && InWindow(last.date, year, month) then rest + [last] else rest
  }

  /** A new cost joins the end of the fetched sequence exactly when it matches the query. */
  lemma FetchAppend(costs: seq<Cost>, x: Cost, uid: int, year: int, month: int)
    ensures Fetch(costs + [x], uid, year, month) ==
              Fetch(costs, uid, year, month) + (if x.userid == uid && InWindow(x.date, year, month) then [x] else [])
  {
    assert (costs + [x])[..|costs|] == costs;
  }

  /**
   * Every entry of a report built from well-formed dates carries a day of
   * the requested month: 1 up to the month's length.
   */
  lemma FetchedDaysInMonth(costs: seq<Cost>, uid: int, year: int, month: int)
    requires forall x :: x in costs ==> Valid(x.date)
    ensures var s := WindowStart(year, month);
            forall x :: x in Fetch(costs, uid, year, month) ==>
              x.date.year == s.year && x.date.month == s.month &&
              1 <= EntryOf(x).day <= DaysInMonth(s.year, s.month)
  {
    forall x | x in Fetch(costs, uid, year, month)
      ensures x.date.year == WindowStart(year, month).year
      ensures x.date.month == WindowStart(year, month).month
    {
      WindowMembership(x.date, year, month);
    }
  }

  // ---------------------------------------------------------------------------
  // Grouping

  /** The bucket of category `c` after the forEach over `s`: one entry per cost named `c`, in order. */
  function Bucket(s: seq<Cost>, c: Category): (r: seq<Entry>)
    ensures |r| <= |s|
  {
    if s == [] then []
    else
      var last := s[|s| - 1];
      Bucket(s[..|s| - 1], c) + (if last.category == Name(c) then [EntryOf(last)] else [])
  }

  /** The positions in `s` of the costs named `c`, ascending. */
  function Positions(s: seq<Cost>, c: Category): (p: seq<int>)
    ensures forall k :: 0 <= k < |p| ==> 0 <= p[k] < |s| && s[p[k]].category == Name(c)
    ensures forall k, l :: 0 <= k < l < |p| ==> p[k] < p[l]
    ensures forall i :: 0 <= i < |s| && s[i].category == Name(c) ==> i in p
  {
    if s == [] then []
    else
      var p := Positions(s[..|s| - 1], c);
      if s[|s| - 1].category == Name(c) then p + [|s| - 1] else p
  }

  /**
   * The bucket of `c` holds, in the order of the fetched sequence, the entries
   * of exactly the costs whose category is the name of `c`; other costs,
   * including those with an unknown category, contribute nothing to it.
   */
  lemma {:induction false} BucketFollowsPositions(s: seq<Cost>, c: Category)
    ensures |Bucket(s, c)| == |Positions(s, c)|
    ensures forall k :: 0 <= k < |Bucket(s, c)| ==> Bucket(s, c)[k] == EntryOf(s[Positions(s, c)[k]])
  {
    if s != [] {
      var init, last := s[..|s| - 1], s[|s| - 1];
      BucketFollowsPositions(init, c);
      var b, p := Bucket(init, c), Positions(init, c);
      var tail := if last.category == Name(c) then [EntryOf(last)] else [];
      assert Bucket(s, c) == b + tail;
      assert Positions(s, c) == if last.category == Name(c) then p + [|s| - 1] else p;
      forall k | 0 <= k < |Bucket(s, c)|
        ensures Bucket(s, c)[k] == EntryOf(s[Positions(s, c)[k]])
      {
        if k < |b| {
          assert Positions(s, c)[k] == p[k];
          assert s[p[k]] == init[p[k]];
        }
      }
    }
  }

  /** The costs with one of the five categories. */
  function KnownCount(s: seq<Cost>): (n: nat)
    ensures n <= |s|
  {
    if s == [] then 0
    else KnownCount(s[..|s| - 1]) + (if CategoryOf(s[|s| - 1].category).Some? then 1 else 0)
  }

  /** The five buckets together hold one entry per cost with a known category. */
  lemma {:induction false} BucketSizesAddUp(s: seq<Cost>)
    ensures |Bucket(s, Food)| + |Bucket(s, Health)| + |Bucket(s, Housing)|
          + |Bucket(s, Sport)| + |Bucket(s, Education)| == KnownCount(s)
  {
    if s != [] {
      BucketSizesAddUp(s[..|s| - 1]);
    }
  }

  /** The `grouped` object has an own key for each of the five categories. */
  predicate Complete(grouped: map<Category, seq<Entry>>) {
    Food in grouped && Health in grouped && Housing in grouped && Sport in grouped && Education in grouped
  }

  /** `grouped` holds, under each of the five categories, that category's bucket over `s`. */
  predicate GroupsOf(grouped: map<Category, seq<Entry>>, s: seq<Cost>) {
    Complete(grouped) && forall c :: c in grouped ==> grouped[c] == Bucket(s, c)
  }

  /** The `grouped` literal before the loop: five empty arrays. */
  function EmptyGroups(): (g: map<Category, seq<Entry>>)
    ensures GroupsOf(g, [])
  {
    map[Food := [], Health := [], Housing := [], Sport := [], Education := []]
  }

  /** Appending one cost extends the bucket of its category, if any, and no other bucket. */
  lemma BucketAppend(s: seq<Cost>, x: Cost, c: Category)
    ensures Bucket(s + [x], c) == Bucket(s, c) + (if x.category == Name(c) then [EntryOf(x)] else [])
  {
    assert (s + [x])[..|s|] == s;
  }

  /** One pass of the loop body keeps `grouped` equal to the buckets of the costs seen so far. */
  lemma PushKeepsGroups(grouped: map<Category, seq<Entry>>, s: seq<Cost>, x: Cost)
    requires GroupsOf(grouped, s)
    ensures CategoryOf(x.category).None? ==> GroupsOf(grouped, s + [x])
    ensures CategoryOf(x.category).Some? ==>
              var c := CategoryOf(x.category).value;
              GroupsOf(grouped[c := grouped[c] + [EntryOf(x)]], s + [x])
  {
    match CategoryOf(x.category)
    case None =>
      forall c | c in grouped ensures grouped[c] == Bucket(s + [x], c) {
        BucketAppend(s, x, c);
      }
    case Some(k) =>
      var g := grouped[k := grouped[k] + [EntryOf(x)]];
      forall c | c in g ensures g[c] == Bucket(s + [x], c) {
        BucketAppend(s, x, c);
        if c != k {
          NamesDiffer(c, k);
        }
      }
  }

  /** The forEach with `push` into `grouped`, as a loop over the fetched costs. */
  method GroupCosts(fetched: seq<Cost>) returns (grouped: map<Category, seq<Entry>>)
    ensures GroupsOf(grouped, fetched)
  {
    grouped := EmptyGroups();
    var i := 0;
    while i < |fetched|
      invariant 0 <= i <= |fetched|
      invariant GroupsOf(grouped, fetched[..i])
    {
      var cost := fetched[i];
      PushKeepsGroups(grouped, fetched[..i], cost);
      assert fetched[..i + 1] == fetched[..i] + [cost];
      match CategoryOf(cost.category) {
        case Some(c) => grouped := grouped[c := grouped[c] + [EntryOf(cost)]];
        case None =>
      }
      i := i + 1;
    }
    assert fetched[..i] == fetched;
  }

  // ---------------------------------------------------------------------------
  // The response

  /** One element of `costs`: a single-key object `{category: entries}`. */
  datatype CategoryEntries = CategoryEntries(category: string, entries: seq<Entry>)

  /**
   * `Object.entries(grouped).map(([k, v]) => ({[k]: v}))`: five single-key
   * objects, in the key order of the `grouped` literal.
   */
  function Layout(grouped: map<Category, seq<Entry>>): (rows: seq<CategoryEntries>)
    requires Complete(grouped)
    ensures |rows| == 5
    ensures rows[0].category == "food" && rows[1].category == "health" && rows[2].category == "housing"
         && rows[3].category == "sport" && rows[4].category == "education"
    ensures rows[0].entries == grouped[Food] && rows[1].entries == grouped[Health]
         && rows[2].entries == grouped[Housing] && rows[3].entries == grouped[Sport]
         && rows[4].entries == grouped[Education]
  {
    seq(|Categories|, k requires 0 <= k < |Categories| => CategoryEntries(Name(Categories[k]), grouped[Categories[k]]))
  }

  /** Entries across all rows of `costs`. */
  function EntryCount(rows: seq<CategoryEntries>): nat {
    if rows == [] then 0 else |rows[0].entries| + EntryCount(rows[1..])
  }

  lemma EntryCountOfFive(rows: seq<CategoryEntries>)
    requires |rows| == 5
    ensures EntryCount(rows) == |rows[0].entries| + |rows[1].entries| + |rows[2].entries|
                              + |rows[3].entries| + |rows[4].entries|
  {
    assert EntryCount(rows[4..]) == |rows[4].entries| by { assert rows[4..][1..] == []; }
    assert EntryCount(rows[3..]) == |rows[3].entries| + EntryCount(rows[4..]) by { assert rows[3..][1..] == rows[4..]; }
    assert EntryCount(rows[2..]) == |rows[2].entries| + EntryCount(rows[3..]) by { assert rows[2..][1..] == rows[3..]; }
    assert EntryCount(rows[1..]) == |rows[1].entries| + EntryCount(rows[2..]) by { assert rows[1..][1..] == rows[2..]; }
  }

  /**
   * The report's `costs` holds as many entries as the fetched sequence has
   * costs with a known category; with no such cost all five rows are empty.
   */
  lemma ReportCountsKnownCosts(grouped: map<Category, seq<Entry>>, s: seq<Cost>)
    requires GroupsOf(grouped, s)
    ensures EntryCount(Layout(grouped)) == KnownCount(s)
    ensures KnownCount(s) == 0 ==> forall k :: 0 <= k < 5 ==> Layout(grouped)[k].entries == []
  {
    BucketSizesAddUp(s);
    var rows := Layout(grouped);
    EntryCountOfFive(rows);
    assert rows[0].entries == Bucket(s, Food) && rows[1].entries == Bucket(s, Health);
    assert rows[2].entries == Bucket(s, Housing) && rows[3].entries == Bucket(s, Sport);
    assert rows[4].entries == Bucket(s, Education);
  }

  datatype ReportBody = ReportBody(userid: int, year: int, month: int, costs: seq<CategoryEntries>)

  /**
   * The `/report` handler: parse the three query values, fetch the user's
   * costs in the month's window, group them and lay them out. Any parse or
   * store failure ends in a 400.
   */
  method BuildReport(costs: seq<Cost>, id: string, year: string, month: string, findFault: Option<string>)
    returns (r: Response<ReportBody>)
    ensures Status(r) == 200 || Status(r) == 400
    ensures r.BadRequest? <==>
              ParseInt(id).None? || ParseInt(year).None? || ParseInt(month).None? || findFault.Some?
    ensures (r.BadRequest? && findFault.Some? && IsDecimal(id) && IsDecimal(year) && IsDecimal(month))
              ==> r.failure == StoreFailure(findFault.value)
    ensures r.Ok? ==>
              var uid, y, m := ParseInt(id).value, ParseInt(year).value, ParseInt(month).value;
              && r.body.userid == uid && r.body.year == y && r.body.month == m
              && |r.body.costs| == 5
              && forall k :: 0 <= k < 5 ==>
                   r.body.costs[k] == CategoryEntries(Name(Categories[k]), Bucket(Fetch(costs, uid, y, m), Categories[k]))
  {
    var uid, y, m := ParseInt(id), ParseInt(year), ParseInt(month);
    if uid.None? || y.None? || m.None? {
      return BadRequest(Unparsable);
    }
    if findFault.Some? {
      return BadRequest(StoreFailure(findFault.value));
    }
    var fetched := Fetch(costs, uid.value, y.value, m.value);
    var grouped := GroupCosts(fetched);
    r := Ok(ReportBody(uid.value, y.value, m.value, Layout(grouped)));
  }

  // ---------------------------------------------------------------------------
  // The grouping as written

  /**
   * The names of the members every plain object inherits from Object.prototype
   * (section 20.1.3 of ECMA-262 and its Annex B).
   */
  const ObjectPrototypeNames: set<string> := {
    "constructor", "hasOwnProperty", "isPrototypeOf", "propertyIsEnumerable",
    "toLocaleString", "toString", "valueOf",
    "__proto__", "__defineGetter__", "__defineSetter__", "__lookupGetter__", "__lookupSetter__"
  }

  /** What `grouped[name]` yields on the object literal of five arrays. */
  datatype Slot = OwnBucket(c: Category) | InheritedMember | Undefined

  function LookupAsWritten(name: string): (r: Slot)
    ensures r.OwnBucket? <==> CategoryOf(name).Some?
    ensures r.InheritedMember? <==> name in ObjectPrototypeNames
  {
    match CategoryOf(name)
    case Some(c) => OwnBucket(c)
    case None => if name in ObjectPrototypeNames then InheritedMember else Undefined
  }

  /** The forEach either completes with the grouped object or stops at a TypeError. */
  datatype GroupOutcome = Completed(grouped: map<Category, seq<Entry>>) | Threw(category: string)

  /**
   * The loop as the source writes it: `if (grouped[cost.category])` is also
   * true for an inherited member such as `toString`, and calling `.push` on it
   * throws a TypeError, which the handler turns into a 400.
   */
  function GroupAsWritten(s: seq<Cost>): (r: GroupOutcome)
    ensures r.Completed? ==> Complete(r.grouped)
    ensures r.Threw? ==> r.category in ObjectPrototypeNames
  {
    if s == [] then Completed(EmptyGroups())
    else
      match GroupAsWritten(s[..|s| - 1])
      case Threw(name) => Threw(name)
      case Completed(g) =>
        var last := s[|s| - 1];
        match LookupAsWritten(last.category)
        case OwnBucket(c) => Completed(g[c := g[c] + [EntryOf(last)]])
        case InheritedMember => Threw(last.category)
        case Undefined => Completed(g)
  }

  /** Where no category is an inherited member's name, the written loop groups as intended. */
  lemma {:induction false} AsWrittenAgreesOffPrototype(s: seq<Cost>)
    requires forall i :: 0 <= i < |s| ==> s[i].category !in ObjectPrototypeNames
    ensures GroupAsWritten(s).Completed? && GroupsOf(GroupAsWritten(s).grouped, s)
  {
    if s != [] {
      var init, last := s[..|s| - 1], s[|s| - 1];
      AsWrittenAgreesOffPrototype(init);
      PushKeepsGroups(GroupAsWritten(init).grouped, init, last);
      assert init + [last] == s;
    }
  }

  /** The written loop throws exactly when some fetched cost's category is an inherited member's name. */
  lemma {:induction false} ThrowsIffInherited(s: seq<Cost>)
    ensures GroupAsWritten(s).Threw? <==> exists i :: 0 <= i < |s| && s[i].category in ObjectPrototypeNames
  {
    if s != [] {
      var init, last := s[..|s| - 1], s[|s| - 1];
      ThrowsIffInherited(init);
      if exists i :: 0 <= i < |init| && init[i].category in ObjectPrototypeNames {
        var i :| 0 <= i < |init| && init[i].category in ObjectPrototypeNames;
        assert s[i] == init[i];
      } else if last.category in ObjectPrototypeNames {
        assert s[|s| - 1] == last;
      } else {
        forall i | 0 <= i < |s| ensures s[i].category !in ObjectPrototypeNames {
          if i < |init| {
            assert s[i] == init[i];
          }
        }
      }
    }
  }

  /** The written loop throws exactly on an inherited name among `s`, and otherwise groups as intended. */
  lemma AsWrittenOutcome(s: seq<Cost>)
    ensures GroupAsWritten(s).Threw? <==> exists x :: x in s && x.category in ObjectPrototypeNames
    ensures GroupAsWritten(s).Completed? ==> GroupsOf(GroupAsWritten(s).grouped, s)
  {
    ThrowsIffInherited(s);
    if GroupAsWritten(s).Completed? {
      AsWrittenAgreesOffPrototype(s);
    } else {
      var i :| 0 <= i < |s| && s[i].category in ObjectPrototypeNames;
      assert s[i] in s;
    }
  }

  /**
   * The `/report` handler with the grouping as written: a fetched cost whose
   * category is an inherited member's name makes `.push` throw, and the catch
   * block answers 400; otherwise the response is the one `BuildReport` gives.
   */
  function ReportAsWritten(costs: seq<Cost>, id: string, year: string, month: string, findFault: Option<string>)
    : (r: Response<ReportBody>)
    ensures Status(r) == 200 || Status(r) == 400
    ensures r.BadRequest? <==>
              || ParseInt(id).None? || ParseInt(year).None? || ParseInt(month).None? || findFault.Some?
              || exists x :: x in Fetch(costs, ParseInt(id).value, ParseInt(year).value, ParseInt(month).value)
                               && x.category in ObjectPrototypeNames
    ensures r.BadRequest? && r.failure.NotAFunction? ==> r.failure.category in ObjectPrototypeNames
    ensures r.Ok? ==>
              var uid, y, m := ParseInt(id).value, ParseInt(year).value, ParseInt(month).value;
              && r.body.userid == uid && r.body.year == y && r.body.month == m
              && |r.body.costs| == 5
              && forall k :: 0 <= k < 5 ==>
                   r.body.costs[k] == CategoryEntries(Name(Categories[k]), Bucket(Fetch(costs, uid, y, m), Categories[k]))
  {
    if ParseInt(id).None? || ParseInt(year).None? || ParseInt(month).None? then BadRequest(Unparsable)
    else if findFault.Some? then BadRequest(StoreFailure(findFault.value))
    else
      var uid, y, m := ParseInt(id).value, ParseInt(year).value, ParseInt(month).value;
      GroupedResponse(uid, y, m, Fetch(costs, uid, y, m))
  }

  /** The rest of the written handler once the costs are fetched: group them, then answer. */
  function GroupedResponse(uid: int, y: int, m: int, fetched: seq<Cost>): (r: Response<ReportBody>)
    ensures r.BadRequest? <==> exists x :: x in fetched && x.category in ObjectPrototypeNames
    ensures r.BadRequest? ==> r.failure.NotAFunction? && r.failure.category in ObjectPrototypeNames
    ensures r.Ok? || r.BadRequest?
    ensures r.Ok? ==>
              && r.body.userid == uid && r.body.year == y && r.body.month == m
              && |r.body.costs| == 5
              && forall k :: 0 <= k < 5 ==>
                   r.body.costs[k] == CategoryEntries(Name(Categories[k]), Bucket(fetched, Categories[k]))
  {
    AsWrittenOutcome(fetched);
    match GroupAsWritten(fetched)
    case Threw(name) => BadRequest(NotAFunction(name))
    case Completed(g) => Ok(ReportBody(uid, y, m, Layout(g)))
  }

  /**
   * A single stored cost with category "toString" makes the written loop throw,
   * where the intended grouping drops it and reports five empty buckets.
   */
  lemma PrototypeCategoryThrows(x: Cost)
    requires x.category == "toString"
    ensures GroupAsWritten([x]) == Threw("toString")
    ensures forall c :: Bucket([x], c) == []
  {
    assert [x][..0] == [];
  }
}
