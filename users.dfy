/**
 * The user summary of `GET /users/:id` (routes/api.js): find the first user
 * whose id equals the path text or its integer, then total the `sum` of that
 * user's costs with an aggregate pipeline, defaulting to 0.
 */
module Users {
  import opened Basics
  import opened Dates
  import opened Numbers
  import opened CostModel
  import opened Http

  /** A stored user id: the schema declares text, but a document may hold a number. */
  datatype UserId = TextId(text: string) | NumberId(n: int)

  /** A user document (models/user.js). */
  datatype User = User(id: UserId, firstName: string, lastName: string, birthday: Instant, maritalStatus: string)

  /** `u.id === userId || u.id === parseInt(userId)`: strictly equal to the text or to its integer. */
  predicate Matches(u: User, raw: string)
    ensures u.id.TextId? ==> (Matches(u, raw) <==> u.id.text == raw)
    ensures u.id.NumberId? ==> (Matches(u, raw) <==> ParseInt(raw) == Some(u.id.n))
    ensures Matches(u, raw) && u.id.NumberId? ==> IsDecimal(raw)
  {
    u.id == TextId(raw) || (ParseInt(raw).Some? && u.id == NumberId(ParseInt(raw).value))
  }

  /** `allUsers.find(...)`: the first stored user that matches, if any. */
  function FindUser(users: seq<User>, raw: string): (r: Option<User>)
    ensures r.None? <==> forall i :: 0 <= i < |users| ==> !Matches(users[i], raw)
    ensures r.Some? ==>
              exists i :: 0 <= i < |users| && users[i] == r.value && Matches(users[i], raw)
                       && forall j :: 0 <= j < i ==> !Matches(users[j], raw)
  {
    if users == [] then None
    else if Matches(users[0], raw) then Some(users[0])
    else
      var r := FindUser(users[1..], raw);
      assert r.Some? ==> exists i :: 1 <= i < |users| && users[i] == r.value && Matches(users[i], raw)
                                 && forall j :: 0 <= j < i ==> !Matches(users[j], raw)
        by {
          if r.Some? {
            var i :| 0 <= i < |users[1..]| && users[1..][i] == r.value && Matches(users[1..][i], raw)
                     && forall j :: 0 <= j < i ==> !Matches(users[1..][j], raw);
            assert users[i + 1] == r.value;
            assert forall j :: 0 <= j < i + 1 ==> !Matches(users[j], raw) by {
              forall j | 0 <= j < i + 1 ensures !Matches(users[j], raw) {
                if j > 0 { assert users[j] == users[1..][j - 1]; }
              }
            }
          }
        }
      r
  }

  /** `$match: {userid: parseInt(userId)}`: that user's costs; a failed parse (NaN) matches none. */
  function MatchUser(costs: seq<Cost>, uid: Option<int>): (r: seq<Cost>)
    ensures forall x :: x in r <==> x in costs && uid == Some(x.userid)
  {
    if costs == [] then []
    else
      var rest := MatchUser(costs[1..], uid);
      assert forall x :: x in costs <==> x == costs[0] || x in costs[1..];
      if uid == Some(costs[0].userid) then [costs[0]] + rest else rest
  }

  /** `$sum: "$sum"` over a run of costs. */
  function SumOf(costs: seq<Cost>): (r: real)
    ensures (forall x :: x in costs ==> x.sum >= 0.0) ==> r >= 0.0
  {
    if costs == [] then 0.0 else costs[0].sum + SumOf(costs[1..])
  }

  /** The pipeline's output: one `{_id: null, total}` group when a cost matched, none otherwise. */
  function Aggregate(costs: seq<Cost>, uid: Option<int>): (groups: seq<real>)
    ensures |groups| <= 1
    ensures groups == [] <==> forall x :: x in costs ==> uid != Some(x.userid)
  {
    var matched := MatchUser(costs, uid);
    if matched == [] then [] else [SumOf(matched)]
  }

  /** `totalCosts[0]?.total || 0`: the group's total, or 0 when there is none (or it is 0). */
  function TotalOrZero(groups: seq<real>): (r: real)
    ensures groups == [] ==> r == 0.0
    ensures |groups| > 0 ==> r == groups[0]
  {
    if |groups| > 0 && groups[0] != 0.0 then groups[0] else 0.0
  }

  /** What the summary promises: the user's costs added up in one pass over the store. */
  function UserTotal(costs: seq<Cost>, uid: Option<int>): (r: real)
    ensures (forall x :: x in costs ==> uid != Some(x.userid)) ==> r == 0.0
    ensures (forall x :: x in costs ==> x.sum >= 0.0) ==> r >= 0.0
  {
    if costs == [] then 0.0
    else (if uid == Some(costs[0].userid) then costs[0].sum else 0.0) + UserTotal(costs[1..], uid)
  }

  lemma {:induction false} SumOfMatchedIsUserTotal(costs: seq<Cost>, uid: Option<int>)
    ensures SumOf(MatchUser(costs, uid)) == UserTotal(costs, uid)
  {
    if costs != [] {
      SumOfMatchedIsUserTotal(costs[1..], uid);
      if uid == Some(costs[0].userid) {
        assert ([costs[0]] + MatchUser(costs[1..], uid))[1..] == MatchUser(costs[1..], uid);
      }
    }
  }

  /**
   * The aggregate with its `|| 0` default yields the sum of `sum` over the
   * costs whose userid is the parsed id, and 0 when there are none.
   */
  lemma PipelineComputesUserTotal(costs: seq<Cost>, uid: Option<int>)
    ensures TotalOrZero(Aggregate(costs, uid)) == UserTotal(costs, uid)
    ensures (forall x :: x in costs ==> uid != Some(x.userid)) ==> UserTotal(costs, uid) == 0.0
  {
    SumOfMatchedIsUserTotal(costs, uid);
  }

  /** One more cost adds its `sum` to its own user's total and leaves every other total alone. */
  lemma {:induction false} UserTotalAppend(costs: seq<Cost>, x: Cost, uid: Option<int>)
    ensures UserTotal(costs + [x], uid) == UserTotal(costs, uid) + (if uid == Some(x.userid) then x.sum else 0.0)
  {
    if costs != [] {
      assert (costs + [x])[1..] == costs[1..] + [x];
      UserTotalAppend(costs[1..], x, uid);
    }
  }

  /** The JSON body of a successful summary. */
  datatype Summary = Summary(id: UserId, firstName: string, lastName: string, total: real)

  /**
   * The `/users/:id` handler. `findFault` and `aggregateFault` stand for a
   * failure of the users query and of the aggregate; either ends in a 500.
   */
  function UserSummary(users: seq<User>, costs: seq<Cost>, raw: string,
                       findFault: Option<string>, aggregateFault: Option<string>): (r: Response<Summary>)
    ensures Status(r) != 400
    ensures r.ServerError? <==> findFault.Some? || (FindUser(users, raw).Some? && aggregateFault.Some?)
    ensures r.NotFound? <==> findFault.None? && forall i :: 0 <= i < |users| ==> !Matches(users[i], raw)
    ensures r.NotFound? ==> r.failure == UserNotFound
    ensures r.Ok? ==>
              exists i :: 0 <= i < |users| && Matches(users[i], raw)
                       && (forall j :: 0 <= j < i ==> !Matches(users[j], raw))
                       && r.body == Summary(users[i].id, users[i].firstName, users[i].lastName,
                                            UserTotal(costs, ParseInt(raw)))
  {
    if findFault.Some? then ServerError(StoreFailure(findFault.value))
    else
      match FindUser(users, raw)
      case None => NotFound(UserNotFound)
      case Some(u) =>
        if aggregateFault.Some? then ServerError(StoreFailure(aggregateFault.value))
        else
          PipelineComputesUserTotal(costs, ParseInt(raw));
          Ok(Summary(u.id, u.firstName, u.lastName, TotalOrZero(Aggregate(costs, ParseInt(raw)))))
  }
}
