/**
 * The add path of `POST /add` (routes/api.js): build a cost document from the
 * request body, validate and save it, and answer with the stored document or
 * a 400 carrying the error.
 */
module AddRoute {
  import opened Basics
  import opened Dates
  import opened CostModel
  import opened Http

  /**
   * The `/add` handler over the costs collection. `now` is the server clock
   * when the document is built; `saveFault` stands for a failing insert. The
   * result pairs the response with the collection afterwards. A collection
   * whose dates are all calendar instants keeps that property.
   */
  function AddCost(costs: seq<Cost>, input: CostInput, now: Instant, saveFault: Option<string>)
    : (r: (Response<Cost>, seq<Cost>))
    requires Valid(now)
    ensures Status(r.0) == 200 || Status(r.0) == 400
    ensures r.0.Ok? <==> FailingFields(input) == [] && saveFault.None?
    ensures r.0.Ok? ==>
              && IsValid(r.0.body) && Valid(r.0.body.date)
              && r.0.body.description == input.description.value
              && r.0.body.category == input.category.value
              && r.0.body.userid == input.userid.value
              && r.0.body.sum == input.sum.value
              && r.0.body.date == (if input.date.Some? then input.date.value else now)
              && r.1 == costs + [r.0.body]
    ensures r.0.BadRequest? ==> r.1 == costs
    ensures (forall x :: x in costs ==> Valid(x.date)) ==> forall x :: x in r.1 ==> Valid(x.date)
    ensures r.0.BadRequest? && FailingFields(input) != [] ==> r.0.failure == InvalidCost(FailingFields(input))
  {
    match Create(input, now)
    case Rejected(fields) => (BadRequest(InvalidCost(fields)), costs)
    case Accepted(cost) =>
      if saveFault.Some? then (BadRequest(StoreFailure(saveFault.value)), costs)
      else (Ok(cost), costs + [cost])
  }
}
