/**
 * The cost document of models/cost.js: its five-valued category, the stored
 * record, and the schema's validation with the date default, as the add path
 * relies on them.
 */
module CostModel {
  import opened Basics
  import opened Dates

  /** The category enum of the schema, in the order it is declared. */
  datatype Category = Food | Health | Housing | Sport | Education

  const Categories: seq<Category> := [Food, Health, Housing, Sport, Education]

  function Name(c: Category): string {
    match c
    case Food => "food"
    case Health => "health"
    case Housing => "housing"
    case Sport => "sport"
    case Education => "education"
  }

  /** The category a stored string names, if it is one of the five. */
  function CategoryOf(s: string): (r: Option<Category>)
    ensures r.Some? ==> Name(r.value) == s
    ensures r.None? ==> forall c: Category :: Name(c) != s
  {
    if s == "food" then Some(Food)
    else if s == "health" then Some(Health)
    else if s == "housing" then Some(Housing)
    else if s == "sport" then Some(Sport)
    else if s == "education" then Some(Education)
    else None
  }

  /** Every category is listed once, in declaration order, and its name reads back as itself. */
  lemma CategoriesListed(c: Category)
    ensures c in Categories
    ensures CategoryOf(Name(c)) == Some(c)
  {
  }

  /** Distinct categories have distinct names. */
  lemma NamesDiffer(c: Category, k: Category)
    requires c != k
    ensures Name(c) != Name(k)
  {
    CategoriesListed(c);
  }

  /**
   * A cost document as the store holds it. The category is kept as text: a
   * document written past the schema may carry any string there.
   */
  datatype Cost = Cost(description: string, category: string, userid: int, sum: real, date: Instant)

  /** What the schema admits: a non-empty description and one of the five categories. */
  predicate IsValid(c: Cost)
    ensures IsValid(c) <==> c.description != "" && c.category in ["food", "health", "housing", "sport", "education"]
  {
    c.description != "" && CategoryOf(c.category).Some?
  }

  /** The fields of an add request body, each possibly omitted. */
  datatype CostInput = CostInput(
    description: Option<string>,
    category: Option<string>,
    userid: Option<int>,
    sum: Option<real>,
    date: Option<Instant>)

  /** The schema paths a validation error can name, in declaration order. */
  datatype Field = DescriptionField | CategoryField | UseridField | SumField | DateField

  /**
   * The date path fails its cast when a date is given that is no calendar
   * instant: Mongoose's `Date` cast yields only real dates.
   */
  predicate BadDate(v: Option<Instant>) {
    v.Some? && !Valid(v.value)
  }

  /** A required string is missing when it is absent or empty. */
  predicate MissingText(v: Option<string>) {
    v.None? || v.value == ""
  }

  /** The category path fails `required` when missing and `enum` when not one of the five. */
  predicate BadCategory(v: Option<string>) {
    v.None? || CategoryOf(v.value).None?
  }

  /** The paths whose validators reject the input, in schema order. */
  function FailingFields(input: CostInput): (r: seq<Field>)
    ensures DescriptionField in r <==> MissingText(input.description)
    ensures CategoryField in r <==> BadCategory(input.category)
    ensures UseridField in r <==> input.userid.None?
    ensures SumField in r <==> input.sum.None?
    ensures DateField in r <==> BadDate(input.date)
    ensures |r| <= 5
  {
    (if MissingText(input.description) then [DescriptionField] else [])
    + (if BadCategory(input.category) then [CategoryField] else [])
    + (if input.userid.None? then [UseridField] else [])
    + (if input.sum.None? then [SumField] else [])
    + (if BadDate(input.date) then [DateField] else [])
  }

  datatype Validated = Accepted(cost: Cost) | Rejected(fields: seq<Field>)

  /**
   * `new Cost({...})` followed by validation: the document is accepted exactly
   * when no path fails, keeps the four given fields and takes `now`, the
   * clock's reading, as its date when none was given.
   */
  function Create(input: CostInput, now: Instant): (r: Validated)
    requires Valid(now)
    ensures r.Accepted? <==>
              && input.description.Some? && input.description.value != ""
              && input.category.Some? && CategoryOf(input.category.value).Some?
              && input.userid.Some? && input.sum.Some?
              && (input.date.Some? ==> Valid(input.date.value))
    ensures r.Accepted? ==>
              && IsValid(r.cost) && Valid(r.cost.date)
              && r.cost.description == input.description.value
              && r.cost.category == input.category.value
              && r.cost.userid == input.userid.value
              && r.cost.sum == input.sum.value
              && r.cost.date == (if input.date.Some? then input.date.value else now)
    ensures r.Rejected? ==> r.fields != [] && r.fields == FailingFields(input)
  {
    var failing := FailingFields(input);
    if failing != [] then Rejected(failing)
    else
      var date := if input.date.Some? then input.date.value else now;
      Accepted(Cost(input.description.value, input.category.value, input.userid.value, input.sum.value, date))
  }

  /** A given date that is no calendar instant, such as 30 February at 25:00, fails the date path. */
  lemma ImpossibleDateIsRejected(input: CostInput, now: Instant)
    requires Valid(now)
    requires input.date == Some(Instant(2025, 2, 30, 25, 0, 0, 0))
    ensures Create(input, now).Rejected?
    ensures DateField in Create(input, now).fields
  {
  }

  /** An expense in a category outside the five, such as "transport", is refused. */
  lemma TransportIsRejected(input: CostInput, now: Instant)
    requires Valid(now)
    requires input.category == Some("transport")
    ensures Create(input, now).Rejected?
    ensures CategoryField in Create(input, now).fields
  {
  }
}
