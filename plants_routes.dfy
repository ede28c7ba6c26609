/**
 * The plant routes (routes/plants.js): validation and defaults of the create
 * request, and how the listing request's parameters become a filter, a sort
 * direction and a page.
 */
module PlantRoutes {
  import opened Wrappers
  import opened Http
  import opened PlantModel

  // ---------------------------------------------------------------------
  // POST /  (create a plant)

  /** The create request body; absent fields are `None`. */
  datatype CreateRequest = CreateRequest(
    name: Option<string>,
    price: Option<int>,
    categories: Option<seq<string>>,
    isAvailable: Option<bool>,
    description: Option<string>,
    scientificName: Option<string>,
    image: Option<string>,
    lightRequirement: Option<string>,
    wateringFrequency: Option<string>,
    potSize: Option<string>,
    careInstructions: Option<string>,
    popularity: Option<int>)

  /** JavaScript truthiness of an optional number: present and not zero. */
  predicate TruthyNumber(n: Option<int>) {
    n.Some? && n.value != 0
  }

  /** `x?.trim()`: absent stays absent. */
  function TrimOptional(s: Option<string>): Option<string> {
    if s.Some? then Some(Trim(s.value)) else None
  }

  /** The document the route hands to the Plant model once its own checks pass. */
  function CreateDoc(req: CreateRequest): PlantDoc
    requires req.name.Some? && req.categories.Some?
  {
    PlantDoc(
      Some(Trim(req.name.value)),
      req.price,
      req.categories.value,
      Some(req.isAvailable.GetOr(true)),
      TrimOptional(req.description),
      TrimOptional(req.scientificName),
      req.image,
      req.lightRequirement,
      req.wateringFrequency,
      req.potSize,
      req.careInstructions,
      Some(if TruthyNumber(req.popularity) then req.popularity.value else 0))
  }

  /**
   * POST /: the route's own checks (name, price and a category must be truthy,
   * the price must not be negative), then the schema's validation on save.
   * Every failure, the schema's included, is answered with 400.
   */
  function CreatePlant(req: CreateRequest): (r: Response<Plant>)
    ensures r.Failure? ==> r.status == BadRequest
    ensures r.Success? ==> r.status == Created && PlantValid(r.data)
    // the truthiness check: a missing or empty name, a missing or zero price, no categories
    ensures !TruthyString(req.name) || !TruthyNumber(req.price) ==> r.Failure?
    ensures req.categories.None? || req.categories.value == [] ==> r.Failure?
    // so every price of zero or less is refused
    ensures req.price.Some? && req.price.value <= 0 ==> r.Failure?
    // what is saved
    ensures r.Success? ==> r.data.name == Trim(req.name.value) && r.data.price == req.price.value
    ensures r.Success? ==> r.data.categories == req.categories.value && r.data.categories != []
    ensures r.Success? ==> r.data.isAvailable == (req.isAvailable.None? || req.isAvailable.value)
    ensures r.Success? ==> r.data.popularity == (if TruthyNumber(req.popularity) then req.popularity.value else 0)
    ensures r.Success? ==> r.data.lightRequirement == req.lightRequirement.GetOr(DefaultLightRequirement)
    ensures r.Success? ==> r.data.image == req.image.GetOr(DefaultImage)
    ensures r.Success? ==> r.data.description == TrimOptional(req.description)
    ensures r.Success? ==> r.data.scientificName == TrimOptional(req.scientificName)
    ensures r.Success? ==> r.data.wateringFrequency == req.wateringFrequency && r.data.potSize == req.potSize
    ensures r.Success? ==> r.data.careInstructions == req.careInstructions
    // a request meeting every rule is accepted
    ensures TruthyString(req.name) && req.price.Some? && req.price.value > 0 &&
            req.categories.Some? && req.categories.value != [] &&
            Trim(req.name.value) != "" && |Trim(req.name.value)| <= MaxNameLength &&
            (forall i :: 0 <= i < |req.categories.value| ==> req.categories.value[i] in Categories) &&
            (req.description.Some? ==> |Trim(req.description.value)| <= MaxDescriptionLength) &&
            (req.lightRequirement.Some? ==> req.lightRequirement.value in LightRequirements) &&
            (req.popularity.Some? ==> MinPopularity <= req.popularity.value <= MaxPopularity)
            ==> r.Success?
  {
    if !TruthyString(req.name) || !TruthyNumber(req.price) || req.categories.None? || req.categories.value == [] then
      Failure(BadRequest)
    else if req.price.value < 0 then
      Failure(BadRequest)
    else
      match NewPlant(CreateDoc(req))
      case None => CreateDocAccepted(req); Failure(BadRequest)
      case Some(p) => CreateDocSaved(req, p); Success(Created, p)
  }

  /** The document of a request meeting every rule passes the schema. */
  lemma CreateDocAccepted(req: CreateRequest)
    requires req.name.Some? && req.categories.Some?
    ensures Trim(req.name.value) != "" && |Trim(req.name.value)| <= MaxNameLength &&
            req.price.Some? && req.price.value >= 0 &&
            (forall i :: 0 <= i < |req.categories.value| ==> req.categories.value[i] in Categories) &&
            (req.description.Some? ==> |Trim(req.description.value)| <= MaxDescriptionLength) &&
            (req.lightRequirement.Some? ==> req.lightRequirement.value in LightRequirements) &&
            (req.popularity.Some? ==> MinPopularity <= req.popularity.value <= MaxPopularity)
            ==> NewPlant(CreateDoc(req)).Some?
  {
    CreateDocMeetsSchema(req);
  }

  /** The route's rules, stated on the request, make its document meet the schema's rules. */
  lemma CreateDocMeetsSchema(req: CreateRequest)
    requires req.name.Some? && req.categories.Some?
    ensures Trim(req.name.value) != "" && |Trim(req.name.value)| <= MaxNameLength &&
            req.price.Some? && req.price.value >= 0 &&
            (forall i :: 0 <= i < |req.categories.value| ==> req.categories.value[i] in Categories) &&
            (req.description.Some? ==> |Trim(req.description.value)| <= MaxDescriptionLength) &&
            (req.lightRequirement.Some? ==> req.lightRequirement.value in LightRequirements) &&
            (req.popularity.Some? ==> MinPopularity <= req.popularity.value <= MaxPopularity)
            ==> DocMeetsSchema(CreateDoc(req))
  {
    var d := CreateDoc(req);
    var name := Trim(req.name.value);
    TrimIdempotent(req.name.value);
    assert d.name == Some(name) && Trim(name) == name;
    assert d.categories == req.categories.value;
    assert d.description.Some? ==> d.description.value == Trim(req.description.value);
    assert d.popularity.Some? ==> d.popularity.value == 0 || d.popularity == req.popularity;
    assert d.lightRequirement == req.lightRequirement;
  }

  /** The plant saved from a request's document: each field as the route and the schema set it. */
  lemma CreateDocSaved(req: CreateRequest, p: Plant)
    requires req.name.Some? && req.categories.Some?
    requires NewPlant(CreateDoc(req)) == Some(p)
    ensures PlantValid(p)
    ensures p.name == Trim(req.name.value) && p.price == req.price.value && p.categories == req.categories.value
    ensures p.isAvailable == (req.isAvailable.None? || req.isAvailable.value)
    ensures p.popularity == (if TruthyNumber(req.popularity) then req.popularity.value else 0)
    ensures p.lightRequirement == req.lightRequirement.GetOr(DefaultLightRequirement) && p.image == req.image.GetOr(DefaultImage)
    ensures p.description == TrimOptional(req.description) && p.scientificName == TrimOptional(req.scientificName)
    ensures p.wateringFrequency == req.wateringFrequency && p.potSize == req.potSize && p.careInstructions == req.careInstructions
  {
    TrimIdempotent(req.name.value);
  }

  // ---------------------------------------------------------------------
  // GET /  (list plants): filters

  /** The filter part of the database query (the regex search is not part of this model). */
  datatype Query = Query(category: Option<string>, availableOnly: bool)

  /**
   * The category filter is set only for a truthy category other than 'all';
   * the availability filter only when `inStock` is exactly the string 'true'.
   */
  function BuildQuery(category: Option<string>, inStock: Option<string>): (q: Query)
    ensures q.category.Some? <==> TruthyString(category) && category.value != "all"
    ensures q.category.Some? ==> q.category == category
    ensures q.availableOnly <==> inStock == Some("true")
  {
    Query(
      if TruthyString(category) && category.value != "all" then category else None,
      inStock == Some("true"))
  }

  /** What the query selects: `categories: {$in: [c]}` and `isAvailable: true`. */
  predicate Matches(q: Query, p: Plant) {
    && (q.category.Some? ==> q.category.value in p.categories)
    && (q.availableOnly ==> p.isAvailable)
  }

  /** The plants of `ordered` the query selects, in the same order. */
  function Select(q: Query, ordered: seq<Plant>): (r: seq<Plant>)
    ensures |r| <= |ordered|
    ensures forall p :: p in r <==> p in ordered && Matches(q, p)
  {
    if ordered == [] then []
    else (if Matches(q, ordered[0]) then [ordered[0]] else []) + Select(q, ordered[1..])
  }

  /** Selection keeps the listed order: selecting from two runs is selecting from each, one after the other. */
  lemma {:induction false} SelectConcat(q: Query, a: seq<Plant>, b: seq<Plant>)
    ensures Select(q, a + b) == Select(q, a) + Select(q, b)
  {
    if a != [] {
      assert (a + b)[0] == a[0];
      assert (a + b)[1..] == a[1..] + b;
      SelectConcat(q, a[1..], b);
    } else {
      assert a + b == b;
    }
  }

  /** A single plant is selected exactly when it matches. */
  lemma SelectSingleton(q: Query, p: Plant)
    ensures Select(q, [p]) == (if Matches(q, p) then [p] else [])
  {
    assert [p][1..] == [];
  }

  /** 'all', an empty category and an absent one select the same plants; any `inStock` but 'true' keeps unavailable plants. */
  lemma NoFilterSelectsEverything(inStock: Option<string>, p: Plant)
    ensures Matches(BuildQuery(Some("all"), inStock), p) == Matches(BuildQuery(None, inStock), p)
    ensures Matches(BuildQuery(Some(""), inStock), p) == Matches(BuildQuery(None, inStock), p)
    ensures inStock != Some("true") ==> Matches(BuildQuery(None, inStock), p)
  {
  }

  /** The sort direction: 1 (ascending) exactly when `sortOrder` is 'asc'; the default 'desc' and any other value give -1. */
  function SortDirection(sortOrder: Option<string>): (d: int)
    ensures d == 1 || d == -1
    ensures d == 1 <==> sortOrder == Some("asc")
  {
    if sortOrder.GetOr("desc") == "asc" then 1 else -1
  }

  // ---------------------------------------------------------------------
  // GET /  (list plants): pagination

  const DefaultPage := 1
  const DefaultLimit := 20

  /**
   * `Math.ceil(total / limit)`.  A zero limit divides by zero (Infinity, or
   * NaN when total is 0), which the JSON response carries as null: `None`.
   */
  function PageCount(total: nat, limit: int): (r: Option<int>)
    ensures r.None? <==> limit == 0
    ensures limit > 0 ==> (r.value - 1) * limit < total <= r.value * limit
    ensures limit < 0 ==> r.value * limit <= total < (r.value - 1) * limit
  {
    if limit == 0 then None
    else if limit > 0 then
      var n := (total + limit - 1) / limit;
      assert n * limit <= total + limit - 1 < (n + 1) * limit;
      Some(n)
    else
      var m := -limit;
      var n := total / m;
      assert n * m <= total < (n + 1) * m;
      Some(-n)
  }

  /**
   * `.skip(skip).limit(limit)` on the selected plants: a zero limit means no
   * limit, a negative one returns at most `-limit` plants.
   */
  function Window(s: seq<Plant>, skip: nat, limit: int): (r: seq<Plant>)
    ensures skip >= |s| ==> r == []
    ensures skip < |s| ==> skip + |r| <= |s| && r == s[skip..skip + |r|]
    ensures limit != 0 ==> |r| == Min(|s| - skip, Abs(limit)) || (skip >= |s| && r == [])
    ensures limit == 0 && skip < |s| ==> r == s[skip..]
  {
    if skip >= |s| then []
    else if limit == 0 then s[skip..]
    else s[skip..skip + Min(|s| - skip, Abs(limit))]
  }

  function Abs(x: int): nat {
    if x < 0 then -x else x
  }

  function Min(a: int, b: int): int {
    if a < b then a else b
  }

  datatype ListingParams = ListingParams(
    category: Option<string>,
    inStock: Option<string>,
    page: Option<int>,
    limit: Option<int>,
    sortOrder: Option<string>)

  datatype Pagination = Pagination(current: int, total: Option<int>, count: nat, totalItems: nat)

  datatype Listing = Listing(plants: seq<Plant>, direction: int, pagination: Pagination)

  /**
   * GET /: `ordered` is the catalog in the order the database sort produces.
   * The plants matching the query are counted and one page of them is
   * returned.  A negative skip, `(page - 1) * limit < 0`, is refused by the
   * database, which the route answers with 500.
   */
  function ListPlants(ordered: seq<Plant>, params: ListingParams): (r: Response<Listing>)
    ensures var page := params.page.GetOr(DefaultPage); var limit := params.limit.GetOr(DefaultLimit);
      r.Success? <==> (page - 1) * limit >= 0
    ensures r.Failure? ==> r.status == ServerError
    ensures r.Success? ==> r.status == OK && r.data.direction == SortDirection(params.sortOrder)
    ensures r.Success? ==>
      var q := BuildQuery(params.category, params.inStock);
      && (forall p :: p in r.data.plants ==> p in ordered && Matches(q, p))
      && r.data.pagination.totalItems == |Select(q, ordered)|
      && r.data.pagination.count == |r.data.plants|
      && r.data.pagination.current == params.page.GetOr(DefaultPage)
    ensures r.Success? && params.limit.GetOr(DefaultLimit) != 0 ==>
      |r.data.plants| <= Abs(params.limit.GetOr(DefaultLimit))
    // the page is the skip/limit window of the matches, and the page count is ceil(matches / limit)
    ensures r.Success? ==>
      var page := params.page.GetOr(DefaultPage); var limit := params.limit.GetOr(DefaultLimit);
      var selected := Select(BuildQuery(params.category, params.inStock), ordered);
      && r.data.plants == Window(selected, (page - 1) * limit, limit)
      && r.data.pagination.total == PageCount(|selected|, limit)
  {
    var page := params.page.GetOr(DefaultPage);
    var limit := params.limit.GetOr(DefaultLimit);
    var q := BuildQuery(params.category, params.inStock);
    var selected := Select(q, ordered);
    var skip := (page - 1) * limit;
    if skip < 0 then Failure(ServerError)
    else
      var plants := Window(selected, skip, limit);
      assert forall p :: p in plants ==> p in selected;
      Success(OK, Listing(plants, SortDirection(params.sortOrder),
        Pagination(page, PageCount(|selected|, limit), |plants|, |selected|)))
  }

  /**
   * Paging with a positive limit reaches every selected plant: the plant at
   * position i is on page i / limit + 1, at position i % limit, and that page
   * is within the reported page count.
   */
  lemma {:induction false} EveryMatchIsOnItsPage(ordered: seq<Plant>, params: ListingParams, i: nat)
    requires params.limit.GetOr(DefaultLimit) > 0
    requires i < |Select(BuildQuery(params.category, params.inStock), ordered)|
    requires params.page == Some(i / params.limit.GetOr(DefaultLimit) + 1)
    ensures var r := ListPlants(ordered, params);
      && r.Success?
      && r.data.pagination.total.Some?
      && params.page.value <= r.data.pagination.total.value
      && i % params.limit.GetOr(DefaultLimit) < |r.data.plants|
      && r.data.plants[i % params.limit.GetOr(DefaultLimit)] ==
         Select(BuildQuery(params.category, params.inStock), ordered)[i]
  {
    var limit := params.limit.GetOr(DefaultLimit);
    var selected := Select(BuildQuery(params.category, params.inStock), ordered);
    var skip := (i / limit) * limit;
    DivisionBounds(i, limit);
    assert (params.page.value - 1) * limit == skip;
    var plants := Window(selected, skip, limit);
    assert plants[i % limit] == selected[i];
    PageWithinCount(i, limit, |selected|);
  }

  /** The page start `(i / limit) * limit` is at most i, and i lies within that page. */
  lemma DivisionBounds(i: nat, limit: int)
    requires limit > 0
    ensures 0 <= (i / limit) * limit <= i
    ensures i == (i / limit) * limit + i % limit && 0 <= i % limit < limit
  {
  }

  /** The page holding position i is within `ceil(total / limit)` pages. */
  lemma PageWithinCount(i: nat, limit: int, total: nat)
    requires limit > 0 && i < total
    ensures PageCount(total, limit).Some? && i / limit + 1 <= PageCount(total, limit).value
  {
    var n := PageCount(total, limit).value;
    DivisionBounds(i, limit);
    if i / limit + 1 > n {
      MulMonotonic(n, i / limit, limit);
      assert false;
    }
  }

  lemma MulMonotonic(a: int, b: int, c: int)
    requires a <= b && c > 0
    ensures a * c <= b * c
  {
  }
}
