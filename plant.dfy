/**
 * The plant record (models/Plant.js): its fields, the schema's defaults and
 * setters, and the constraints a plant must meet to be saved.  The cart and
 * wishlist see the stored plants only through a read-only catalog.
 */
module PlantModel {
  import opened Wrappers

  /** A plant reference in canonical ObjectId string form. */
  type PlantId = string

  /** The read-only plant catalog: plant id to stored plant. */
  type Catalog = map<PlantId, Plant>

  const Categories: set<string> :=
    {"Indoor", "Outdoor", "Succulent", "Air Purifying", "Home Decor", "Flowering", "Foliage", "Medicinal"}
  const LightRequirements: set<string> := {"Low", "Medium", "High"}

  const MaxNameLength := 100
  const MaxDescriptionLength := 500
  const MinPopularity := 0
  const MaxPopularity := 100

  const DefaultIsAvailable := true
  const DefaultImage := "https://via.placeholder.com/300x300?text=Plant"
  const DefaultLightRequirement := "Medium"
  const DefaultPopularity := 0

  datatype Plant = Plant(
    name: string,
    price: int,
    categories: seq<string>,
    isAvailable: bool,
    description: Option<string>,
    scientificName: Option<string>,
    image: string,
    lightRequirement: string,
    wateringFrequency: Option<string>,
    potSize: Option<string>,
    careInstructions: Option<string>,
    popularity: int)

  /** The fields handed to the Plant model, before defaults and setters; absent fields are `None`. */
  datatype PlantDoc = PlantDoc(
    name: Option<string>,
    price: Option<int>,
    categories: seq<string>,
    isAvailable: Option<bool>,
    description: Option<string>,
    scientificName: Option<string>,
    image: Option<string>,
    lightRequirement: Option<string>,
    wateringFrequency: Option<string>,
    potSize: Option<string>,
    careInstructions: Option<string>,
    popularity: Option<int>)

  // ---------------------------------------------------------------------
  // String trimming as done by the schema's `trim` setter and String.prototype.trim

  /** The characters JavaScript's `trim` removes: WhiteSpace and LineTerminator code points. */
  predicate IsJsWhitespace(c: char) {
    var n := c as int;
    n == 0x09 || n == 0x0A || n == 0x0B || n == 0x0C || n == 0x0D || n == 0x20 ||
    n == 0xA0 || n == 0x1680 || (0x2000 <= n <= 0x200A) || n == 0x2028 || n == 0x2029 ||
    n == 0x202F || n == 0x205F || n == 0x3000 || n == 0xFEFF
  }

  /** Neither end of `s` is whitespace. */
  predicate IsTrimmed(s: string) {
    s == [] || (!IsJsWhitespace(s[0]) && !IsJsWhitespace(s[|s| - 1]))
  }

  /** Every character of `s` is whitespace. */
  predicate AllWhitespace(s: string) {
    forall i :: 0 <= i < |s| ==> IsJsWhitespace(s[i])
  }

  function TrimStart(s: string): (r: string)
    ensures |r| <= |s| && r == s[|s| - |r|..]
    ensures AllWhitespace(s[..|s| - |r|])
    ensures r == [] || !IsJsWhitespace(r[0])
  {
    if s == [] || !IsJsWhitespace(s[0]) then s
    else
      TrimStart(s[1..])
  }

  function TrimEnd(s: string): (r: string)
    ensures |r| <= |s| && r == s[..|r|]
    ensures AllWhitespace(s[|r|..])
    ensures r == [] || !IsJsWhitespace(r[|r| - 1])
  {
    if s == [] || !IsJsWhitespace(s[|s| - 1]) then s
    else
      var r := TrimEnd(s[..|s| - 1]);
      assert forall i :: 0 <= i < |s| - 1 - |r| ==> s[|r|..][i] == s[..|s| - 1][|r|..][i];
      r
  }

  /** `s.trim()`: the longest infix of `s` with no whitespace at either end. */
  function Trim(s: string): (r: string)
    ensures IsTrimmed(r)
    ensures |r| <= |s|
    ensures IsTrimmed(s) ==> r == s
  {
    var t := TrimStart(s);
    var r := TrimEnd(t);
    assert r != [] ==> r[0] == t[0];
    r
  }

  /** `trim` removes only whitespace, and only at the two ends: the result is an infix with whitespace on both sides of it. */
  lemma TrimRemovesOnlyEnds(s: string)
    ensures exists a, b :: 0 <= a <= b <= |s| && Trim(s) == s[a..b] && AllWhitespace(s[..a]) && AllWhitespace(s[b..])
  {
    var t := TrimStart(s);
    var r := TrimEnd(t);
    var a, b := |s| - |t|, |s| - |t| + |r|;
    assert s[b..] == t[|r|..];
    assert Trim(s) == s[a..b];
  }

  /** Trimming twice is trimming once: the schema's `trim` setter after the route's `trim()` changes nothing. */
  lemma TrimIdempotent(s: string)
    ensures Trim(Trim(s)) == Trim(s)
  {
  }

  // ---------------------------------------------------------------------
  // Schema constraints

  /** What the schema demands of a stored plant (required, min/max, enum and maxlength rules, trimmed fields). */
  predicate PlantValid(p: Plant) {
    && p.name != "" && |p.name| <= MaxNameLength && IsTrimmed(p.name)
    && p.price >= 0
    && (forall i :: 0 <= i < |p.categories| ==> p.categories[i] in Categories)
    && (p.description.Some? ==> |p.description.value| <= MaxDescriptionLength)
    && (p.scientificName.Some? ==> IsTrimmed(p.scientificName.value))
    && p.lightRequirement in LightRequirements
    && MinPopularity <= p.popularity <= MaxPopularity
  }

  /** What a document must satisfy for validation on save to pass, stated on the document before the setters run. */
  predicate DocMeetsSchema(d: PlantDoc) {
    && d.name.Some? && d.price.Some?
    && Trim(d.name.value) != "" && |Trim(d.name.value)| <= MaxNameLength && d.price.value >= 0
    && (forall i :: 0 <= i < |d.categories| ==> d.categories[i] in Categories)
    && (d.description.Some? ==> |d.description.value| <= MaxDescriptionLength)
    && (d.lightRequirement.Some? ==> d.lightRequirement.value in LightRequirements)
    && (d.popularity.Some? ==> MinPopularity <= d.popularity.value <= MaxPopularity)
  }

  /**
   * `new Plant(doc)` followed by validation on save: the `trim` setters and the
   * defaults are applied, then the constraints are checked.  `None` is a
   * validation error.
   */
  function NewPlant(d: PlantDoc): (r: Option<Plant>)
    // an accepted plant meets every schema constraint
    ensures r.Some? ==> PlantValid(r.value)
    // required fields
    ensures d.name.None? || d.price.None? ==> r.None?
    ensures d.name.Some? && Trim(d.name.value) == "" ==> r.None?
    // the rejected values
    ensures d.name.Some? && |Trim(d.name.value)| > MaxNameLength ==> r.None?
    ensures d.price.Some? && d.price.value < 0 ==> r.None?
    ensures (exists i :: 0 <= i < |d.categories| && d.categories[i] !in Categories) ==> r.None?
    ensures d.description.Some? && |d.description.value| > MaxDescriptionLength ==> r.None?
    ensures d.lightRequirement.Some? && d.lightRequirement.value !in LightRequirements ==> r.None?
    ensures d.popularity.Some? && !(MinPopularity <= d.popularity.value <= MaxPopularity) ==> r.None?
    // the setters and the defaults
    ensures r.Some? ==> r.value.name == Trim(d.name.value) && r.value.price == d.price.value
    ensures r.Some? ==> r.value.categories == d.categories
    ensures r.Some? ==> r.value.isAvailable == d.isAvailable.GetOr(DefaultIsAvailable)
    ensures r.Some? ==> r.value.image == d.image.GetOr(DefaultImage)
    ensures r.Some? ==> r.value.lightRequirement == d.lightRequirement.GetOr(DefaultLightRequirement)
    ensures r.Some? ==> r.value.popularity == d.popularity.GetOr(DefaultPopularity)
    ensures r.Some? && d.scientificName.Some? ==> r.value.scientificName == Some(Trim(d.scientificName.value))
    ensures r.Some? && d.scientificName.None? ==> r.value.scientificName.None?
    // the fields without setters or defaults are stored as given
    ensures r.Some? ==> r.value.description == d.description && r.value.wateringFrequency == d.wateringFrequency
    ensures r.Some? ==> r.value.potSize == d.potSize && r.value.careInstructions == d.careInstructions
    // every document meeting the constraints is accepted
    ensures DocMeetsSchema(d) ==> r.Some?
  {
    if d.name.None? || d.price.None? then None
    else
      var p := Plant(
        Trim(d.name.value),
        d.price.value,
        d.categories,
        d.isAvailable.GetOr(DefaultIsAvailable),
        d.description,
        if d.scientificName.Some? then Some(Trim(d.scientificName.value)) else None,
        d.image.GetOr(DefaultImage),
        d.lightRequirement.GetOr(DefaultLightRequirement),
        d.wateringFrequency,
        d.potSize,
        d.careInstructions,
        d.popularity.GetOr(DefaultPopularity));
      if PlantValid(p) then Some(p) else None
  }

  // ---------------------------------------------------------------------
  // What the cart and wishlist reads show of a plant

  /** The plant fields a populated cart or wishlist entry carries. */
  datatype PlantSummary = PlantSummary(
    id: PlantId,
    name: string,
    price: int,
    categories: seq<string>,
    isAvailable: bool,
    image: string,
    scientificName: Option<string>,
    lightRequirement: string)

  /** The projection `name price categories isAvailable image scientificName lightRequirement` (plus the id). */
  function Summarize(id: PlantId, p: Plant): PlantSummary {
    PlantSummary(id, p.name, p.price, p.categories, p.isAvailable, p.image, p.scientificName, p.lightRequirement)
  }

  /** The summary shows a plant of the catalog with its current fields. */
  predicate IsCurrent(catalog: Catalog, s: PlantSummary) {
    s.id in catalog && s == Summarize(s.id, catalog[s.id])
  }
}
