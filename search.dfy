/**
 * The shared product search: the query clauses chosen from the text and the
 * filters, and the material post-filter that appends products whose variant
 * material contains the query, each id at most once, after the base rows.
 */
module Search {
  import opened Options
  import opened Text
  import opened Dedup

  datatype ImageRow = ImageRow(url: string, altText: Option<string>)
  datatype VariantRow = VariantRow(material: Option<string>, size: Option<string>)

  datatype SearchProduct = SearchProduct(
    id: string,
    name: string,
    slug: string,
    basePrice: int,
    category: string,
    gender: string,
    images: seq<ImageRow>,
    variants: Option<seq<VariantRow>>)

  function ProductId(p: SearchProduct): string {
    p.id
  }

  /** Optional filters; an absent or empty string, and an absent or zero price, mean "no filter". */
  datatype SearchFilters = SearchFilters(
    category: Option<string>,
    gender: Option<string>,
    priceMax: Option<int>,
    sort: Option<string>)

  datatype SortColumn = BasePrice | CreatedAt | IsFeatured
  datatype Ordering = Ordering(column: SortColumn, ascending: bool)

  /**
   * The query sent for the base rows: active products only, at most `limit`
   * rows, optionally a name-or-category match on `textMatch`, exact category
   * and gender, a price cap, and one ordering.
   */
  datatype QueryClauses = QueryClauses(
    activeOnly: bool,
    limit: int,
    textMatch: Option<string>,
    category: Option<string>,
    gender: Option<string>,
    priceCap: Option<int>,
    order: Ordering)

  /** A price filter at or above this is the slider's "any price". */
  const PriceFilterCeiling := 200000

  /** The ordering for a `sort` value; anything unrecognised means featured first. */
  function SortFor(sort: Option<string>): (o: Ordering)
    ensures o.column == BasePrice <==> sort == Some("price_asc") || sort == Some("price_desc")
    ensures o.column == CreatedAt <==> sort == Some("newest")
    ensures o.ascending <==> sort == Some("price_asc")
  {
    if sort == Some("price_asc") then Ordering(BasePrice, true)
    else if sort == Some("price_desc") then Ordering(BasePrice, false)
    else if sort == Some("newest") then Ordering(CreatedAt, false)
    else Ordering(IsFeatured, false)
  }

  /** A string filter that is set and non-empty, lowercased. */
  function LoweredFilter(f: Option<string>): (r: Option<string>)
    ensures r.Some? <==> f.Some? && f.value != []
    ensures r.Some? ==> r.value == ToLower(f.value)
  {
    if f.Some? && f.value != [] then Some(ToLower(f.value)) else None
  }

  /** The clauses `searchProducts` adds to its base query. */
  function BuildClauses(query: string, filters: SearchFilters, limit: int): (c: QueryClauses)
    ensures c.activeOnly && c.limit == limit
    ensures c.textMatch.Some? <==> exists i | 0 <= i < |query| :: !IsSpace(query[i])
    ensures c.textMatch.Some? ==> c.textMatch.value == Trim(query)
    ensures c.category == LoweredFilter(filters.category)
    ensures c.gender == LoweredFilter(filters.gender)
    ensures c.priceCap.Some? <==>
      filters.priceMax.Some? && filters.priceMax.value != 0 && filters.priceMax.value < PriceFilterCeiling
    ensures c.priceCap.Some? ==> c.priceCap.value == filters.priceMax.value
    ensures c.order == SortFor(filters.sort)
  {
    var trimmed := Trim(query);
    QueryClauses(
      activeOnly := true,
      limit := limit,
      textMatch := if trimmed != [] then Some(trimmed) else None,
      category := LoweredFilter(filters.category),
      gender := LoweredFilter(filters.gender),
      priceCap :=
        if filters.priceMax.Some? && filters.priceMax.value != 0 && filters.priceMax.value < PriceFilterCeiling
        then filters.priceMax else None,
      order := SortFor(filters.sort))
  }

  /** Filter values reach the query lowercased, so filtering by "Rings" or "rings" sends the same clause. */
  lemma FiltersCaseInsensitive(query: string, filters: SearchFilters, category: string, gender: string, limit: int)
    requires filters.category == Some(category) && filters.gender == Some(gender)
    ensures BuildClauses(query, filters, limit) ==
      BuildClauses(query, filters.(category := Some(ToLower(category)), gender := Some(ToLower(gender))), limit)
  {
    ToLowerIdempotent(category);
    ToLowerIdempotent(gender);
  }

  /** What the base lookup answered: an error, or rows (possibly none). */
  datatype QueryResponse = QueryResponse(data: Option<seq<SearchProduct>>, error: Option<string>)

  /** Some variant's lowercased material contains `lowerQ`. */
  predicate MatchesMaterial(p: SearchProduct, lowerQ: string)
    ensures MatchesMaterial(p, lowerQ) ==> p.variants.Some? && p.variants.value != []
    ensures MatchesMaterial(p, lowerQ) ==>
      exists v | v in p.variants.value :: v.material.Some? && |lowerQ| <= |v.material.value|
  {
    p.variants.Some? &&
    exists v | v in p.variants.value :: v.material.Some? && Contains(ToLower(v.material.value), lowerQ)
  }

  /** The material lookup's rows that match, in order. */
  function MaterialFiltered(rows: seq<SearchProduct>, lowerQ: string): (r: seq<SearchProduct>)
    ensures forall p | p in r :: p in rows && MatchesMaterial(p, lowerQ)
  {
    if rows == [] then []
    else (if MatchesMaterial(rows[0], lowerQ) then [rows[0]] else []) + MaterialFiltered(rows[1..], lowerQ)
  }

  /** Every matching row is kept. */
  lemma {:induction false} MaterialFilteredComplete(rows: seq<SearchProduct>, lowerQ: string, p: SearchProduct)
    requires p in rows && MatchesMaterial(p, lowerQ)
    ensures p in MaterialFiltered(rows, lowerQ)
  {
    if rows[0] != p {
      MaterialFilteredComplete(rows[1..], lowerQ, p);
    }
  }

  /** The `existingIds` loop: append each candidate whose id is not yet present. */
  method AppendNewById(results: seq<SearchProduct>, candidates: seq<SearchProduct>) returns (merged: seq<SearchProduct>)
    ensures merged == results + FirstByKey(candidates, ProductId, KeysOf(results, ProductId))
  {
    var existingIds := KeysOf(results, ProductId);
    merged := results;
    assert candidates[..0] == [];
    for i := 0 to |candidates|
      invariant existingIds == KeysOf(results, ProductId) + KeysOf(candidates[..i], ProductId)
      invariant merged + FirstByKey(candidates[i..], ProductId, existingIds) ==
        results + FirstByKey(candidates, ProductId, KeysOf(results, ProductId))
    {
      var p := candidates[i];
      DedupLoopStep(candidates, i, ProductId, KeysOf(results, ProductId), existingIds, merged,
        results + FirstByKey(candidates, ProductId, KeysOf(results, ProductId)));
      if p.id !in existingIds {
        merged := merged + [p];
        existingIds := existingIds + {p.id};
      }
    }
    assert candidates[|candidates|..] == [];
  }

  /** The rows `searchProducts` returns, given what its two lookups answered. */
  function SearchResults(query: string, base: QueryResponse, materialRows: Option<seq<SearchProduct>>): (r: seq<SearchProduct>)
    ensures base.error.None? ==> |base.data.GetOr([])| <= |r|
    ensures forall p | p in r :: p in base.data.GetOr([]) || (materialRows.Some? && p in materialRows.value)
  {
    if base.error.Some? then []
    else
      var rows := base.data.GetOr([]);
      var trimmed := Trim(query);
      if trimmed == [] || materialRows.None? then rows
      else rows + FirstByKey(MaterialFiltered(materialRows.value, ToLower(trimmed)), ProductId, KeysOf(rows, ProductId))
  }

  /**
   * `searchProducts`: the clauses of the base query it sends, and the rows it
   * returns, given what the base lookup and the material lookup answered.
   */
  method SearchProducts(query: string, filters: SearchFilters, limit: int,
                        base: QueryResponse, materialRows: Option<seq<SearchProduct>>)
    returns (clauses: QueryClauses, results: seq<SearchProduct>)
    ensures clauses == BuildClauses(query, filters, limit)
    ensures results == SearchResults(query, base, materialRows)
  {
    var trimmed := Trim(query);
    clauses := BuildClauses(query, filters, limit);
    if base.error.Some? {
      return clauses, [];
    }
    results := base.data.GetOr([]);
    if trimmed != [] {
      var lowerQ := ToLower(trimmed);
      if materialRows.Some? {
        var matFiltered := MaterialFiltered(materialRows.value, lowerQ);
        results := AppendNewById(results, matFiltered);
      }
    }
  }

  /** A lookup error yields no rows, whatever else was answered. */
  lemma ErrorYieldsNothing(query: string, base: QueryResponse, materialRows: Option<seq<SearchProduct>>)
    requires base.error.Some?
    ensures SearchResults(query, base, materialRows) == []
  {
  }

  /**
   * Without an error the base rows come first, unchanged; with a blank query
   * (or no material rows) they are the whole answer.
   */
  lemma BaseRowsArePrefix(query: string, base: QueryResponse, materialRows: Option<seq<SearchProduct>>)
    requires base.error.None?
    ensures var rows := base.data.GetOr([]); var r := SearchResults(query, base, materialRows);
      |rows| <= |r| && r[..|rows|] == rows
    ensures Trim(query) == [] || materialRows.None? ==> SearchResults(query, base, materialRows) == base.data.GetOr([])
  {
  }

  /**
   * The appended rows come from the material lookup, each has a variant whose
   * material contains the lowercased trimmed query, none shares an id with a
   * base row or with another appended row, and every matching id not among
   * the base rows is appended.
   */
  lemma AppendedRowsSpec(query: string, base: QueryResponse, materialRows: seq<SearchProduct>)
    requires base.error.None? && Trim(query) != []
    ensures var rows := base.data.GetOr([]);
      var added := SearchResults(query, base, Some(materialRows))[|rows|..];
      && (forall p | p in added :: p in materialRows && MatchesMaterial(p, ToLower(Trim(query))))
      && (forall p | p in added :: p.id !in KeysOf(rows, ProductId))
      && DistinctKeys(added, ProductId)
      && KeysOf(added, ProductId) ==
           KeysOf(MaterialFiltered(materialRows, ToLower(Trim(query))), ProductId) - KeysOf(rows, ProductId)
  {
    var rows := base.data.GetOr([]);
    var matched := MaterialFiltered(materialRows, ToLower(Trim(query)));
    var added := FirstByKey(matched, ProductId, KeysOf(rows, ProductId));
    assert SearchResults(query, base, Some(materialRows))[|rows|..] == added;
    FirstByKeyDistinct(matched, ProductId, KeysOf(rows, ProductId));
    FirstByKeyKeys(matched, ProductId, KeysOf(rows, ProductId));
    forall p | p in added ensures p.id !in KeysOf(rows, ProductId) {
      assert ProductId(p) == p.id;
    }
  }

  /** A product whose material matches and whose id is new is appended. */
  lemma MatchingMaterialAppended(query: string, base: QueryResponse, materialRows: seq<SearchProduct>, p: SearchProduct)
    requires base.error.None? && Trim(query) != []
    requires p in materialRows && MatchesMaterial(p, ToLower(Trim(query)))
    requires p.id !in KeysOf(base.data.GetOr([]), ProductId)
    ensures p.id in KeysOf(SearchResults(query, base, Some(materialRows)), ProductId)
  {
    var rows := base.data.GetOr([]);
    var matched := MaterialFiltered(materialRows, ToLower(Trim(query)));
    var added := FirstByKey(matched, ProductId, KeysOf(rows, ProductId));
    MaterialFilteredComplete(materialRows, ToLower(Trim(query)), p);
    var i :| 0 <= i < |matched| && matched[i] == p;
    assert ProductId(matched[i]) == p.id;
    FirstByKeyKeys(matched, ProductId, KeysOf(rows, ProductId));
    KeysOfAppend(rows, added, ProductId);
  }
}
