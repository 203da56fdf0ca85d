/**
 * The search overlay: a blank query clears the results; otherwise the name
 * matches and the category matches are concatenated and de-duplicated by
 * product id, keeping each product's first occurrence.
 */
module SearchModal {
  import opened Options
  import opened Text
  import opened Dedup

  datatype ProductHit = ProductHit(id: string, name: string, basePrice: int, category: string, imageUrls: seq<string>)

  function HitId(p: ProductHit): string {
    p.id
  }

  /** The `seen`-set filter over the combined list. */
  method UniqueById(combined: seq<ProductHit>) returns (unique: seq<ProductHit>)
    ensures unique == FirstByKey(combined, HitId, {})
  {
    var seen: set<string> := {};
    unique := [];
    var i := 0;
    while i < |combined|
      invariant 0 <= i <= |combined|
      invariant seen == {} + KeysOf(combined[..i], HitId)
      invariant unique + FirstByKey(combined[i..], HitId, seen) == FirstByKey(combined, HitId, {})
    {
      var p := combined[i];
      DedupLoopStep(combined, i, HitId, {}, seen, unique, FirstByKey(combined, HitId, {}));
      if p.id !in seen {
        seen := seen + {p.id};
        unique := unique + [p];
      }
      i := i + 1;
    }
    assert combined[..i] == combined;
  }

  /** The results of a non-blank search: name matches first, then category matches, each id once. */
  function MergedResults(nameMatches: Option<seq<ProductHit>>, catMatches: Option<seq<ProductHit>>): (r: seq<ProductHit>)
    ensures |r| <= |nameMatches.GetOr([])| + |catMatches.GetOr([])|
    ensures forall p | p in r :: p in nameMatches.GetOr([]) || p in catMatches.GetOr([])
  {
    FirstByKey(nameMatches.GetOr([]) + catMatches.GetOr([]), HitId, {})
  }

  /**
   * The merged results are the de-duplicated name matches followed by the
   * category matches whose id is not among the name matches.
   */
  lemma NameMatchesFirst(nameMatches: seq<ProductHit>, catMatches: seq<ProductHit>)
    ensures MergedResults(Some(nameMatches), Some(catMatches)) ==
      FirstByKey(nameMatches, HitId, {}) + FirstByKey(catMatches, HitId, KeysOf(nameMatches, HitId))
  {
    FirstByKeyAppend(nameMatches, catMatches, HitId, {});
    assert {} + KeysOf(nameMatches, HitId) == KeysOf(nameMatches, HitId);
  }

  /** When the name matches already have distinct ids, they are kept whole and in order. */
  lemma DistinctNameMatchesKept(nameMatches: seq<ProductHit>, catMatches: seq<ProductHit>)
    requires DistinctKeys(nameMatches, HitId)
    ensures MergedResults(Some(nameMatches), Some(catMatches)) ==
      nameMatches + FirstByKey(catMatches, HitId, KeysOf(nameMatches, HitId))
  {
    NameMatchesFirst(nameMatches, catMatches);
    FirstByKeyOfDistinct(nameMatches, HitId, {});
  }

  /**
   * The ids of the results are pairwise distinct, and they are exactly the ids
   * of the two lists together; every result comes from one of the lists.
   */
  lemma MergedIdsDistinctAndComplete(nameMatches: seq<ProductHit>, catMatches: seq<ProductHit>)
    ensures DistinctKeys(MergedResults(Some(nameMatches), Some(catMatches)), HitId)
    ensures KeysOf(MergedResults(Some(nameMatches), Some(catMatches)), HitId) ==
      KeysOf(nameMatches, HitId) + KeysOf(catMatches, HitId)
    ensures forall p | p in MergedResults(Some(nameMatches), Some(catMatches)) :: p in nameMatches || p in catMatches
  {
    var combined := nameMatches + catMatches;
    FirstByKeyDistinct(combined, HitId, {});
    FirstByKeyKeys(combined, HitId, {});
    KeysOfAppend(nameMatches, catMatches, HitId);
  }

  /** Each result is the first product in the combined list with its id, in that list's order. */
  lemma MergedKeepsFirstOccurrences(nameMatches: seq<ProductHit>, catMatches: seq<ProductHit>)
    ensures FirstOccurrencesInOrder(MergedResults(Some(nameMatches), Some(catMatches)), nameMatches + catMatches, HitId)
  {
    FirstByKeyFirstOccurrences(nameMatches + catMatches, HitId, {});
  }

  /** A failed lookup contributes no rows, as `data ?? []` does. */
  lemma MissingMatchesContributeNothing(nameMatches: Option<seq<ProductHit>>, catMatches: Option<seq<ProductHit>>)
    ensures nameMatches.None? ==> MergedResults(nameMatches, catMatches) == MergedResults(Some([]), catMatches)
    ensures catMatches.None? ==> MergedResults(nameMatches, catMatches) == MergedResults(nameMatches, Some([]))
    ensures nameMatches.None? && catMatches.None? ==> MergedResults(nameMatches, catMatches) == []
  {
  }

  /**
   * The overlay's state. `search` runs in two steps: a synchronous start,
   * then, once both lookups answer, a finish that writes the results. Other
   * searches may start in between, since the debounce cancels only timers
   * that have not fired yet.
   */
  class SearchModalState {
    var query: string
    var results: seq<ProductHit>
    var loading: bool
    var searched: bool
    /** How many searches have started, and whether the latest one awaits its lookups. */
    var started: nat
    var latestPending: bool

    constructor ()
      ensures query == [] && results == [] && !loading && !searched
      ensures started == 0 && !latestPending
    {
      query := [];
      results := [];
      loading := false;
      searched := false;
      started := 0;
      latestPending := false;
    }

    /** Opening the overlay starts from a clean slate. */
    method Open()
      modifies this`query, this`results, this`searched
      ensures query == [] && results == [] && !searched
    {
      query := [];
      results := [];
      searched := false;
    }

    /** The input's `onChange`. */
    method SetQuery(q: string)
      modifies this`query
      ensures query == q
    {
      query := q;
    }

    /**
     * The start of `search(q)`. A blank query clears the results and the
     * searched mark and leaves `loading` alone; any other query turns on
     * `loading` and `searched` and leaves its lookups pending, under a ticket.
     */
    method StartSearch(q: string) returns (ticket: Option<nat>)
      modifies this`results, this`loading, this`searched, this`started, this`latestPending
      ensures started == old(started) + 1
      ensures latestPending <==> Trim(q) != []
      ensures Trim(q) == [] ==> ticket.None? && results == [] && !searched && loading == old(loading)
      ensures Trim(q) != [] ==> ticket == Some(started) && results == old(results) && searched && loading
    {
      started := started + 1;
      latestPending := Trim(q) != [];
      if Trim(q) == [] {
        results := [];
        searched := false;
        return None;
      }
      loading := true;
      searched := true;
      ticket := Some(started);
    }

    /** The end of `search`, when its lookups answer: the merged results are written, however stale. */
    method FinishSearch(nameMatches: Option<seq<ProductHit>>, catMatches: Option<seq<ProductHit>>)
      modifies this`results, this`loading
      ensures results == MergedResults(nameMatches, catMatches) && !loading
    {
      var combined := nameMatches.GetOr([]) + catMatches.GetOr([]);
      var unique := UniqueById(combined);
      results := unique;
      loading := false;
    }

    /**
     * The end of a search that only the latest search may complete: a
     * superseded one leaves the results alone and keeps `loading` on only
     * while the latest search is still pending.
     */
    method FinishSearchIfLatest(ticket: nat, nameMatches: Option<seq<ProductHit>>, catMatches: Option<seq<ProductHit>>)
      modifies this`results, this`loading, this`latestPending
      ensures ticket == started ==> results == MergedResults(nameMatches, catMatches) && !loading && !latestPending
      ensures ticket != started ==>
        results == old(results) && loading == old(latestPending) && latestPending == old(latestPending)
    {
      if ticket == started {
        FinishSearch(nameMatches, catMatches);
        latestPending := false;
      } else {
        loading := latestPending;
      }
    }

    /** `search(q)` when no other search overlaps it. */
    method Search(q: string, nameMatches: Option<seq<ProductHit>>, catMatches: Option<seq<ProductHit>>)
      modifies this`results, this`loading, this`searched, this`started, this`latestPending
      ensures started == old(started) + 1
      ensures Trim(q) == [] ==> results == [] && !searched && loading == old(loading)
      ensures Trim(q) != [] ==> results == MergedResults(nameMatches, catMatches) && searched && !loading
    {
      var ticket := StartSearch(q);
      if ticket.Some? {
        FinishSearch(nameMatches, catMatches);
      }
    }
  }

  /**
   * A search for "ring" is pending when the box is cleared; when its lookups
   * then answer, the ring results are shown under an empty box, with the
   * overlay marked as not searched.
   */
  method StaleResultsAfterClear(hit: ProductHit) returns (shown: seq<ProductHit>, wasSearched: bool)
    ensures shown == [hit] && !wasSearched
  {
    var overlay := new SearchModalState();
    var ring := overlay.StartSearch("ring");
    var blank := overlay.StartSearch("");
    overlay.FinishSearch(Some([hit]), None);
    assert [hit] + [] == [hit];
    shown, wasSearched := overlay.results, overlay.searched;
  }

  /** The same sequence with the latest-only finish: the cleared box stays empty and idle. */
  method CurrentOnlyAfterClear(hit: ProductHit) returns (shown: seq<ProductHit>, wasSearched: bool, isLoading: bool)
    ensures shown == [] && !wasSearched && !isLoading
  {
    var overlay := new SearchModalState();
    var ring := overlay.StartSearch("ring");
    var blank := overlay.StartSearch("");
    overlay.FinishSearchIfLatest(ring.value, Some([hit]), None);
    shown, wasSearched, isLoading := overlay.results, overlay.searched, overlay.loading;
  }
}
