/** What a merge does to each field of the canonical record (`merge_exact_candidate`, app/prospecting/dedup.py). */
module MergeLaws {
  import opened Contracts
  import opened StoreSpec
  import opened Compaction
  import opened Dedup
  import opened Merging
  import Identity

  /** A value that is present is never overwritten, and a missing one is taken from the other record. */
  predicate FillsGap(canonical: string, incoming: string, merged: string) {
    (canonical != "" ==> merged == canonical) && (canonical == "" ==> merged == incoming)
  }

  /** The canonical record keeps its identity and its business fields; only gaps are filled. */
  lemma CanonicalFieldsStay(n: Normal, d: Reading, a: Profile, b: Profile)
    requires MergeOf(n, d, a, b).Some?
    ensures var r := MergeOf(n, d, a, b).value;
      && r.instance == a.instance && r.id == a.id && r.name == a.name && r.location == a.location
      && FillsGap(a.rut, b.rut, r.rut) && FillsGap(a.phone, b.phone, r.phone) && FillsGap(a.email, b.email, r.email)
      && FillsGap(a.website, b.website, r.website) && FillsGap(a.description, b.description, r.description)
      && FillsGap(a.category, b.category, r.category)
  {
  }

  /** A score that the incoming record has is never lost to a lower one: the merged score is the greatest of those present, and
      at least zero. */
  predicate TakesBest(canonical: Option<real>, incoming: Option<real>, merged: Option<real>) {
    && (incoming.None? ==> merged == canonical)
    && (incoming.Some? ==>
          && merged.Some? && merged.value >= incoming.value && (canonical.Some? ==> merged.value >= canonical.value)
          && (merged == incoming || merged == canonical || (canonical.None? && merged.value == 0.0 >= incoming.value)))
  }

  /** Ranks count from one, and zero stands for an unknown one: the merged rank is the least of those known. */
  predicate TakesLeast(canonical: nat, incoming: nat, merged: nat) {
    && (merged == canonical || merged == incoming) && (merged == 0 <==> canonical == 0 && incoming == 0)
    && (canonical > 0 ==> merged <= canonical) && (incoming > 0 ==> merged <= incoming)
  }

  lemma SignalsCombine(n: Normal, d: Reading, a: Profile, b: Profile)
    requires MergeOf(n, d, a, b).Some?
    ensures var r := MergeOf(n, d, a, b).value;
      && TakesBest(a.score, b.score, r.score) && TakesBest(a.marketScore, b.marketScore, r.marketScore)
      && r.queryHits == a.queryHits + b.queryHits && TakesLeast(a.bestRank, b.bestRank, r.bestRank)
  {
  }

  /** Every provider of either record is kept, and where both have an id the incoming one is. */
  lemma ProvidersAreKept(n: Normal, d: Reading, a: Profile, b: Profile)
    requires MergeOf(n, d, a, b).Some?
    ensures var r := MergeOf(n, d, a, b).value;
      && (forall p :: p in r.providers <==> p in a.providers || p in b.providers)
      && (forall p :: p in b.providers ==> r.providers[p] == b.providers[p])
      && forall p :: p in a.providers && p !in b.providers ==> r.providers[p] == a.providers[p]
  {
  }

  // ---------- locations ----------

  /** The last location of the list with its key. */
  ghost predicate LastWithKey(n: Normal, ls: seq<Location>, l: Location) {
    exists i :: 0 <= i < |ls| && ls[i] == l && forall j :: i < j < |ls| ==> KeyOfPlace(n, ls[j]) != KeyOfPlace(n, l)
  }

  lemma {:induction false} HeldIsLast(n: Normal, ls: seq<Location>, k: PlaceKey)
    requires k in PlacesOf(n, ls).held
    ensures LastWithKey(n, ls, PlacesOf(n, ls).held[k])
  {
    hide KeyOfPlace;
    PlacesAre(n, ls);
    var most, last := ls[..|ls| - 1], ls[|ls| - 1];
    if KeyOfPlace(n, last) == k {
      assert ls[|ls| - 1] == last;
    } else {
      HeldIsLast(n, most, k);
      PlacesAre(n, most);
      var l := PlacesOf(n, most).held[k];
      var i :| 0 <= i < |most| && most[i] == l && forall j :: i < j < |most| ==> KeyOfPlace(n, most[j]) != KeyOfPlace(n, l);
      forall j | i < j < |ls| ensures KeyOfPlace(n, ls[j]) != KeyOfPlace(n, l) { if j < |most| { assert ls[j] == most[j]; } }
      assert ls[i] == l;
    }
  }

  /** Of two locations with one key the later is kept, so the incoming record's before the canonical one's. */
  lemma LaterPlaceIsKept(n: Normal, d: Reading, a: Profile, b: Profile)
    requires MergeOf(n, d, a, b).Some?
    ensures var r := MergeOf(n, d, a, b).value;
      && (forall i :: 0 <= i < |r.locations| ==> LastWithKey(n, a.locations + b.locations, r.locations[i]))
      && forall i, l :: 0 <= i < |r.locations| && l in b.locations && KeyOfPlace(n, l) == KeyOfPlace(n, r.locations[i]) ==>
                          LastWithKey(n, b.locations, r.locations[i])
  {
    hide KeyOfPlace, LastWithKey, Mergeable;
    var ls := a.locations + b.locations;
    PlacesAre(n, ls);
    var p := PlacesOf(n, ls);
    forall i | 0 <= i < |p.order| ensures LastWithKey(n, ls, p.held[p.order[i]]) { HeldIsLast(n, ls, p.order[i]); }
    forall i, l | 0 <= i < |p.order| && l in b.locations && KeyOfPlace(n, l) == KeyOfPlace(n, p.held[p.order[i]])
      ensures LastWithKey(n, b.locations, p.held[p.order[i]])
    {
      LastIsIncoming(n, a.locations, b.locations, p.held[p.order[i]], l);
    }
  }

  lemma LastIsIncoming(n: Normal, a: seq<Location>, b: seq<Location>, kept: Location, l: Location)
    requires LastWithKey(n, a + b, kept) && l in b && KeyOfPlace(n, l) == KeyOfPlace(n, kept)
    ensures LastWithKey(n, b, kept)
  {
    hide KeyOfPlace;
    var ls := a + b;
    var i :| 0 <= i < |ls| && ls[i] == kept && forall j :: i < j < |ls| ==> KeyOfPlace(n, ls[j]) != KeyOfPlace(n, kept);
    var m :| 0 <= m < |b| && b[m] == l;
    assert ls[|a| + m] == l;
    assert b[i - |a|] == kept;
    forall j | i - |a| < j < |b| ensures KeyOfPlace(n, b[j]) != KeyOfPlace(n, kept) { assert ls[|a| + j] == b[j]; }
  }

  // ---------- when a merge is refused ----------

  /** A merge is refused exactly when the records share no identifier, or a stronger one contradicts. */
  lemma MergesIff(n: Normal, d: Reading, a: Profile, b: Profile)
    ensures MergeOf(n, d, a, b).Some? <==> Identity.Related(n, a, b) && !Identity.Disputed(n, a, b)
  {
    Identity.MatchesAre(n, a, b);
  }

  /** Two locations are one place if region, commune and address agree; codes name region and commune before names do. */
  lemma SamePlaceIff(n: Normal, l: Location, m: Location)
    ensures KeyOfPlace(n, l) == KeyOfPlace(n, m) <==>
              && n.geo(if l.regionCode != "" then l.regionCode else l.regionName) == n.geo(if m.regionCode != "" then m.regionCode else m.regionName)
              && n.geo(if l.comunaCode != "" then l.comunaCode else l.comunaName) == n.geo(if m.comunaCode != "" then m.comunaCode else m.comunaName)
              && OrElse(n.address(l.address), "") == OrElse(n.address(m.address), "")
  {
  }
}
