/** Merging an exact match (`merge_exact_candidate`, app/prospecting/dedup.py) and `partition_discoveries`
    (app/prospecting/store.py). */
module Merging {
  import opened Contracts
  import opened StoreSpec
  import opened Compaction
  import opened Dedup

  // ---------- the dictionary of locations ----------

  datatype PlaceKey = PlaceKey(region: string, comuna: string, address: string)

  function KeyOfPlace(n: Normal, l: Location): PlaceKey {
    PlaceKey(n.geo(First(l.regionCode, l.regionName)), n.geo(First(l.comunaCode, l.comunaName)), OrElse(n.address(l.address), ""))
  }

  datatype Places = Places(held: map<PlaceKey, Location>, order: seq<PlaceKey>)

  /** A key keeps its first position and takes its last location. */
  function PlacesOf(n: Normal, ls: seq<Location>): Places {
    if |ls| == 0 then Places(map[], [])
    else
      var p := PlacesOf(n, ls[..|ls| - 1]);
      var k := KeyOfPlace(n, ls[|ls| - 1]);
      Places(p.held[k := ls[|ls| - 1]], if k in p.held then p.order else p.order + [k])
  }

  function Listing(p: Places): seq<Location>
    requires forall k :: k in p.order ==> k in p.held
  {
    seq(|p.order|, i requires 0 <= i < |p.order| => p.held[p.order[i]])
  }

  lemma {:induction false} PlacesAre(n: Normal, ls: seq<Location>)
    ensures var p := PlacesOf(n, ls);
      && NoRepeats(p.order) && (forall k :: k in p.order <==> k in p.held)
      && (forall k :: k in p.held ==> p.held[k] in ls && KeyOfPlace(n, p.held[k]) == k)
      && (forall l :: l in ls ==> KeyOfPlace(n, l) in p.held)
  {
    if |ls| > 0 {
      PlacesAre(n, ls[..|ls| - 1]);
      assert ls == ls[..|ls| - 1] + [ls[|ls| - 1]];
    }
  }

  function MergedPlaces(n: Normal, a: seq<Location>, b: seq<Location>): seq<Location> {
    PlacesAre(n, a + b);
    Listing(PlacesOf(n, a + b))
  }

  /** Every location key of either input appears exactly once in the merged list, and nothing else does. */
  lemma EachPlaceOnce(n: Normal, a: seq<Location>, b: seq<Location>)
    ensures var merged := MergedPlaces(n, a, b);
      && (forall i, j :: 0 <= i < j < |merged| ==> KeyOfPlace(n, merged[i]) != KeyOfPlace(n, merged[j]))
      && (forall l :: l in a || l in b ==> exists i :: 0 <= i < |merged| && KeyOfPlace(n, merged[i]) == KeyOfPlace(n, l))
      && (forall i :: 0 <= i < |merged| ==> merged[i] in a || merged[i] in b)
  {
    PlacesAre(n, a + b);
    var p, merged := PlacesOf(n, a + b), MergedPlaces(n, a, b);
    forall l | l in a || l in b ensures exists i :: 0 <= i < |merged| && KeyOfPlace(n, merged[i]) == KeyOfPlace(n, l) {
      assert l in a + b;
      var i :| 0 <= i < |p.order| && p.order[i] == KeyOfPlace(n, l);
      assert KeyOfPlace(n, merged[i]) == KeyOfPlace(n, l);
    }
    forall i | 0 <= i < |merged| ensures KeyOfPlace(n, merged[i]) == p.order[i] && merged[i] in a + b {
      assert p.order[i] in p.held;
    }
  }

  // ---------- evidence that names a location ----------

  /** The position of the location with the key, or the length of the list. */
  function IndexOf(n: Normal, merged: seq<Location>, k: PlaceKey): nat {
    if |merged| == 0 || KeyOfPlace(n, merged[0]) == k then 0 else 1 + IndexOf(n, merged[1..], k)
  }

  lemma {:induction false} IndexFinds(n: Normal, merged: seq<Location>, k: PlaceKey)
    requires exists i :: 0 <= i < |merged| && KeyOfPlace(n, merged[i]) == k
    ensures IndexOf(n, merged, k) < |merged| && KeyOfPlace(n, merged[IndexOf(n, merged, k)]) == k
  {
    if KeyOfPlace(n, merged[0]) != k {
      var i :| 0 <= i < |merged| && KeyOfPlace(n, merged[i]) == k;
      assert merged[1..][i - 1] == merged[i];
      IndexFinds(n, merged[1..], k);
    }
  }

  /** An item that names a location that its source does not have is dropped. */
  function Remapped(n: Normal, places: seq<Location>, merged: seq<Location>, e: Evidence): Option<Evidence> {
    match e.field
    case Named(_) => Some(e)
    case OfLocation(i, part) =>
      if i >= |places| then None
      else Some(e.(field := OfLocation(IndexOf(n, merged, KeyOfPlace(n, places[i])), part)))
  }

  function RemapAll(n: Normal, places: seq<Location>, merged: seq<Location>, items: seq<Evidence>): seq<Evidence> {
    if |items| == 0 then []
    else
      var e := Remapped(n, places, merged, items[|items| - 1]);
      RemapAll(n, places, merged, items[..|items| - 1]) + if e.Some? then [e.value] else []
  }

  /** `f` is `e`, or says of the merged list what `e` says of the location with the same key. */
  ghost predicate SameMeaning(n: Normal, places: seq<Location>, merged: seq<Location>, e: Evidence, f: Evidence) {
    match e.field
    case Named(_) => f == e
    case OfLocation(i, part) =>
      && i < |places| && f.field.OfLocation? && f == e.(field := f.field) && f.field.part == part
      && f.field.index < |merged| && KeyOfPlace(n, merged[f.field.index]) == KeyOfPlace(n, places[i])
  }

  lemma {:induction false} RemapKeepsMeaning(n: Normal, places: seq<Location>, merged: seq<Location>, items: seq<Evidence>, f: Evidence)
    requires forall l :: l in places ==> exists i :: 0 <= i < |merged| && KeyOfPlace(n, merged[i]) == KeyOfPlace(n, l)
    requires f in RemapAll(n, places, merged, items)
    ensures exists e :: e in items && SameMeaning(n, places, merged, e, f)
  {
    var last := items[|items| - 1];
    if f in RemapAll(n, places, merged, items[..|items| - 1]) {
      RemapKeepsMeaning(n, places, merged, items[..|items| - 1], f);
      var e :| e in items[..|items| - 1] && SameMeaning(n, places, merged, e, f);
      assert e in items;
    } else {
      if last.field.OfLocation? { IndexFinds(n, merged, KeyOfPlace(n, places[last.field.index])); }
      assert last in items && SameMeaning(n, places, merged, last, f);
    }
  }

  // ---------- merge_exact_candidate ----------

  /** The checks that raise `ValueError` when they fail. */
  predicate Mergeable(n: Normal, a: Profile, b: Profile) { Matches(n, a, b) && !Blocked(n, a, b) }

  function MergedEvidence(n: Normal, d: Reading, a: Profile, b: Profile): seq<Evidence> {
    var merged := MergedPlaces(n, a.locations, b.locations);
    Compact(d, RemapAll(n, a.locations, merged, a.evidence) + RemapAll(n, b.locations, merged, b.evidence), 100)
  }

  /** The better of two scores, an absent one counting as zero once the incoming one is present. */
  function BetterScore(canonical: Option<real>, incoming: Option<real>): Option<real> {
    if incoming.None? then canonical else if OrElse(canonical, 0.0) < incoming.value then incoming else Some(OrElse(canonical, 0.0))
  }

  /** The smaller of the two ranks that are known; zero stands for an unknown one. */
  function BetterRank(a: nat, b: nat): nat { if a == 0 then b else if b == 0 then a else Min(a, b) }

  function MergeOf(n: Normal, d: Reading, a: Profile, b: Profile): Option<Profile> {
    if !Mergeable(n, a, b) then None
    else Some(a.(providers := a.providers + b.providers,
                 locations := MergedPlaces(n, a.locations, b.locations),
                 evidence := MergedEvidence(n, d, a, b),
                 rut := First(a.rut, b.rut), website := First(a.website, b.website), phone := First(a.phone, b.phone),
                 email := First(a.email, b.email), description := First(a.description, b.description),
                 category := First(a.category, b.category), score := BetterScore(a.score, b.score),
                 marketScore := BetterScore(a.marketScore, b.marketScore), queryHits := a.queryHits + b.queryHits,
                 bestRank := BetterRank(a.bestRank, b.bestRank)))
  }

  method RemapEvidence(n: Normal, places: seq<Location>, merged: seq<Location>, index: map<PlaceKey, nat>, items: seq<Evidence>)
    returns (kept: seq<Evidence>)
    requires forall l :: l in places ==> KeyOfPlace(n, l) in index && index[KeyOfPlace(n, l)] == IndexOf(n, merged, KeyOfPlace(n, l))
    ensures kept == RemapAll(n, places, merged, items)
  {
    kept := [];
    for i := 0 to |items|
      invariant kept == RemapAll(n, places, merged, items[..i])
    {
      assert items[..i + 1][..i] == items[..i];
      if items[i].field.Named? {
        kept := kept + [items[i]];
        continue;
      }
      var oldIndex := items[i].field.index;
      if oldIndex >= |places| { continue; }
      kept := kept + [items[i].(field := OfLocation(index[KeyOfPlace(n, places[oldIndex])], items[i].field.part))];
    }
    assert items[..|items|] == items;
  }

  method IndexKeys(order: seq<PlaceKey>) returns (index: map<PlaceKey, nat>)
    requires NoRepeats(order)
    ensures forall k :: k in index <==> k in order
    ensures forall k :: k in index ==> index[k] < |order| && order[index[k]] == k
  {
    index := map[];
    for i := 0 to |order|
      invariant forall k :: k in index <==> k in order[..i]
      invariant forall k :: k in index ==> index[k] < |order| && order[index[k]] == k
    {
      index := index[order[i] := i];
    }
  }

  lemma IndexAgrees(n: Normal, a: seq<Location>, b: seq<Location>, index: map<PlaceKey, nat>, l: Location)
    requires l in a || l in b
    requires forall k :: k in index <==> k in PlacesOf(n, a + b).order
    requires forall k :: k in index ==> index[k] < |PlacesOf(n, a + b).order| && PlacesOf(n, a + b).order[index[k]] == k
    ensures KeyOfPlace(n, l) in index && index[KeyOfPlace(n, l)] == IndexOf(n, MergedPlaces(n, a, b), KeyOfPlace(n, l))
  {
    PlacesAre(n, a + b);
    hide KeyOfPlace;
    assert l in a + b;
    var p, merged := PlacesOf(n, a + b), MergedPlaces(n, a, b);
    forall j | 0 <= j < |merged| ensures KeyOfPlace(n, merged[j]) == p.order[j] { assert p.order[j] in p.held; }
    IndexIs(n, merged, index[KeyOfPlace(n, l)]);
  }

  /** The merged locations, and the position of each key among them. */
  method MergeLocations(n: Normal, a: seq<Location>, b: seq<Location>) returns (merged: seq<Location>, index: map<PlaceKey, nat>)
    ensures merged == MergedPlaces(n, a, b)
    ensures forall l :: l in a || l in b ==> KeyOfPlace(n, l) in index && index[KeyOfPlace(n, l)] == IndexOf(n, merged, KeyOfPlace(n, l))
  {
    hide KeyOfPlace, IndexOf;
    var all := a + b;
    var held: map<PlaceKey, Location>, order: seq<PlaceKey> := map[], [];
    for i := 0 to |all|
      invariant Places(held, order) == PlacesOf(n, all[..i])
    {
      assert all[..i + 1][..i] == all[..i];
      var k := KeyOfPlace(n, all[i]);
      order := if k in held then order else order + [k];
      held := held[k := all[i]];
    }
    assert all[..|all|] == all;
    PlacesAre(n, all);
    merged := Listing(Places(held, order));
    index := IndexKeys(order);
    forall l | l in a || l in b ensures KeyOfPlace(n, l) in index && index[KeyOfPlace(n, l)] == IndexOf(n, merged, KeyOfPlace(n, l)) {
      IndexAgrees(n, a, b, index, l);
    }
  }

  /** Scores and market signals. */
  method MergeSignals(canonical: Profile, incoming: Profile) returns (updates: Profile)
    ensures updates == canonical.(score := BetterScore(canonical.score, incoming.score),
                                  marketScore := BetterScore(canonical.marketScore, incoming.marketScore),
                                  queryHits := canonical.queryHits + incoming.queryHits,
                                  bestRank := BetterRank(canonical.bestRank, incoming.bestRank))
  {
    updates := canonical;
    if incoming.score.Some? {
      var score := OrElse(canonical.score, 0.0);
      updates := updates.(score := Some(if incoming.score.value > score then incoming.score.value else score));
    }
    updates := updates.(queryHits := canonical.queryHits + incoming.queryHits);
    if canonical.bestRank > 0 && incoming.bestRank > 0 {
      updates := updates.(bestRank := Min(canonical.bestRank, incoming.bestRank));
    } else if incoming.bestRank > 0 {
      updates := updates.(bestRank := incoming.bestRank);
    }
    if incoming.marketScore.Some? {
      var score := OrElse(canonical.marketScore, 0.0);
      updates := updates.(marketScore := Some(if incoming.marketScore.value > score then incoming.marketScore.value else score));
    }
  }

  /** A business field of the canonical record is filled only when it is empty. */
  method FillGaps(canonical: Profile, incoming: Profile) returns (updates: Profile)
    ensures updates == canonical.(rut := First(canonical.rut, incoming.rut), phone := First(canonical.phone, incoming.phone),
                                  email := First(canonical.email, incoming.email), website := First(canonical.website, incoming.website),
                                  description := First(canonical.description, incoming.description),
                                  category := First(canonical.category, incoming.category))
  {
    updates := canonical;
    if canonical.rut == "" && incoming.rut != "" { updates := updates.(rut := incoming.rut); }
    if canonical.phone == "" && incoming.phone != "" { updates := updates.(phone := incoming.phone); }
    if canonical.email == "" && incoming.email != "" { updates := updates.(email := incoming.email); }
    if canonical.website == "" && incoming.website != "" { updates := updates.(website := incoming.website); }
    if canonical.description == "" && incoming.description != "" { updates := updates.(description := incoming.description); }
    if canonical.category == "" && incoming.category != "" { updates := updates.(category := incoming.category); }
  }

  /** The result is `None` where the source raises. */
  method MergeExactCandidate(n: Normal, d: Reading, canonical: Profile, incoming: Profile) returns (r: Option<Profile>)
    ensures r == MergeOf(n, d, canonical, incoming)
  {
    hide ExactKey, Blocking, KeyOfPlace, IndexOf, MergedPlaces, RemapAll, Compact;
    var key := ExactKey(n, canonical, incoming);
    if key.None? { return None; }
    if Blocking(n, canonical, incoming, key.value).Some? { return None; }
    var merged, index := MergeLocations(n, canonical.locations, incoming.locations);
    var ours := RemapEvidence(n, canonical.locations, merged, index, canonical.evidence);
    var theirs := RemapEvidence(n, incoming.locations, merged, index, incoming.evidence);
    var evidence := CompactEvidence(d, ours + theirs, 100);
    var updates := canonical.(providers := canonical.providers + incoming.providers, evidence := evidence, locations := merged);
    updates := MergeSignals(updates, incoming);
    updates := FillGaps(updates, incoming);
    r := Some(updates);
  }

  lemma {:induction false} IndexIs(n: Normal, merged: seq<Location>, i: nat)
    requires i < |merged| && forall j, k :: 0 <= j < k < |merged| ==> KeyOfPlace(n, merged[j]) != KeyOfPlace(n, merged[k])
    ensures IndexOf(n, merged, KeyOfPlace(n, merged[i])) == i
  {
    if i > 0 {
      assert KeyOfPlace(n, merged[0]) != KeyOfPlace(n, merged[i]);
      IndexIs(n, merged[1..], i - 1);
    }
  }

  /** Every surviving piece of evidence comes from one of the two records and means what it meant there: if it names
      a location, the merged location with that index has the key of the location it named before. */
  lemma EvidenceKeepsMeaning(n: Normal, d: Reading, a: Profile, b: Profile, f: Evidence)
    requires Mergeable(n, a, b) && f in MergeOf(n, d, a, b).value.evidence
    ensures var merged := MergeOf(n, d, a, b).value.locations;
      || (exists e :: e in a.evidence && SameMeaning(n, a.locations, merged, e, f))
      || (exists e :: e in b.evidence && SameMeaning(n, b.locations, merged, e, f))
  {
    hide Mergeable, MergedPlaces, RemapAll, SameMeaning, Compact, KeyOfPlace;
    var merged := MergedPlaces(n, a.locations, b.locations);
    var x, y := RemapAll(n, a.locations, merged, a.evidence), RemapAll(n, b.locations, merged, b.evidence);
    EachPlaceOnce(n, a.locations, b.locations);
    CompactMeans(d, x + y, 100);
    if f in x {
      RemapKeepsMeaning(n, a.locations, merged, a.evidence, f);
    } else {
      RemapKeepsMeaning(n, b.locations, merged, b.evidence, f);
    }
  }

  /** The evidence does not name a location, or names one that its record has. */
  predicate InRange(places: seq<Location>, e: Evidence) { e.field.OfLocation? ==> e.field.index < |places| }

  lemma {:induction false} RemapHas(n: Normal, places: seq<Location>, merged: seq<Location>, items: seq<Evidence>, e: Evidence)
    returns (f: Evidence)
    requires forall l :: l in places ==> exists i :: 0 <= i < |merged| && KeyOfPlace(n, merged[i]) == KeyOfPlace(n, l)
    requires e in items && InRange(places, e)
    ensures f in RemapAll(n, places, merged, items) && SameMeaning(n, places, merged, e, f)
  {
    var last := items[|items| - 1];
    if e == last {
      if e.field.OfLocation? { IndexFinds(n, merged, KeyOfPlace(n, places[e.field.index])); }
      f := Remapped(n, places, merged, e).value;
    } else {
      f := RemapHas(n, places, merged, items[..|items| - 1], e);
    }
  }

  /** Conversely, no evidence of either record that is in range is lost, except to a better observation or to the limit:
      its remapped form f is represented by `best`, an observation with the same key that f does not beat and that comes
      from one of the records; and `best` is kept, unless the limit of 100 is filled by items that it does not precede. */
  lemma EvidenceIsLostOnlyToBetter(n: Normal, d: Reading, a: Profile, b: Profile, e: Evidence, ours: bool) returns (f: Evidence, best: Evidence)
    requires Mergeable(n, a, b) && e in (if ours then a else b).evidence && InRange((if ours then a else b).locations, e)
    ensures var places, r := if ours then a.locations else b.locations, MergeOf(n, d, a, b).value;
      && SameMeaning(n, places, r.locations, e, f) && KeyFor(d, best) == KeyFor(d, f) && !Beats(f, best)
      && ((exists g :: g in a.evidence && SameMeaning(n, a.locations, r.locations, g, best))
          || (exists g :: g in b.evidence && SameMeaning(n, b.locations, r.locations, g, best)))
      && (best in r.evidence || (|r.evidence| == 100 && forall g :: g in r.evidence ==> !Precedes(d, best, g)))
  {
    hide Mergeable, MergedPlaces, RemapAll, SameMeaning, Compact, KeyOfPlace, Beats, Precedes, KeyFor, InRange;
    var merged := MergedPlaces(n, a.locations, b.locations);
    var x, y := RemapAll(n, a.locations, merged, a.evidence), RemapAll(n, b.locations, merged, b.evidence);
    EachPlaceOnce(n, a.locations, b.locations);
    if ours { f := RemapHas(n, a.locations, merged, a.evidence, e); } else { f := RemapHas(n, b.locations, merged, b.evidence, e); }
    best := LeftOutOnlyByLimit(d, x + y, 100, f);
    if best in x {
      RemapKeepsMeaning(n, a.locations, merged, a.evidence, best);
    } else {
      RemapKeepsMeaning(n, b.locations, merged, b.evidence, best);
    }
  }

  // ---------- partition_discoveries ----------

  ghost predicate DistinctProfiles(known: seq<Profile>) {
    forall i, j :: 0 <= i < j < |known| ==> known[i].id != known[j].id
  }

  /** The first known record with the id. */
  function ById(known: seq<Profile>, id: Option<string>): Option<Profile> {
    if |known| == 0 then None else if known[0].id == id then Some(known[0]) else ById(known[1..], id)
  }

  lemma {:induction false} ByIdFinds(known: seq<Profile>, e: Profile)
    requires DistinctProfiles(known) && e in known
    ensures ById(known, e.id) == Some(e)
  {
    if known[0] != e {
      var i :| 0 <= i < |known| && known[i] == e;
      assert known[0].id != known[i].id;
      ByIdFinds(known[1..], e);
    }
  }

  /** An exact match in a pool with distinct ids is found again by its id, and can be merged. */
  lemma ExactMatchMerges(n: Normal, c: Profile, known: seq<Profile>, threshold: real)
    requires DistinctProfiles(known) && MatchOf(n, c, known, threshold).disposition == ExactMatch
    ensures var existing := ById(known, MatchOf(n, c, known, threshold).matched);
      existing.Some? && existing.value in known && Mergeable(n, existing.value, c)
  {
    SomeHits(n, c, known);
    var h := Least(Hits(n, c, known, false));
    HitsAre(n, c, known, false, h);
    ByIdFinds(known, h.existing);
    IdentityIsSymmetric(n, c, h.existing);
  }

  lemma MergeableMerges(n: Normal, d: Reading, a: Profile, b: Profile)
    requires Mergeable(n, a, b)
    ensures MergeOf(n, d, a, b).Some?
  {
  }

  function IsKnown(n: Normal, known: seq<Profile>, c: Profile): bool {
    MatchOf(n, c, known, 85.0).disposition == ExactMatch
  }

  function NovelOf(n: Normal, known: seq<Profile>, cs: seq<Profile>): seq<Profile> {
    if |cs| == 0 then []
    else NovelOf(n, known, cs[..|cs| - 1]) + if IsKnown(n, known, cs[|cs| - 1]) then [] else [cs[|cs| - 1]]
  }

  /** The merges of the known ones, in order; `None` stands for an exception. */
  function MergedOf(n: Normal, d: Reading, known: seq<Profile>, cs: seq<Profile>): seq<Option<Profile>> {
    if |cs| == 0 then []
    else
      var c := cs[|cs| - 1];
      var existing := ById(known, MatchOf(n, c, known, 85.0).matched);
      MergedOf(n, d, known, cs[..|cs| - 1])
      + if !IsKnown(n, known, c) then [] else if existing.Some? then [MergeOf(n, d, existing.value, c)] else [None]
  }

  /** No exception is possible, and each input is either novel or merged, in the order of the inputs. */
  method PartitionDiscoveries(n: Normal, d: Reading, known: seq<Profile>, cs: seq<Profile>)
    returns (novel: seq<Profile>, merged: seq<Option<Profile>>)
    requires DistinctProfiles(known)
    ensures novel == NovelOf(n, known, cs) && merged == MergedOf(n, d, known, cs)
    ensures |novel| + |merged| == |cs| && forall i :: 0 <= i < |merged| ==> merged[i].Some?
  {
    hide MatchOf, MergeOf, ById, Mergeable;
    novel, merged := [], [];
    for i := 0 to |cs|
      invariant novel == NovelOf(n, known, cs[..i]) && merged == MergedOf(n, d, known, cs[..i])
      invariant |novel| + |merged| == i && forall j :: 0 <= j < |merged| ==> merged[j].Some?
    {
      assert cs[..i + 1][..i] == cs[..i];
      var m := MatchCandidate(n, cs[i], known, 85.0);
      var existing := ById(known, m.matched);
      if m.disposition == ExactMatch {
        ExactMatchMerges(n, cs[i], known, 85.0);
        MergeableMerges(n, d, existing.value, cs[i]);
      }
      if m.disposition == ExactMatch && existing.Some? {
        var r := MergeExactCandidate(n, d, existing.value, cs[i]);
        merged := merged + [r];
      } else {
        novel := novel + [cs[i]];
      }
    }
    assert cs[..|cs|] == cs;
  }
}
