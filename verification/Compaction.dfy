/** Evidence compaction (app/prospecting/evidence.py): one observation per source, field and value, the best ones first. */
module Compaction {
  import opened Contracts
  import opened StoreSpec

  /** A field is a name, or names a part of one of the candidate's locations: `locations[index].part`. */
  datatype Field = Named(name: string) | OfLocation(index: nat, part: string)

  datatype Evidence = Evidence(provider: nat, record: Option<string>, url: Option<string>, field: Field, value: string,
    confidence: int, observedAt: int)

  /** `norm` is the normal form of a value of a field; `text` orders fields as their texts are ordered. */
  datatype Reading = Reading(norm: (Field, string) -> string, text: Field -> int)

  datatype EvidenceKey = EvidenceKey(provider: nat, source: string, field: Field, value: string)

  function SourceOf(e: Evidence): string {
    if e.record.Some? && e.record.value != "" then e.record.value else OrElse(e.url, "")
  }

  function KeyFor(d: Reading, e: Evidence): EvidenceKey {
    EvidenceKey(e.provider, SourceOf(e), e.field, d.norm(e.field, e.value))
  }

  /** More confident, or as confident and more recent. */
  predicate Beats(a: Evidence, b: Evidence) {
    a.confidence > b.confidence || (a.confidence == b.confidence && a.observedAt > b.observedAt)
  }

  // ---------- the dictionary of best observations ----------

  datatype Table = Table(best: map<EvidenceKey, Evidence>, order: seq<EvidenceKey>)

  function Add(d: Reading, t: Table, e: Evidence): Table {
    var k := KeyFor(d, e);
    if k !in t.best then Table(t.best[k := e], t.order + [k])
    else if Beats(e, t.best[k]) then t.(best := t.best[k := e])
    else t
  }

  function Best(d: Reading, items: seq<Evidence>): Table {
    if |items| == 0 then Table(map[], []) else Add(d, Best(d, items[..|items| - 1]), items[|items| - 1])
  }

  ghost predicate Tabled(d: Reading, t: Table) {
    && NoRepeats(t.order) && (forall k :: k in t.order <==> k in t.best)
    && forall k :: k in t.best ==> KeyFor(d, t.best[k]) == k
  }

  /** Each key has exactly one survivor, an observation with that key that no other with the key beats. */
  lemma {:induction false} BestIsBest(d: Reading, items: seq<Evidence>)
    ensures Tabled(d, Best(d, items))
    ensures forall k :: k in Best(d, items).best ==> Best(d, items).best[k] in items
    ensures forall e :: e in items ==> KeyFor(d, e) in Best(d, items).best && !Beats(e, Best(d, items).best[KeyFor(d, e)])
  {
    hide KeyFor, Beats, Add;
    if |items| > 0 {
      var most, last := items[..|items| - 1], items[|items| - 1];
      BestIsBest(d, most);
      AddTables(d, Best(d, most), last);
      AddKeepsBest(d, Best(d, most), last);
      assert items == most + [last];
    }
  }

  lemma AddTables(d: Reading, t: Table, e: Evidence)
    requires Tabled(d, t)
    ensures Tabled(d, Add(d, t, e))
  {
    hide KeyFor, Beats;
  }

  /** The item added, and what was not beaten before, is not beaten by what the table then holds. */
  lemma AddKeepsBest(d: Reading, t: Table, e: Evidence)
    requires Tabled(d, t)
    ensures var u := Add(d, t, e);
      && (forall k :: k in u.best ==> u.best[k] == e || (k in t.best && u.best[k] == t.best[k]))
      && KeyFor(d, e) in u.best && !Beats(e, u.best[KeyFor(d, e)])
      && forall f, k :: k in t.best && !Beats(f, t.best[k]) ==> k in u.best && !Beats(f, u.best[k])
  {
    hide KeyFor, Beats;
    BetterOnly(e);
  }

  /** An observation does not beat itself, and one that is not beaten stays so when a better one takes its place. */
  lemma BetterOnly(e: Evidence)
    ensures !Beats(e, e)
    ensures forall f, g :: Beats(e, f) && !Beats(g, f) ==> !Beats(g, e)
  {
  }

  function Values(t: Table, keys: seq<EvidenceKey>): seq<Evidence>
    requires forall k :: k in keys ==> k in t.best
  {
    if |keys| == 0 then [] else Values(t, keys[..|keys| - 1]) + [t.best[keys[|keys| - 1]]]
  }

  lemma {:induction false} ValuesAt(t: Table, keys: seq<EvidenceKey>)
    requires forall k :: k in keys ==> k in t.best
    ensures |Values(t, keys)| == |keys| && forall i :: 0 <= i < |keys| ==> Values(t, keys)[i] == t.best[keys[i]]
  {
    if |keys| > 0 { ValuesAt(t, keys[..|keys| - 1]); }
  }

  // ---------- the order of the result ----------

  function FieldRank(f: Field): nat {
    match f
    case Named(name) =>
      if name == "name" then 0 else if name == "rut" then 1
      else if name == "phone" || name == "email" || name == "website" then 2
      else if name == "location.region_code" || name == "location.comuna_code" then 3
      else if name == "location.address" then 4 else 5
    case OfLocation(_, part) =>
      if part == "region_code" || part == "comuna_code" then 3 else if part == "address" then 4 else 5
  }

  function Priority(d: Reading, e: Evidence): seq<int> {
    [FieldRank(e.field), e.provider, d.text(e.field), -e.confidence, -e.observedAt]
  }

  predicate Before(a: seq<int>, b: seq<int>)
    requires |a| == |b|
  {
    |a| > 0 && (a[0] < b[0] || (a[0] == b[0] && Before(a[1..], b[1..])))
  }

  lemma {:induction false} BeforeOrders(a: seq<int>, b: seq<int>, c: seq<int>)
    requires |a| == |b| == |c|
    ensures !Before(b, a) && !Before(c, b) ==> !Before(c, a)
    ensures Before(a, b) ==> !Before(b, a)
  {
    if |a| > 0 { BeforeOrders(a[1..], b[1..], c[1..]); }
  }

  predicate Precedes(d: Reading, a: Evidence, b: Evidence) { Before(Priority(d, a), Priority(d, b)) }

  ghost predicate Sorted(d: Reading, s: seq<Evidence>) {
    forall i, j :: 0 <= i < j < |s| ==> !Precedes(d, s[j], s[i])
  }

  /** Stable: after every item that it does not precede. */
  function Insert(d: Reading, s: seq<Evidence>, e: Evidence): seq<Evidence> {
    if |s| == 0 || !Precedes(d, e, s[|s| - 1]) then s + [e] else Insert(d, s[..|s| - 1], e) + [s[|s| - 1]]
  }

  function Sort(d: Reading, s: seq<Evidence>): seq<Evidence> {
    if |s| == 0 then [] else Insert(d, Sort(d, s[..|s| - 1]), s[|s| - 1])
  }

  lemma AppendSorts(d: Reading, s: seq<Evidence>, e: Evidence)
    requires Sorted(d, s) && (|s| > 0 ==> !Precedes(d, e, s[|s| - 1]))
    ensures Sorted(d, s + [e])
  {
    hide Before, Priority;
    forall i | 0 <= i < |s| ensures !Precedes(d, e, s[i]) { NotBefore(d, s[i], s[|s| - 1], e); }
  }

  lemma NotBefore(d: Reading, a: Evidence, b: Evidence, c: Evidence)
    ensures (a == b || !Precedes(d, b, a)) && !Precedes(d, c, b) ==> !Precedes(d, c, a)
    ensures Precedes(d, a, b) ==> !Precedes(d, b, a)
  {
    BeforeOrders(Priority(d, a), Priority(d, b), Priority(d, c));
  }

  lemma {:induction false} InsertSorts(d: Reading, s: seq<Evidence>, e: Evidence)
    requires Sorted(d, s)
    ensures Sorted(d, Insert(d, s, e)) && multiset(Insert(d, s, e)) == multiset(s) + multiset{e}
  {
    hide Precedes;
    if |s| == 0 || !Precedes(d, e, s[|s| - 1]) {
      AppendSorts(d, s, e);
    } else {
      var last, most := s[|s| - 1], s[..|s| - 1];
      assert s == most + [last];
      InsertSorts(d, most, e);
      var front := Insert(d, most, e);
      forall i | 0 <= i < |front| ensures !Precedes(d, last, front[i]) {
        assert front[i] in multiset(front);
        if front[i] == e { NotBefore(d, e, last, e); }
      }
      AppendSorts(d, front, last);
    }
  }

  lemma {:induction false} SortSorts(d: Reading, s: seq<Evidence>)
    ensures Sorted(d, Sort(d, s)) && multiset(Sort(d, s)) == multiset(s)
  {
    if |s| > 0 {
      assert s == s[..|s| - 1] + [s[|s| - 1]];
      SortSorts(d, s[..|s| - 1]);
      InsertSorts(d, Sort(d, s[..|s| - 1]), s[|s| - 1]);
    }
  }

  lemma {:induction false} SortKeepsSorted(d: Reading, s: seq<Evidence>)
    requires Sorted(d, s)
    ensures Sort(d, s) == s
  {
    if |s| > 0 {
      SortKeepsSorted(d, s[..|s| - 1]);
      assert s == s[..|s| - 1] + [s[|s| - 1]];
    }
  }

  // ---------- compact_evidence ----------

  function All(d: Reading, items: seq<Evidence>): seq<Evidence> {
    BestIsBest(d, items);
    Sort(d, Values(Best(d, items), Best(d, items).order))
  }

  function Compact(d: Reading, items: seq<Evidence>, maxItems: nat): seq<Evidence> {
    All(d, items)[..Min(maxItems, |All(d, items)|)]
  }

  method CompactEvidence(d: Reading, items: seq<Evidence>, maxItems: nat) returns (kept: seq<Evidence>)
    ensures kept == Compact(d, items, maxItems)
  {
    var best: map<EvidenceKey, Evidence>, order: seq<EvidenceKey> := map[], [];
    for i := 0 to |items|
      invariant Table(best, order) == Best(d, items[..i])
    {
      assert items[..i + 1][..i] == items[..i];
      var k := KeyFor(d, items[i]);
      if k !in best {
        best, order := best[k := items[i]], order + [k];
      } else if Beats(items[i], best[k]) {
        best := best[k := items[i]];
      }
    }
    assert items[..|items|] == items;
    BestIsBest(d, items);
    var sorted := Sort(d, Values(Table(best, order), order));
    kept := sorted[..Min(maxItems, |sorted|)];
  }

  ghost predicate OnePerKey(d: Reading, s: seq<Evidence>) {
    forall i, j :: 0 <= i < j < |s| ==> KeyFor(d, s[i]) != KeyFor(d, s[j])
  }

  lemma ValuesHold(d: Reading, t: Table, e: Evidence)
    requires Tabled(d, t)
    ensures e in Values(t, t.order) <==> KeyFor(d, e) in t.best && t.best[KeyFor(d, e)] == e
  {
    ValuesAt(t, t.order);
    var values := Values(t, t.order);
    hide KeyFor, Values;
    if KeyFor(d, e) in t.best && t.best[KeyFor(d, e)] == e {
      var i :| 0 <= i < |t.order| && t.order[i] == KeyFor(d, e);
      assert values[i] == e;
    }
    if e in values {
      var i :| 0 <= i < |values| && values[i] == e;
      assert t.order[i] in t.best;
    }
  }

  lemma SameMembers(a: seq<Evidence>, b: seq<Evidence>, e: Evidence)
    requires multiset(a) == multiset(b)
    ensures e in a <==> e in b
  {
    assert e in a <==> e in multiset(a);
  }

  /** Before truncation: the survivors, in order, one for each key, each unbeaten. */
  lemma AllAre(d: Reading, items: seq<Evidence>)
    ensures Sorted(d, All(d, items)) && OnePerKey(d, All(d, items))
    ensures forall e :: e in All(d, items) <==> KeyFor(d, e) in Best(d, items).best && Best(d, items).best[KeyFor(d, e)] == e
  {
    BestIsBest(d, items);
    hide KeyFor, Sorted, OnePerKey, Best, Sort, Values;
    var t := Best(d, items);
    ValuesAt(t, t.order);
    SortSorts(d, Values(t, t.order));
    SortOnce(d, t, Values(t, t.order), All(d, items));
    forall e ensures e in All(d, items) <==> KeyFor(d, e) in t.best && t.best[KeyFor(d, e)] == e {
      SameMembers(All(d, items), Values(t, t.order), e);
      ValuesHold(d, t, e);
    }
  }

  lemma {:induction false} CountOnce(values: seq<Evidence>, e: Evidence)
    requires forall i, j :: 0 <= i < j < |values| ==> values[i] != values[j]
    ensures multiset(values)[e] <= 1
  {
    if |values| > 0 {
      assert values == values[..|values| - 1] + [values[|values| - 1]];
      CountOnce(values[..|values| - 1], e);
      if e == values[|values| - 1] { assert e !in values[..|values| - 1]; }
    }
  }

  lemma CountTwice(s: seq<Evidence>, i: nat, j: nat)
    requires i < j < |s| && s[i] == s[j]
    ensures multiset(s)[s[i]] >= 2
  {
    assert s == s[..j] + s[j..];
    assert s[i] in s[..j] && s[j] in s[j..];
  }

  lemma SortOnce(d: Reading, t: Table, values: seq<Evidence>, all: seq<Evidence>)
    requires Tabled(d, t) && |values| == |t.order| && forall i :: 0 <= i < |values| ==> values[i] == t.best[t.order[i]]
    requires multiset(all) == multiset(values)
    ensures OnePerKey(d, all)
  {
    forall i, j | 0 <= i < j < |all| ensures KeyFor(d, all[i]) != KeyFor(d, all[j]) {
      if KeyFor(d, all[i]) == KeyFor(d, all[j]) {
        assert all[i] in multiset(values) && all[j] in multiset(values);
        var m :| 0 <= m < |values| && values[m] == all[i];
        var n :| 0 <= n < |values| && values[n] == all[j];
        assert KeyFor(d, values[m]) == t.order[m] && KeyFor(d, values[n]) == t.order[n];
        assert all[i] == all[j];
        CountTwice(all, i, j);
        CountOnce(values, all[i]);
      }
    }
  }

  /** The result: at most `maxItems` observations of the input in priority order, one per source, field and value,
      and none that another with the same key beats. */
  lemma CompactMeans(d: Reading, items: seq<Evidence>, maxItems: nat)
    ensures var kept := Compact(d, items, maxItems);
      && |kept| <= maxItems && Sorted(d, kept) && OnePerKey(d, kept)
      && (forall e :: e in kept ==> e in items)
      && forall e, f :: e in kept && f in items && KeyFor(d, f) == KeyFor(d, e) ==> !Beats(f, e)
  {
    AllAre(d, items);
    BestIsBest(d, items);
    hide Precedes, Beats, KeyFor;
    assert forall e :: e in Compact(d, items, maxItems) ==> e in All(d, items);
  }

  // ---------- keys and order, spelt out ----------

  /** Two observations repeat each other if provider, source, field and normalised value are the same; a record id names the
      source before a URL does. */
  lemma SameKeyIff(d: Reading, e: Evidence, f: Evidence)
    ensures KeyFor(d, e) == KeyFor(d, f) <==>
              && e.provider == f.provider && e.field == f.field && d.norm(e.field, e.value) == d.norm(f.field, f.value)
              && SourceOf(e) == SourceOf(f)
    ensures (e.record.Some? && e.record.value != "" ==> SourceOf(e) == e.record.value)
    ensures (e.record == None || e.record.value == "") && e.url.Some? ==> SourceOf(e) == e.url.value
  {
  }

  /** Names come first, then tax numbers, contacts, codes, addresses and the rest, of the record and of its locations alike. */
  lemma FieldsByImportance(part: string, index: nat)
    ensures FieldRank(Named("name")) < FieldRank(Named("rut")) < FieldRank(Named("phone"))
    ensures FieldRank(Named("phone")) == FieldRank(Named("email")) == FieldRank(Named("website")) < FieldRank(Named("location.region_code"))
    ensures FieldRank(Named("location.region_code")) == FieldRank(Named("location.comuna_code")) < FieldRank(Named("location.address"))
    ensures FieldRank(OfLocation(index, "region_code")) == FieldRank(Named("location.region_code"))
    ensures FieldRank(OfLocation(index, "comuna_code")) == FieldRank(Named("location.comuna_code"))
    ensures FieldRank(OfLocation(index, "address")) == FieldRank(Named("location.address")) < FieldRank(Named("trade_name"))
    ensures FieldRank(OfLocation(index, part)) <= FieldRank(Named("trade_name"))
    ensures part !in {"region_code", "comuna_code", "address"} ==> FieldRank(OfLocation(index, part)) == FieldRank(Named("trade_name"))
  {
  }

  /** By field, then provider, then the text of the field, then the more confident, then the more recent. */
  lemma PrecedesIff(d: Reading, e: Evidence, f: Evidence)
    ensures Precedes(d, e, f) <==>
              var r, s := FieldRank(e.field), FieldRank(f.field);
              r < s || (r == s && (e.provider < f.provider || (e.provider == f.provider &&
                (d.text(e.field) < d.text(f.field) || (d.text(e.field) == d.text(f.field) &&
                  (e.confidence > f.confidence || (e.confidence == f.confidence && e.observedAt > f.observedAt)))))))
  {
    var a, b := Priority(d, e), Priority(d, f);
    assert Before(a[4..], b[4..]) <==> a[4] < b[4];
    assert Before(a[3..], b[3..]) <==> a[3] < b[3] || (a[3] == b[3] && Before(a[4..], b[4..]));
    assert Before(a[2..], b[2..]) <==> a[2] < b[2] || (a[2] == b[2] && Before(a[3..], b[3..]));
    assert Before(a[1..], b[1..]) <==> a[1] < b[1] || (a[1] == b[1] && Before(a[2..], b[2..]));
  }

  /** Of the observations with one key the most confident is kept, and of those the most recent. */
  lemma KeptIsBest(d: Reading, items: seq<Evidence>, maxItems: nat, e: Evidence, f: Evidence)
    requires e in Compact(d, items, maxItems) && f in items && KeyFor(d, f) == KeyFor(d, e)
    ensures f.confidence <= e.confidence && (f.confidence == e.confidence ==> f.observedAt <= e.observedAt)
  {
    hide KeyFor, Compact;
    CompactMeans(d, items, maxItems);
  }

  /** An observation is represented by an unbeaten one with its key, which is left out only when the limit is
      reached by others that it does not precede. */
  lemma LeftOutOnlyByLimit(d: Reading, items: seq<Evidence>, maxItems: nat, f: Evidence) returns (best: Evidence)
    requires f in items
    ensures best in items && KeyFor(d, best) == KeyFor(d, f) && !Beats(f, best)
    ensures var kept := Compact(d, items, maxItems);
      best in kept || (|kept| == maxItems && forall e :: e in kept ==> !Precedes(d, best, e))
  {
    hide Precedes, Beats, Best, KeyFor, OnePerKey;
    AllAre(d, items);
    BestIsBest(d, items);
    best := Best(d, items).best[KeyFor(d, f)];
    var all, kept := All(d, items), Compact(d, items, maxItems);
    assert best in all;
    var i :| 0 <= i < |all| && all[i] == best;
    if i < |kept| { assert best == kept[i]; }
  }

  lemma ValuesSame(t: Table, u: Table, keys: seq<EvidenceKey>)
    requires forall k :: k in keys ==> k in t.best && k in u.best && u.best[k] == t.best[k]
    ensures Values(u, keys) == Values(t, keys)
  {
    ValuesAt(t, keys);
    ValuesAt(u, keys);
  }

  lemma AddNew(d: Reading, t: Table, e: Evidence)
    requires Tabled(d, t) && KeyFor(d, e) !in t.best
    ensures Values(Add(d, t, e), Add(d, t, e).order) == Values(t, t.order) + [e]
  {
    var u := Add(d, t, e);
    assert u.order[..|u.order| - 1] == t.order;
    ValuesSame(t, u, t.order);
  }

  lemma {:induction false} BestOfDistinct(d: Reading, s: seq<Evidence>)
    requires OnePerKey(d, s)
    ensures Tabled(d, Best(d, s)) && Values(Best(d, s), Best(d, s).order) == s
  {
    hide KeyFor, Beats, Add, Values;
    if |s| == 0 {
      NoValues(Best(d, s));
    } else {
      var most, last := s[..|s| - 1], s[|s| - 1];
      assert OnePerKey(d, most);
      hide OnePerKey, Tabled;
      BestOfDistinct(d, most);
      NewKey(d, s);
      AddTables(d, Best(d, most), last);
      AddNew(d, Best(d, most), last);
      assert s == most + [last];
    }
  }

  lemma NoValues(t: Table)
    ensures Values(t, []) == []
  {
  }

  lemma NewKey(d: Reading, s: seq<Evidence>)
    requires OnePerKey(d, s) && |s| > 0
    ensures KeyFor(d, s[|s| - 1]) !in Best(d, s[..|s| - 1]).best
  {
    var most, t := s[..|s| - 1], Best(d, s[..|s| - 1]);
    BestIsBest(d, most);
    forall k | k in t.best ensures k != KeyFor(d, s[|s| - 1]) {
      var i :| 0 <= i < |most| && most[i] == t.best[k];
      assert KeyFor(d, s[i]) == k;
    }
  }

  /** Compacting again changes nothing. */
  lemma CompactIsIdempotent(d: Reading, items: seq<Evidence>, maxItems: nat)
    ensures Compact(d, Compact(d, items, maxItems), maxItems) == Compact(d, items, maxItems)
  {
    hide KeyFor, Precedes, Best, Sort, Values;
    AllAre(d, items);
    var kept := Compact(d, items, maxItems);
    BestOfDistinct(d, kept);
    SortKeepsSorted(d, kept);
    assert All(d, kept) == kept;
  }
}
