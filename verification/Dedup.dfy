/** Entity matching (app/prospecting/dedup.py): which known record a discovered candidate is, if any.

    Text normalisation and the fuzzy score are parameters; an empty string stands for a missing value, as in the
    truth tests of the source. `instance` is the identity of a record that carries no id. */
module Dedup {
  import opened Contracts
  import opened StoreSpec
  import opened Compaction

  datatype Location = Location(regionCode: string, regionName: string, comunaCode: string, comunaName: string, address: string)

  datatype Profile = Profile(
    instance: nat, id: Option<string>, rut: string, providers: map<string, string>, website: string, phone: string,
    name: string, location: Location, locations: seq<Location>, evidence: seq<Evidence>,
    email: string, description: string, category: string, score: Option<real>, marketScore: Option<real>, queryHits: nat, bestRank: nat)

  datatype Normal = Normal(
    rut: string -> string, website: string -> string, phone: string -> string, name: string -> string,
    geo: string -> string, address: string -> Option<string>, strip: string -> string,
    score: (string, string) -> real)

  datatype Identifier = Rut | ProviderId | Domain | Phone | NameComunaAddress | NameComuna {
    function Priority(): nat {
      match this
      case Rut => 0
      case ProviderId => 1
      case Domain => 2
      case Phone => 3
      case NameComunaAddress => 4
      case NameComuna => 4
    }
  }

  datatype Disposition = Unique | ExactMatch | PossibleDuplicate

  datatype Reason =
    | NoReason | Matched(key: Identifier) | Conflicting(conflict: Identifier, key: Identifier) | Ambiguous | FuzzyNameComuna

  datatype Match = Match(disposition: Disposition, matched: Option<string>, reason: Reason, score: real)

  // ---------- identifiers ----------

  function First(a: string, b: string): string { if a != "" then a else b }

  function Comuna(n: Normal, e: Profile): string { n.geo(First(e.location.comunaCode, e.location.comunaName)) }

  predicate ProviderMatch(a: Profile, b: Profile) {
    exists p :: p in a.providers && p in b.providers && a.providers[p] != "" && a.providers[p] == b.providers[p]
  }

  predicate ProviderConflict(n: Normal, a: Profile, b: Profile) {
    exists p :: p in a.providers && p in b.providers && n.strip(a.providers[p]) != n.strip(b.providers[p])
                && n.strip(a.providers[p]) != "" && n.strip(b.providers[p]) != ""
  }

  predicate Differ(a: string, b: string) { a != "" && b != "" && a != b }

  predicate Agree(a: string, b: string) { a != "" && a == b }

  /** `_exact_key`: the strongest identifier that the two records share. */
  function ExactKey(n: Normal, a: Profile, b: Profile): Option<Identifier> {
    if Agree(n.rut(a.rut), n.rut(b.rut)) then Some(Rut)
    else if ProviderMatch(a, b) then Some(ProviderId)
    else if Agree(n.website(a.website), n.website(b.website)) then Some(Domain)
    else if Agree(n.phone(a.phone), n.phone(b.phone)) then Some(Phone)
    else if Agree(n.name(a.name), n.name(b.name)) && Agree(Comuna(n, a), Comuna(n, b)) then
      (var x, y := n.address(a.location.address), n.address(b.location.address);
       if x.None? && y.None? then Some(NameComuna)
       else if x.Some? && y.Some? && x == y then Some(NameComunaAddress)
       else None)
    else None
  }

  /** `_blocking_higher_priority_conflict`. */
  function Blocking(n: Normal, a: Profile, b: Profile, key: Identifier): Option<Identifier> {
    if key.Priority() > Rut.Priority() && Differ(n.rut(a.rut), n.rut(b.rut)) then Some(Rut)
    else if key.Priority() >= ProviderId.Priority() && ProviderConflict(n, a, b) then Some(ProviderId)
    else if key.Priority() > Domain.Priority() && Differ(n.website(a.website), n.website(b.website)) then Some(Domain)
    else if key.Priority() > Phone.Priority() && Differ(n.phone(a.phone), n.phone(b.phone)) then Some(Phone)
    else None
  }

  /** Neither relation depends on which record is the known one. */
  lemma IdentityIsSymmetric(n: Normal, a: Profile, b: Profile)
    ensures ExactKey(n, a, b) == ExactKey(n, b, a)
    ensures forall key :: Blocking(n, a, b, key) == Blocking(n, b, a, key)
  {
    assert ProviderMatch(a, b) == ProviderMatch(b, a);
    assert ProviderConflict(n, a, b) == ProviderConflict(n, b, a);
  }

  predicate Matches(n: Normal, c: Profile, e: Profile) { ExactKey(n, c, e).Some? }

  predicate Blocked(n: Normal, c: Profile, e: Profile) {
    Matches(n, c, e) && Blocking(n, c, e, ExactKey(n, c, e).value).Some?
  }

  datatype Entity = Known(id: string) | Unidentified(instance: nat)

  function EntityOf(e: Profile): Entity { if e.id.Some? && e.id.value != "" then Known(e.id.value) else Unidentified(e.instance) }

  // ---------- the two lists that the loop accumulates ----------

  datatype Hit = Hit(conflict: Option<Identifier>, key: Identifier, existing: Profile)

  function HitOf(n: Normal, c: Profile, e: Profile): Hit
    requires Matches(n, c, e)
  {
    Hit(Blocking(n, c, e, ExactKey(n, c, e).value), ExactKey(n, c, e).value, e)
  }

  function Hits(n: Normal, c: Profile, pool: seq<Profile>, blocked: bool): seq<Hit> {
    if |pool| == 0 then []
    else
      var e := pool[|pool| - 1];
      Hits(n, c, pool[..|pool| - 1], blocked)
      + if Matches(n, c, e) && Blocked(n, c, e) == blocked then [HitOf(n, c, e)] else []
  }

  lemma {:induction false} HitsAre(n: Normal, c: Profile, pool: seq<Profile>, blocked: bool, h: Hit)
    ensures h in Hits(n, c, pool, blocked) <==>
              h.existing in pool && Matches(n, c, h.existing) && Blocked(n, c, h.existing) == blocked && h == HitOf(n, c, h.existing)
  {
    if |pool| > 0 {
      HitsAre(n, c, pool[..|pool| - 1], blocked, h);
      assert pool == pool[..|pool| - 1] + [pool[|pool| - 1]];
    }
  }

  function Entities(hits: seq<Hit>): set<Entity> { set h | h in hits :: EntityOf(h.existing) }

  function Rank(h: Hit): nat { (if h.conflict.Some? then h.conflict.value.Priority() else 0) * 5 + h.key.Priority() }

  /** The first hit of least rank: `min` over (conflict, key) or over the key alone. */
  function Least(hits: seq<Hit>): (r: Hit)
    requires |hits| > 0
    ensures r in hits && forall h :: h in hits ==> Rank(r) <= Rank(h)
  {
    var last := hits[|hits| - 1];
    if |hits| == 1 then last
    else
      var most := Least(hits[..|hits| - 1]);
      assert hits == hits[..|hits| - 1] + [last];
      if Rank(last) < Rank(most) then last else most
  }

  function Fuzzy(n: Normal, c: Profile, e: Profile): real {
    if n.name(c.name) == "" || n.name(e.name) == "" || Comuna(n, c) == "" || Comuna(n, c) != Comuna(n, e) then 0.0
    else n.score(n.name(c.name), n.name(e.name))
  }

  /** The first record with the best score. */
  function Closest(n: Normal, c: Profile, pool: seq<Profile>): (r: Profile)
    requires |pool| > 0
    ensures r in pool && forall e :: e in pool ==> Fuzzy(n, c, e) <= Fuzzy(n, c, r)
  {
    var last := pool[|pool| - 1];
    if |pool| == 1 then last
    else
      var best := Closest(n, c, pool[..|pool| - 1]);
      assert pool == pool[..|pool| - 1] + [last];
      if Fuzzy(n, c, last) > Fuzzy(n, c, best) then last else best
  }

  function MatchOf(n: Normal, c: Profile, pool: seq<Profile>, threshold: real): Match {
    var blocked, exact := Hits(n, c, pool, true), Hits(n, c, pool, false);
    if |blocked| > 0 then
      var h := Least(blocked);
      Match(PossibleDuplicate, if |Entities(blocked + exact)| == 1 then h.existing.id else None,
            Conflicting(OrElse(h.conflict, Rut), h.key), 100.0)
    else if |exact| > 0 then
      if |Entities(exact)| > 1 then Match(PossibleDuplicate, None, Ambiguous, 100.0)
      else Match(ExactMatch, Least(exact).existing.id, Matched(Least(exact).key), 100.0)
    else if |pool| > 0 && Fuzzy(n, c, Closest(n, c, pool)) >= threshold then
      Match(PossibleDuplicate, Closest(n, c, pool).id, FuzzyNameComuna, Fuzzy(n, c, Closest(n, c, pool)))
    else Match(Unique, None, NoReason, 0.0)
  }

  /** `match_candidate` accumulates the two lists and looks for the best score in loops. */
  method MatchCandidate(n: Normal, c: Profile, pool: seq<Profile>, threshold: real) returns (m: Match)
    ensures m == MatchOf(n, c, pool, threshold)
  {
    var exact, blocked: seq<Hit> := [], [];
    for i := 0 to |pool|
      invariant exact == Hits(n, c, pool[..i], false) && blocked == Hits(n, c, pool[..i], true)
    {
      assert pool[..i + 1][..i] == pool[..i];
      var key := ExactKey(n, c, pool[i]);
      if key.Some? {
        var conflict := Blocking(n, c, pool[i], key.value);
        if conflict.Some? {
          blocked := blocked + [Hit(conflict, key.value, pool[i])];
        } else {
          exact := exact + [Hit(None, key.value, pool[i])];
        }
      }
    }
    assert pool[..|pool|] == pool;
    if |blocked| > 0 {
      var h := LeastOf(blocked);
      return Match(PossibleDuplicate, if |Entities(blocked + exact)| == 1 then h.existing.id else None,
                   Conflicting(OrElse(h.conflict, Rut), h.key), 100.0);
    }
    if |exact| > 0 {
      if |Entities(exact)| > 1 { return Match(PossibleDuplicate, None, Ambiguous, 100.0); }
      var h := LeastOf(exact);
      return Match(ExactMatch, h.existing.id, Matched(h.key), 100.0);
    }
    var best: Option<(Profile, real)> := None;
    for i := 0 to |pool|
      invariant i == 0 ==> best == None
      invariant i > 0 ==> best == Some((Closest(n, c, pool[..i]), Fuzzy(n, c, Closest(n, c, pool[..i]))))
    {
      assert pool[..i + 1][..i] == pool[..i];
      var score := Fuzzy(n, c, pool[i]);
      if best.None? || score > best.value.1 { best := Some((pool[i], score)); }
    }
    if best.Some? && best.value.1 >= threshold {
      return Match(PossibleDuplicate, best.value.0.id, FuzzyNameComuna, best.value.1);
    }
    m := Match(Unique, None, NoReason, 0.0);
  }

  method LeastOf(hits: seq<Hit>) returns (least: Hit)
    requires |hits| > 0
    ensures least == Least(hits)
  {
    least := hits[0];
    for i := 1 to |hits|
      invariant least == Least(hits[..i])
    {
      assert hits[..i + 1][..i] == hits[..i];
      if Rank(hits[i]) < Rank(least) { least := hits[i]; }
    }
    assert hits[..|hits|] == hits;
  }

  // ---------- what a match means ----------

  /** Every record that shares an exact identifier is the same entity. */
  ghost predicate OneEntity(n: Normal, c: Profile, pool: seq<Profile>) {
    forall d, e :: d in pool && e in pool && Matches(n, c, d) && Matches(n, c, e) ==> EntityOf(d) == EntityOf(e)
  }

  ghost predicate AnyMatch(n: Normal, c: Profile, pool: seq<Profile>) {
    exists e :: e in pool && Matches(n, c, e)
  }

  ghost predicate AnyBlocked(n: Normal, c: Profile, pool: seq<Profile>) {
    exists e :: e in pool && Blocked(n, c, e)
  }

  lemma SomeHits(n: Normal, c: Profile, pool: seq<Profile>)
    ensures |Hits(n, c, pool, true)| > 0 <==> AnyBlocked(n, c, pool)
    ensures |Hits(n, c, pool, true)| + |Hits(n, c, pool, false)| > 0 <==> AnyMatch(n, c, pool)
  {
    var b, x := Hits(n, c, pool, true), Hits(n, c, pool, false);
    if |b| > 0 { HitsAre(n, c, pool, true, b[0]); }
    if |x| > 0 { HitsAre(n, c, pool, false, x[0]); }
    forall e | e in pool && Matches(n, c, e) ensures HitOf(n, c, e) in (if Blocked(n, c, e) then b else x) {
      HitsAre(n, c, pool, Blocked(n, c, e), HitOf(n, c, e));
    }
  }

  lemma Singleton<T>(s: set<T>, x: T)
    requires x in s
    ensures |s| == 1 <==> forall y :: y in s ==> y == x
  {
    if forall y :: y in s ==> y == x { assert s == {x}; }
    if |s| == 1 {
      forall y | y in s ensures y == x {
        if y != x { assert {x, y} <= s; SubsetSize({x, y}, s); }
      }
    }
  }

  lemma SubsetSize<T>(a: set<T>, b: set<T>)
    requires a <= b
    ensures |a| <= |b|
  {
    if a != {} {
      var x :| x in a;
      SubsetSize(a - {x}, b - {x});
    }
  }

  /** The entities of both lists are those of the matching records. */
  lemma EntitiesAre(n: Normal, c: Profile, pool: seq<Profile>, e: Profile)
    requires e in pool && Matches(n, c, e)
    ensures var all := Hits(n, c, pool, true) + Hits(n, c, pool, false);
      |Entities(all)| == 1 <==> OneEntity(n, c, pool)
    ensures OneEntity(n, c, pool) ==> forall h :: h in Hits(n, c, pool, true) + Hits(n, c, pool, false) ==> EntityOf(h.existing) == EntityOf(e)
  {
    var all := Hits(n, c, pool, true) + Hits(n, c, pool, false);
    forall h ensures h in all <==> h.existing in pool && Matches(n, c, h.existing) && h == HitOf(n, c, h.existing) {
      HitsAre(n, c, pool, true, h);
      HitsAre(n, c, pool, false, h);
    }
    assert HitOf(n, c, e) in all;
    Singleton(Entities(all), EntityOf(e));
    forall d | d in pool && Matches(n, c, d) ensures EntityOf(d) in Entities(all) { assert HitOf(n, c, d) in all; }
  }

  /** An exact match: some record shares an exact identifier, all of them are one entity, none carries a
      contradicting stronger identifier, and the id is that entity's. */
  lemma ExactMatchMeans(n: Normal, c: Profile, pool: seq<Profile>, threshold: real)
    ensures MatchOf(n, c, pool, threshold).disposition == ExactMatch <==>
              AnyMatch(n, c, pool) && !AnyBlocked(n, c, pool) && OneEntity(n, c, pool)
    ensures forall e :: MatchOf(n, c, pool, threshold).disposition == ExactMatch && e in pool && Matches(n, c, e) ==>
              EntityOf(e) == EntityOf(Least(Hits(n, c, pool, false)).existing)
              && (e.id.Some? && e.id.value != "" ==> MatchOf(n, c, pool, threshold).matched == e.id)
  {
    SomeHits(n, c, pool);
    var b, x := Hits(n, c, pool, true), Hits(n, c, pool, false);
    if |b| == 0 && |x| > 0 {
      assert b + x == x;
      var l := Least(x);
      HitsAre(n, c, pool, false, l);
      EntitiesAre(n, c, pool, l.existing);
      assert EntityOf(l.existing) in Entities(x);
      if |Entities(x)| <= 1 { assert |Entities(x)| == 1; }
    }
  }

  // ---------- the order of the pool ----------

  /** The same records in any order and multiplicity; one instance is one record. */
  ghost predicate SamePool(p: seq<Profile>, q: seq<Profile>) {
    && (forall e :: e in p <==> e in q)
    && (forall d, e :: d in p && e in p && d.instance == e.instance ==> d == e)
  }

  lemma SameEntitySameId(p: seq<Profile>, d: Profile, e: Profile)
    requires SamePool(p, p) && d in p && e in p && EntityOf(d) == EntityOf(e)
    ensures d.id == e.id
  {
  }

  lemma Conflicts(n: Normal, c: Profile, pool: seq<Profile>, threshold: real, e: Profile)
    requires AnyBlocked(n, c, pool) && e in pool && Matches(n, c, e) && SamePool(pool, pool)
    ensures var m := MatchOf(n, c, pool, threshold);
      m.disposition == PossibleDuplicate && m.reason.Conflicting? && m.matched == if OneEntity(n, c, pool) then e.id else None
  {
    SomeHits(n, c, pool);
    var b := Hits(n, c, pool, true);
    var h := Least(b);
    HitsAre(n, c, pool, true, h);
    EntitiesAre(n, c, pool, e);
    if OneEntity(n, c, pool) {
      assert h in b + Hits(n, c, pool, false);
      SameEntitySameId(pool, h.existing, e);
    }
  }

  lemma Agreements(n: Normal, c: Profile, pool: seq<Profile>, threshold: real, e: Profile)
    requires !AnyBlocked(n, c, pool) && e in pool && Matches(n, c, e) && SamePool(pool, pool)
    ensures var m := MatchOf(n, c, pool, threshold);
      if OneEntity(n, c, pool) then m.disposition == ExactMatch && m.matched == e.id
      else m.disposition == PossibleDuplicate && m.reason == Ambiguous && m.matched == None
  {
    SomeHits(n, c, pool);
    assert AnyMatch(n, c, pool);
    var b, x := Hits(n, c, pool, true), Hits(n, c, pool, false);
    assert b == [] && b + x == x;
    var l := Least(x);
    HitsAre(n, c, pool, false, l);
    EntitiesAre(n, c, pool, e);
    HitsAre(n, c, pool, false, HitOf(n, c, e));
    assert EntityOf(e) in Entities(x);
    if OneEntity(n, c, pool) { SameEntitySameId(pool, l.existing, e); }
  }

  lemma NoMatches(n: Normal, c: Profile, pool: seq<Profile>, threshold: real)
    requires !AnyMatch(n, c, pool)
    ensures MatchOf(n, c, pool, threshold).disposition
      == if exists e :: e in pool && Fuzzy(n, c, e) >= threshold then PossibleDuplicate else Unique
    ensures MatchOf(n, c, pool, threshold).reason == NoReason || MatchOf(n, c, pool, threshold).reason == FuzzyNameComuna
  {
    SomeHits(n, c, pool);
  }

  /** Two matching records at the same rank matched by the same key: with or without an address is up to the candidate. */
  lemma RankDetermines(n: Normal, c: Profile, d: Profile, e: Profile)
    requires Matches(n, c, d) && Matches(n, c, e) && Rank(HitOf(n, c, d)) == Rank(HitOf(n, c, e))
    requires Blocked(n, c, d) == Blocked(n, c, e)
    ensures HitOf(n, c, d).key == HitOf(n, c, e).key && HitOf(n, c, d).conflict == HitOf(n, c, e).conflict
  {
    hide ProviderMatch, ProviderConflict, Agree, Differ, Comuna;
  }

  lemma SameReason(n: Normal, c: Profile, p: seq<Profile>, q: seq<Profile>, blocked: bool)
    requires SamePool(p, q) && |Hits(n, c, p, blocked)| > 0 && |Hits(n, c, q, blocked)| > 0
    ensures Least(Hits(n, c, p, blocked)).key == Least(Hits(n, c, q, blocked)).key
    ensures Least(Hits(n, c, p, blocked)).conflict == Least(Hits(n, c, q, blocked)).conflict
  {
    hide Rank, HitOf, Matches, Blocked;
    var g, h := Least(Hits(n, c, p, blocked)), Least(Hits(n, c, q, blocked));
    HitsAre(n, c, p, blocked, g);
    HitsAre(n, c, q, blocked, g);
    HitsAre(n, c, p, blocked, h);
    HitsAre(n, c, q, blocked, h);
    RankDetermines(n, c, g.existing, h.existing);
  }

  lemma SameBestScore(n: Normal, c: Profile, p: seq<Profile>, q: seq<Profile>)
    requires SamePool(p, q) && |p| > 0 && |q| > 0
    ensures Fuzzy(n, c, Closest(n, c, p)) == Fuzzy(n, c, Closest(n, c, q))
  {
    hide Fuzzy;
  }

  /** The order of the pool does not matter, except for the id of a fuzzy match. */
  lemma OrderDoesNotMatter(n: Normal, c: Profile, p: seq<Profile>, q: seq<Profile>, threshold: real)
    requires SamePool(p, q)
    ensures MatchOf(n, c, p, threshold) == MatchOf(n, c, q, threshold).(matched := MatchOf(n, c, p, threshold).matched)
    ensures MatchOf(n, c, p, threshold).reason != FuzzyNameComuna ==> MatchOf(n, c, p, threshold) == MatchOf(n, c, q, threshold)
  {
    if |p| > 0 { assert p[0] in q; }
    if |q| > 0 { assert q[0] in p; }
    SameMatched(n, c, p, q, threshold);
    SomeHits(n, c, p);
    SomeHits(n, c, q);
    assert AnyMatch(n, c, p) == AnyMatch(n, c, q) && AnyBlocked(n, c, p) == AnyBlocked(n, c, q);
    if |Hits(n, c, p, true)| > 0 {
      SameReason(n, c, p, q, true);
    } else if |Hits(n, c, p, false)| > 0 {
      SameReason(n, c, p, q, false);
    } else if |p| > 0 {
      SameBestScore(n, c, p, q);
    }
  }

  lemma SameMatched(n: Normal, c: Profile, p: seq<Profile>, q: seq<Profile>, threshold: real)
    requires SamePool(p, q)
    ensures MatchOf(n, c, p, threshold).disposition == MatchOf(n, c, q, threshold).disposition
    ensures MatchOf(n, c, p, threshold).reason != FuzzyNameComuna ==>
              MatchOf(n, c, p, threshold).matched == MatchOf(n, c, q, threshold).matched
  {
    assert AnyMatch(n, c, p) == AnyMatch(n, c, q) && AnyBlocked(n, c, p) == AnyBlocked(n, c, q);
    assert OneEntity(n, c, p) == OneEntity(n, c, q);
    if e :| e in p && Matches(n, c, e) {
      if AnyBlocked(n, c, p) {
        Conflicts(n, c, p, threshold, e);
        Conflicts(n, c, q, threshold, e);
      } else {
        Agreements(n, c, p, threshold, e);
        Agreements(n, c, q, threshold, e);
      }
    } else {
      NoMatches(n, c, p, threshold);
      NoMatches(n, c, q, threshold);
      if MatchOf(n, c, p, threshold).disposition == Unique { UniqueHasNoId(n, c, p, threshold); UniqueHasNoId(n, c, q, threshold); }
    }
  }

  lemma UniqueHasNoId(n: Normal, c: Profile, pool: seq<Profile>, threshold: real)
    requires MatchOf(n, c, pool, threshold).disposition == Unique
    ensures MatchOf(n, c, pool, threshold).matched == None
  {
  }

  /** The id of a fuzzy match is that of the first of the closest records, so there it does matter. */
  lemma FuzzyTieFollowsOrder(n: Normal, c: Profile, d: Profile, e: Profile, threshold: real)
    requires !Matches(n, c, d) && !Matches(n, c, e) && Fuzzy(n, c, d) == Fuzzy(n, c, e) >= threshold
    ensures MatchOf(n, c, [d, e], threshold) == Match(PossibleDuplicate, d.id, FuzzyNameComuna, Fuzzy(n, c, d))
  {
    assert [d, e][..1] == [d] && [d][..0] == [];
    assert Closest(n, c, [d]) == d;
    assert Closest(n, c, [d, e]) == d;
    NoMatches(n, c, [d, e], threshold);
    SomeHits(n, c, [d, e]);
  }
}
