/** What a match means in terms of the identifiers of the records themselves (app/prospecting/dedup.py). */
module Identity {
  import opened Contracts
  import opened StoreSpec
  import opened Compaction
  import opened Dedup

  /** From the strongest to the weakest; the two names of the last kind exclude each other and never contradict. */
  const Strength: seq<Identifier> := [Rut, ProviderId, Domain, Phone, NameComunaAddress, NameComuna]

  predicate Stronger(a: Identifier, b: Identifier) {
    exists i, j :: 0 <= i < j < |Strength| && Strength[i] == a && Strength[j] == b
  }

  /** The commune of a record is its code, or its name if it has no code. */
  function CommuneOf(n: Normal, e: Profile): string {
    n.geo(if e.location.comunaCode != "" then e.location.comunaCode else e.location.comunaName)
  }

  lemma CommuneIs(n: Normal, e: Profile)
    ensures Comuna(n, e) == CommuneOf(n, e)
  {
  }

  predicate SameName(n: Normal, a: Profile, b: Profile) {
    && n.name(a.name) != "" && n.name(a.name) == n.name(b.name) && CommuneOf(n, a) != "" && CommuneOf(n, a) == CommuneOf(n, b)
  }

  /** Both records have the identifier, with the same value. */
  ghost predicate Shares(n: Normal, a: Profile, b: Profile, id: Identifier) {
    match id
    case Rut => n.rut(a.rut) != "" && n.rut(a.rut) == n.rut(b.rut)
    case ProviderId => exists p :: p in a.providers && p in b.providers && a.providers[p] == b.providers[p] && a.providers[p] != ""
    case Domain => n.website(a.website) != "" && n.website(a.website) == n.website(b.website)
    case Phone => n.phone(a.phone) != "" && n.phone(a.phone) == n.phone(b.phone)
    case NameComunaAddress =>
      SameName(n, a, b) && n.address(a.location.address).Some? && n.address(a.location.address) == n.address(b.location.address)
    case NameComuna => SameName(n, a, b) && n.address(a.location.address) == None && n.address(b.location.address) == None
  }

  /** Both records have the identifier, with different values. */
  ghost predicate Contradicts(n: Normal, a: Profile, b: Profile, id: Identifier) {
    match id
    case Rut => n.rut(a.rut) != "" && n.rut(b.rut) != "" && n.rut(a.rut) != n.rut(b.rut)
    case ProviderId =>
      exists p :: p in a.providers && p in b.providers && n.strip(a.providers[p]) != "" && n.strip(b.providers[p]) != ""
                  && n.strip(a.providers[p]) != n.strip(b.providers[p])
    case Domain => n.website(a.website) != "" && n.website(b.website) != "" && n.website(a.website) != n.website(b.website)
    case Phone => n.phone(a.phone) != "" && n.phone(b.phone) != "" && n.phone(a.phone) != n.phone(b.phone)
    case NameComunaAddress => false
    case NameComuna => false
  }

  /** The strongest identifier that the two records share. */
  ghost predicate SharedBest(n: Normal, a: Profile, b: Profile, id: Identifier) {
    Shares(n, a, b, id) && forall other :: Stronger(other, id) ==> !Shares(n, a, b, other)
  }

  /** An identifier stronger than the shared one contradicts; at the level of providers a second provider can. */
  ghost predicate Clashes(n: Normal, a: Profile, b: Profile, id: Identifier, conflict: Identifier) {
    Contradicts(n, a, b, conflict) && (Stronger(conflict, id) || conflict == id == ProviderId)
  }

  ghost predicate ClashesBest(n: Normal, a: Profile, b: Profile, id: Identifier, conflict: Identifier) {
    Clashes(n, a, b, id, conflict) && forall other :: Stronger(other, conflict) ==> !Clashes(n, a, b, id, other)
  }

  lemma StrongerIs()
    ensures forall a, b :: Stronger(a, b) <==> Place(a) < Place(b)
  {
    forall a, b ensures Stronger(a, b) <==> Place(a) < Place(b) {
      assert Strength[Place(a)] == a && Strength[Place(b)] == b;
    }
  }

  function Place(id: Identifier): nat {
    match id
    case Rut => 0
    case ProviderId => 1
    case Domain => 2
    case Phone => 3
    case NameComunaAddress => 4
    case NameComuna => 5
  }

  lemma SharesAre(n: Normal, a: Profile, b: Profile)
    ensures Shares(n, a, b, Rut) <==> Agree(n.rut(a.rut), n.rut(b.rut))
    ensures Shares(n, a, b, ProviderId) <==> ProviderMatch(a, b)
    ensures Shares(n, a, b, Domain) <==> Agree(n.website(a.website), n.website(b.website))
    ensures Shares(n, a, b, Phone) <==> Agree(n.phone(a.phone), n.phone(b.phone))
    ensures SameName(n, a, b) <==> Agree(n.name(a.name), n.name(b.name)) && Agree(Comuna(n, a), Comuna(n, b))
  {
    CommuneIs(n, a);
    CommuneIs(n, b);
    hide Comuna, CommuneOf;
  }

  /** The matching key is the strongest shared identifier, and there is none exactly when nothing is shared. */
  lemma KeyIsStrongestShared(n: Normal, a: Profile, b: Profile)
    ensures ExactKey(n, a, b) == None <==> forall id :: !Shares(n, a, b, id)
    ensures forall id :: ExactKey(n, a, b) == Some(id) <==> SharedBest(n, a, b, id)
  {
    SharesAre(n, a, b);
    StrongerIs();
    hide Agree, ProviderMatch, SameName, Comuna, Stronger;
    var key := ExactKey(n, a, b);
    if key.Some? {
      assert SharedBest(n, a, b, key.value);
      forall id | SharedBest(n, a, b, id) ensures id == key.value { assert !Stronger(id, key.value) && !Stronger(key.value, id); PlaceIs(id, key.value); }
    } else {
      forall id ensures !Shares(n, a, b, id) { }
    }
  }

  lemma PlaceIs(a: Identifier, b: Identifier)
    requires Place(a) == Place(b)
    ensures a == b
  {
  }

  lemma ContradictsAre(n: Normal, a: Profile, b: Profile)
    ensures Contradicts(n, a, b, Rut) <==> Differ(n.rut(a.rut), n.rut(b.rut))
    ensures Contradicts(n, a, b, ProviderId) <==> ProviderConflict(n, a, b)
    ensures Contradicts(n, a, b, Domain) <==> Differ(n.website(a.website), n.website(b.website))
    ensures Contradicts(n, a, b, Phone) <==> Differ(n.phone(a.phone), n.phone(b.phone))
  {
  }

  /** What blocks is the strongest contradiction, and nothing does exactly when there is none: an identifier that is
      missing on one side, or equal on both, never blocks. */
  lemma BlockingIsStrongestClash(n: Normal, a: Profile, b: Profile, id: Identifier)
    ensures Blocking(n, a, b, id) == None <==> forall conflict :: !Clashes(n, a, b, id, conflict)
    ensures forall conflict :: Blocking(n, a, b, id) == Some(conflict) <==> ClashesBest(n, a, b, id, conflict)
  {
    ContradictsAre(n, a, b);
    StrongerIs();
    hide Differ, ProviderConflict, Stronger;
    var conflict := Blocking(n, a, b, id);
    if conflict.Some? {
      assert ClashesBest(n, a, b, id, conflict.value);
      forall other | ClashesBest(n, a, b, id, other) ensures other == conflict.value {
        assert !Stronger(other, conflict.value) && !Stronger(conflict.value, other);
        PlaceIs(other, conflict.value);
      }
    } else {
      forall other ensures !Clashes(n, a, b, id, other) { }
    }
  }

  // ---------- matches in a pool ----------

  /** The record shares an identifier with the candidate. */
  ghost predicate Related(n: Normal, c: Profile, e: Profile) { exists id :: Shares(n, c, e, id) }

  /** ... and a stronger identifier of the two contradicts. */
  ghost predicate Disputed(n: Normal, c: Profile, e: Profile) {
    exists id, conflict :: SharedBest(n, c, e, id) && Clashes(n, c, e, id, conflict)
  }

  lemma MatchesAre(n: Normal, c: Profile, e: Profile)
    ensures Matches(n, c, e) <==> Related(n, c, e)
    ensures Blocked(n, c, e) <==> Disputed(n, c, e)
  {
    KeyIsStrongestShared(n, c, e);
    hide ExactKey, Blocking, Shares, SharedBest, Clashes, ClashesBest;
    var key := ExactKey(n, c, e);
    if key.Some? {
      BlockingIsStrongestClash(n, c, e, key.value);
      assert SharedBest(n, c, e, key.value);
      BestIsShared(n, c, e, key.value);
    }
  }

  lemma BestIsShared(n: Normal, a: Profile, b: Profile, id: Identifier)
    requires SharedBest(n, a, b, id)
    ensures Shares(n, a, b, id)
  {
  }

  /** The same id, or the same record if neither has one. */
  predicate SameEntity(d: Profile, e: Profile) {
    if d.id.Some? && d.id.value != "" then e.id == d.id else !(e.id.Some? && e.id.value != "") && d.instance == e.instance
  }

  lemma EntitiesAreSame(d: Profile, e: Profile)
    ensures EntityOf(d) == EntityOf(e) <==> SameEntity(d, e)
  {
  }

  /** An exact match, over the identifiers: some record of the pool shares one, every record that does is the same entity,
      and no stronger identifier of any of them contradicts. */
  lemma ExactMatchIff(n: Normal, c: Profile, pool: seq<Profile>, threshold: real)
    ensures MatchOf(n, c, pool, threshold).disposition == ExactMatch <==>
              && (exists e :: e in pool && Related(n, c, e))
              && (forall e :: e in pool ==> !Disputed(n, c, e))
              && (forall d, e :: d in pool && e in pool && Related(n, c, d) && Related(n, c, e) ==> SameEntity(d, e))
  {
    hide MatchOf, Related, Disputed, Matches, Blocked, EntityOf, SameEntity, OneEntity;
    ExactMatchMeans(n, c, pool, threshold);
    forall e | e in pool ensures (Matches(n, c, e) <==> Related(n, c, e)) && (Blocked(n, c, e) <==> Disputed(n, c, e)) { MatchesAre(n, c, e); }
    OneEntityIff(n, c, pool);
  }

  lemma OneEntityIff(n: Normal, c: Profile, pool: seq<Profile>)
    ensures OneEntity(n, c, pool) <==>
              forall d, e :: d in pool && e in pool && Related(n, c, d) && Related(n, c, e) ==> SameEntity(d, e)
  {
    hide Related, Matches, EntityOf, SameEntity;
    forall e | e in pool ensures Matches(n, c, e) <==> Related(n, c, e) { MatchesAre(n, c, e); }
    forall d, e | d in pool && e in pool ensures EntityOf(d) == EntityOf(e) <==> SameEntity(d, e) { EntitiesAreSame(d, e); }
  }

  /** Merging two companies is ruled out: if the disposition is an exact match by some key, then no record of the pool that
      shares an identifier with the candidate has another RUT, unless the RUT itself is what they share; none has another id
      at a common provider, unless they share the RUT; none another website, unless they share something at least as
      strong; and so for the phone. */
  lemma ExactMatchNeverContradicts(n: Normal, c: Profile, pool: seq<Profile>, threshold: real, e: Profile)
    requires MatchOf(n, c, pool, threshold).disposition == ExactMatch && e in pool && Related(n, c, e)
    ensures !Contradicts(n, c, e, Rut)
    ensures Contradicts(n, c, e, ProviderId) ==> Shares(n, c, e, Rut)
    ensures Contradicts(n, c, e, Domain) ==> Shares(n, c, e, Rut) || Shares(n, c, e, ProviderId)
    ensures Contradicts(n, c, e, Phone) ==> Shares(n, c, e, Rut) || Shares(n, c, e, ProviderId) || Shares(n, c, e, Domain)
  {
    ExactMatchIff(n, c, pool, threshold);
    MatchesAre(n, c, e);
    KeyIsStrongestShared(n, c, e);
    StrongerIs();
    hide MatchOf, ExactKey, Blocking, Stronger, Matches, Blocked, Comuna;
    var key := ExactKey(n, c, e).value;
    assert SharedBest(n, c, e, key) && !Disputed(n, c, e);
    NoClash(n, c, e, key, Rut);
    NoClash(n, c, e, key, ProviderId);
    NoClash(n, c, e, key, Domain);
    NoClash(n, c, e, key, Phone);
  }

  lemma NoClash(n: Normal, c: Profile, e: Profile, key: Identifier, conflict: Identifier)
    requires SharedBest(n, c, e, key) && !Disputed(n, c, e)
    ensures Shares(n, c, e, key) && (Contradicts(n, c, e, conflict) ==> Place(key) < Place(conflict))
  {
    StrongerIs();
    assert !Clashes(n, c, e, key, conflict);
    if Contradicts(n, c, e, conflict) && Place(key) == Place(conflict) { PlaceIs(key, conflict); }
    hide Stronger, Comuna;
  }

  /** The key that is reported is the strongest identifier that the candidate shares with any record of the pool. */
  lemma ReportedKeyIsStrongest(n: Normal, c: Profile, pool: seq<Profile>, threshold: real)
    requires MatchOf(n, c, pool, threshold).disposition == ExactMatch
    ensures var m := MatchOf(n, c, pool, threshold);
      && m.reason.Matched? && (exists e :: e in pool && SharedBest(n, c, e, m.reason.key) && m.matched == e.id)
      && forall e, id :: e in pool && Stronger(id, m.reason.key) ==> !Shares(n, c, e, id)
  {
    ExactMatchMeans(n, c, pool, threshold);
    SomeHits(n, c, pool);
    StrongerIs();
    var m, x := MatchOf(n, c, pool, threshold), Hits(n, c, pool, false);
    var h := Least(x);
    HitsAre(n, c, pool, false, h);
    KeyIsStrongestShared(n, c, h.existing);
    hide ExactKey, Blocking, Stronger, Comuna;
    forall e, id | e in pool && Shares(n, c, e, id) ensures !Stronger(id, m.reason.key) {
      KeyIsStrongestShared(n, c, e);
      assert Matches(n, c, e);
      HitsAre(n, c, pool, false, HitOf(n, c, e));
      assert SharedBest(n, c, e, ExactKey(n, c, e).value);
    }
  }

  /** A contradiction anywhere in the pool makes the candidate a possible duplicate; reported are the strongest contradiction
      and the identifier that it blocks, and the id only if all the related records are one entity. */
  lemma ContradictionIsReported(n: Normal, c: Profile, pool: seq<Profile>, threshold: real)
    ensures (exists e :: e in pool && Disputed(n, c, e)) <==> MatchOf(n, c, pool, threshold).reason.Conflicting?
    ensures var m := MatchOf(n, c, pool, threshold);
      m.reason.Conflicting? ==>
        && m.disposition == PossibleDuplicate
        && (exists e :: e in pool && SharedBest(n, c, e, m.reason.key) && ClashesBest(n, c, e, m.reason.key, m.reason.conflict))
        && forall e, id, conflict :: e in pool && SharedBest(n, c, e, id) && Clashes(n, c, e, id, conflict) ==> !Stronger(conflict, m.reason.conflict)
  {
    SomeHits(n, c, pool);
    var m, b := MatchOf(n, c, pool, threshold), Hits(n, c, pool, true);
    forall e | e in pool ensures Blocked(n, c, e) <==> Disputed(n, c, e) { MatchesAre(n, c, e); }
    if |b| > 0 {
      var h := Least(b);
      HitsAre(n, c, pool, true, h);
      KeyIsStrongestShared(n, c, h.existing);
      BlockingIsStrongestClash(n, c, h.existing, h.key);
      hide ExactKey, Blocking, Stronger, Shares, SharedBest, Clashes, ClashesBest, Fuzzy, Closest;
      forall e, id, conflict | e in pool && SharedBest(n, c, e, id) && Clashes(n, c, e, id, conflict) ensures !Stronger(conflict, m.reason.conflict) {
        WeakerThanLeast(n, c, pool, e, id, conflict);
      }
    }
  }

  lemma WeakerThanLeast(n: Normal, c: Profile, pool: seq<Profile>, e: Profile, id: Identifier, conflict: Identifier)
    requires e in pool && SharedBest(n, c, e, id) && Clashes(n, c, e, id, conflict) && |Hits(n, c, pool, true)| > 0
    ensures var h := Least(Hits(n, c, pool, true)); h.conflict.Some? && !Stronger(conflict, h.conflict.value)
  {
    hide ExactKey, Blocking, Shares, Contradicts, Comuna, Stronger, Rank, SharedBest, Clashes, ClashesBest, Hits, Least;
    var b := Hits(n, c, pool, true);
    var h := Least(b);
    HitsAre(n, c, pool, true, h);
    KeyIsStrongestShared(n, c, e);
    BlockingIsStrongestClash(n, c, e, id);
    HitsAre(n, c, pool, true, HitOf(n, c, e));
    var worst := Blocking(n, c, e, id).value;
    BlockingIsStrongestClash(n, c, h.existing, h.key);
    NeverByName(n, c, h.existing, h.key, h.conflict.value);
    NeverByName(n, c, e, id, worst);
    NeverByName(n, c, e, id, conflict);
    NotWeaker(n, c, e, id, worst, conflict);
    RankOrders(h, HitOf(n, c, e));
    StrongerIs();
  }

  lemma NotWeaker(n: Normal, c: Profile, e: Profile, id: Identifier, worst: Identifier, conflict: Identifier)
    requires ClashesBest(n, c, e, id, worst) && Clashes(n, c, e, id, conflict)
    ensures Place(worst) <= Place(conflict)
  {
    StrongerIs();
  }

  lemma RankOrders(g: Hit, h: Hit)
    requires g.conflict.Some? && h.conflict.Some? && Rank(g) <= Rank(h)
    ensures g.conflict.value.Priority() <= h.conflict.value.Priority()
  {
  }

  lemma NeverByName(n: Normal, c: Profile, e: Profile, id: Identifier, conflict: Identifier)
    requires Clashes(n, c, e, id, conflict) || ClashesBest(n, c, e, id, conflict)
    ensures Place(conflict) == conflict.Priority() <= 3
  {
  }

  // ---------- matches by name ----------

  /** Both records have a name and a commune, and the commune is the same. */
  predicate SameComuna(n: Normal, c: Profile, e: Profile) {
    n.name(c.name) != "" && n.name(e.name) != "" && CommuneOf(n, c) != "" && CommuneOf(n, c) == CommuneOf(n, e)
  }

  /** Only when no identifier is shared are names compared, and only within a commune; the best score decides. */
  lemma NamesDecideLast(n: Normal, c: Profile, pool: seq<Profile>, threshold: real)
    requires threshold > 0.0
    ensures var m := MatchOf(n, c, pool, threshold);
      var alike := exists e :: e in pool && SameComuna(n, c, e) && n.score(n.name(c.name), n.name(e.name)) >= threshold;
      var related := exists e :: e in pool && Related(n, c, e);
      && (m.reason == FuzzyNameComuna <==> !related && alike) && (m.disposition == Unique <==> !related && !alike)
      && (m.reason == FuzzyNameComuna ==>
            && m.disposition == PossibleDuplicate
            && (exists e :: e in pool && SameComuna(n, c, e) && m.matched == e.id && m.score == n.score(n.name(c.name), n.name(e.name)))
            && forall e :: e in pool && SameComuna(n, c, e) ==> n.score(n.name(c.name), n.name(e.name)) <= m.score)
  {
    SomeHits(n, c, pool);
    forall e | e in pool ensures Matches(n, c, e) <==> Related(n, c, e) { MatchesAre(n, c, e); }
    forall e ensures Comuna(n, e) == CommuneOf(n, e) { CommuneIs(n, e); }
    hide Matches, Blocked, Related, Hits, Least, Entities, Comuna, CommuneOf;
    if |pool| > 0 {
      var best := Closest(n, c, pool);
      assert SameComuna(n, c, best) || Fuzzy(n, c, best) == 0.0;
      forall e | e in pool && SameComuna(n, c, e) ensures n.score(n.name(c.name), n.name(e.name)) <= Fuzzy(n, c, best) { }
    }
  }

  /** Identifiers decide with a score of 100; an ambiguous match names no record. */
  lemma IdentifiersDecideFully(n: Normal, c: Profile, pool: seq<Profile>, threshold: real)
    ensures var m := MatchOf(n, c, pool, threshold);
      && (m.reason.Matched? || m.reason.Conflicting? || m.reason.Ambiguous? ==> m.score == 100.0)
      && (m.disposition == Unique <==> m.reason == NoReason) && (m.reason == NoReason ==> m.score == 0.0 && m.matched == None)
      && (m.reason == Ambiguous ==> m.disposition == PossibleDuplicate && m.matched == None)
  {
    hide Hits, Least, Entities, Closest, Fuzzy;
  }
}
