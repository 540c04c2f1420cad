/** What the CRM does with a batch of candidates, candidate by candidate (`upsert_candidates`, app/crm/fake.py). */
module UpsertLaws {
  import opened Contracts
  import opened StoreSpec
  import opened CrmSpec
  import opened CrmLaws

  type Held = map<CandidateKey, Candidate>

  /** Two candidates are one if they carry the same id, or if neither carries one and they are equal. */
  lemma SameKeyIff(c: Candidate, e: Candidate)
    ensures KeyOf(c) == KeyOf(e) <==> (c.id.Some? && c.id == e.id) || (c.id == e.id == None && c == e)
  {
  }

  predicate Occurs(batch: seq<Candidate>, k: CandidateKey) {
    exists i :: 0 <= i < |batch| && KeyOf(batch[i]) == k
  }

  /** The keys of the batch that are not held, each where it first appears. */
  function NewKeys(held: Held, batch: seq<Candidate>): seq<CandidateKey> {
    if |batch| == 0 then []
    else
      var keys, k := NewKeys(held, batch[..|batch| - 1]), KeyOf(batch[|batch| - 1]);
      if k in held || k in keys then keys else keys + [k]
  }

  /** No key twice, and exactly the new ones; and a prefix of the batch gives a prefix of the keys, so they are in
      the order of the batch. */
  lemma {:induction false} NewKeysAre(held: Held, batch: seq<Candidate>)
    ensures NoRepeats(NewKeys(held, batch))
    ensures forall k :: k in NewKeys(held, batch) <==> k !in held && Occurs(batch, k)
    ensures forall i :: 0 <= i <= |batch| ==> NewKeys(held, batch[..i]) <= NewKeys(held, batch)
  {
    if |batch| == 0 {
      assert batch[..0] == batch;
    } else {
      var most := batch[..|batch| - 1];
      NewKeysAre(held, most);
      assert batch == most + [batch[|batch| - 1]];
      forall i | 0 <= i <= |batch| ensures NewKeys(held, batch[..i]) <= NewKeys(held, batch) {
        if i < |batch| { assert most[..i] == batch[..i]; } else { assert batch[..i] == batch; }
      }
      forall k ensures Occurs(batch, k) <==> Occurs(most, k) || k == KeyOf(batch[|batch| - 1]) { OccursNext(batch, k); }
    }
  }

  lemma OccursNext(batch: seq<Candidate>, k: CandidateKey)
    requires |batch| > 0
    ensures Occurs(batch, k) <==> Occurs(batch[..|batch| - 1], k) || k == KeyOf(batch[|batch| - 1])
  {
    var most := batch[..|batch| - 1];
    if Occurs(most, k) {
      var i :| 0 <= i < |most| && KeyOf(most[i]) == k;
      assert KeyOf(batch[i]) == k;
    }
    if i :| 0 <= i < |batch| && KeyOf(batch[i]) == k && i < |most| { assert KeyOf(most[i]) == k; }
  }

  function Room(held: Held, cap: nat): nat { if |held| < cap then cap - |held| else 0 }

  /** Of these new keys the first ones were accepted, as many as there is room for. */
  ghost predicate Filled(held: Held, keys: seq<CandidateKey>, cap: nat, u: Upserted) {
    && u.ids == keys[..Min(|keys|, Room(held, cap))]
    && |u.held| == |held| + |u.ids| && forall k :: k in u.held <==> k in held || k in u.ids
  }

  lemma NextFills(held: Held, keys: seq<CandidateKey>, cap: nat, u: Upserted, c: Candidate)
    requires Filled(held, keys, cap, u) && forall k :: k in keys ==> k !in held
    ensures Filled(held, if KeyOf(c) in held || KeyOf(c) in keys then keys else keys + [KeyOf(c)], cap, UpsertOne(u, c, cap))
  {
    hide KeyOf;
    if KeyOf(c) in u.held {
      UpdateFills(held, keys, cap, u, c);
    } else if |u.held| < cap {
      NewFills(held, keys, cap, u, c);
    } else {
      FullFills(held, keys, cap, u, KeyOf(c));
    }
  }

  lemma UpdateFills(held: Held, keys: seq<CandidateKey>, cap: nat, u: Upserted, c: Candidate)
    requires Filled(held, keys, cap, u) && KeyOf(c) in u.held
    ensures Filled(held, keys, cap, UpsertOne(u, c, cap)) && (KeyOf(c) in held || KeyOf(c) in keys)
  {
    hide KeyOf;
    var v := UpsertOne(u, c, cap);
    assert v.held.Keys == u.held.Keys;
    assert |v.held| == |v.held.Keys| == |u.held.Keys| == |u.held|;
  }

  lemma NewFills(held: Held, keys: seq<CandidateKey>, cap: nat, u: Upserted, c: Candidate)
    requires Filled(held, keys, cap, u) && KeyOf(c) !in u.held && |u.held| < cap
    ensures Filled(held, keys + [KeyOf(c)], cap, UpsertOne(u, c, cap)) && KeyOf(c) !in held && KeyOf(c) !in keys
  {
    hide KeyOf;
    var v := UpsertOne(u, c, cap);
    assert u.ids == keys;
    assert v.held.Keys == u.held.Keys + {KeyOf(c)};
    assert |v.held| == |v.held.Keys| == |u.held.Keys| + 1 == |u.held| + 1;
    assert (keys + [KeyOf(c)])[..|keys| + 1] == keys + [KeyOf(c)];
  }

  lemma FullFills(held: Held, keys: seq<CandidateKey>, cap: nat, u: Upserted, k: CandidateKey)
    requires Filled(held, keys, cap, u) && |u.held| >= cap
    ensures Filled(held, keys + [k], cap, u.(rejected := u.rejected + 1)) && Filled(held, keys, cap, u.(rejected := u.rejected + 1))
  {
    var room := Room(held, cap);
    assert |keys| >= room && (keys + [k])[..room] == keys[..room];
  }

  /** Accepted are the new keys in the order of the batch, as many as there is room for. */
  lemma {:induction false} AcceptedWhileRoom(held: Held, batch: seq<Candidate>, cap: nat)
    ensures Filled(held, NewKeys(held, batch), cap, UpsertAll(held, batch, cap))
  {
    hide Filled;
    if |batch| == 0 {
      NothingFills(held, cap);
    } else {
      var most, last := batch[..|batch| - 1], batch[|batch| - 1];
      AcceptedWhileRoom(held, most, cap);
      NewKeysAre(held, most);
      NextFills(held, NewKeys(held, most), cap, UpsertAll(held, most, cap), last);
    }
  }

  lemma NothingFills(held: Held, cap: nat)
    ensures Filled(held, [], cap, Upserted(held, [], 0))
  {
  }

  /** The positions of the candidates that are not held. */
  ghost function Refused(batch: seq<Candidate>, held: Held): set<nat> {
    set i: nat | i < |batch| && KeyOf(batch[i]) !in held
  }

  lemma NextRefused(most: seq<Candidate>, c: Candidate, u: Upserted, cap: nat)
    requires u.rejected == |Refused(most, u.held)|
    requires KeyOf(c) !in u.held && |u.held| < cap ==> Refused(most, u.held) == {}
    ensures UpsertOne(u, c, cap).rejected == |Refused(most + [c], UpsertOne(u, c, cap).held)|
  {
    hide Refused, KeyOf;
    if KeyOf(c) in u.held {
      RefusedSame(most, c, u.held, u.held[KeyOf(c) := c]);
    } else if |u.held| >= cap {
      RefusedOneMore(most, c, u.held);
    } else {
      RefusedNone(most, c, u.held);
    }
  }

  lemma RefusedSame(most: seq<Candidate>, c: Candidate, held: Held, after: Held)
    requires KeyOf(c) in held && after.Keys == held.Keys
    ensures Refused(most + [c], after) == Refused(most, held)
  {
    hide KeyOf;
  }

  lemma RefusedOneMore(most: seq<Candidate>, c: Candidate, held: Held)
    requires KeyOf(c) !in held
    ensures |Refused(most + [c], held)| == |Refused(most, held)| + 1
  {
    var before, after := Refused(most, held), Refused(most + [c], held);
    forall i: nat ensures i in after <==> i in before || i == |most| { RefusedAt(most, c, held, i); }
    RefusedAt(most, c, held, |most|);
    hide Refused, KeyOf;
    assert after == before + {|most|} && |most| !in before;
  }

  lemma RefusedAt(most: seq<Candidate>, c: Candidate, held: Held, i: nat)
    requires KeyOf(c) !in held
    ensures i in Refused(most + [c], held) <==> i in Refused(most, held) || i == |most|
    ensures |most| !in Refused(most, held)
  {
    hide KeyOf;
  }

  lemma RefusedNone(most: seq<Candidate>, c: Candidate, held: Held)
    requires Refused(most, held) == {}
    ensures Refused(most + [c], held[KeyOf(c) := c]) == {}
  {
    hide KeyOf;
    forall i: nat | i < |most| ensures KeyOf(most[i]) in held { assert i !in Refused(most, held); }
  }

  /** As long as there is room nothing was refused. */
  lemma NoneRefused(held: Held, batch: seq<Candidate>, cap: nat, u: Upserted)
    requires Filled(held, NewKeys(held, batch), cap, u) && (|u.held| < cap || |NewKeys(held, batch)| <= Room(held, cap))
    ensures Refused(batch, u.held) == {} && u.ids == NewKeys(held, batch)
  {
    NewKeysAre(held, batch);
    forall i | 0 <= i < |batch| ensures KeyOf(batch[i]) in u.held { assert Occurs(batch, KeyOf(batch[i])); }
  }

  /** Counted as rejected is exactly each candidate that is not held afterwards; every other one is new or an update. */
  lemma {:induction false} RejectedAreTheRest(held: Held, batch: seq<Candidate>, cap: nat)
    ensures UpsertAll(held, batch, cap).rejected == |Refused(batch, UpsertAll(held, batch, cap).held)|
  {
    hide Filled, Refused, UpsertOne;
    if |batch| == 0 {
      NoBatch(held);
    } else {
      var most, last := batch[..|batch| - 1], batch[|batch| - 1];
      RejectedAreTheRest(held, most, cap);
      AcceptedWhileRoom(held, most, cap);
      if |UpsertAll(held, most, cap).held| < cap { NoneRefused(held, most, cap, UpsertAll(held, most, cap)); }
      NextRefused(most, last, UpsertAll(held, most, cap), cap);
      assert batch == most + [last];
    }
  }

  lemma NoBatch(held: Held)
    ensures Refused([], held) == {}
  {
  }

  /** The last candidate of the batch with the key is at position i. */
  ghost predicate LastAt(batch: seq<Candidate>, k: CandidateKey, i: nat) {
    i < |batch| && KeyOf(batch[i]) == k && forall j :: i < j < |batch| ==> KeyOf(batch[j]) != k
  }

  /** The value under a key that is held is the last candidate of the batch with that key, or the old value. */
  lemma {:induction false} LastOneIsKept(held: Held, batch: seq<Candidate>, cap: nat, k: CandidateKey)
    requires k in UpsertAll(held, batch, cap).held
    ensures !Occurs(batch, k) ==> k in held && UpsertAll(held, batch, cap).held[k] == held[k]
    ensures forall i: nat :: LastAt(batch, k, i) ==> UpsertAll(held, batch, cap).held[k] == batch[i]
  {
    hide KeyOf;
    if |batch| > 0 {
      var most, last := batch[..|batch| - 1], batch[|batch| - 1];
      if KeyOf(last) == k {
        forall i: nat | LastAt(batch, k, i) ensures i == |most| { assert KeyOf(batch[|most|]) == k; }
      } else {
        OccursNext(batch, k);
        LastOneIsKept(held, most, cap, k);
        forall i: nat | LastAt(batch, k, i) ensures LastAt(most, k, i) { }
      }
    }
  }

  /** A first delivery of a batch under a valid lease: a candidate with a new key is accepted exactly as long as fewer than
      `maxCandidates` are held, so all of them if they fit, and none is rejected before the cap is reached. Every candidate
      is an update, a new id or a rejection. */
  lemma FirstDeliveryStores(crm: Crm, token: Token, now: nat, batch: seq<Candidate>, key: Key)
    requires ValidLease(crm.run, token, now) && key !in crm.idem
    ensures var (after, answer) := UpsertCandidates(crm, token, now, batch, key);
      var held, got, keys := crm.run.candidates, after.run.candidates, NewKeys(crm.run.candidates, batch);
      var taken := Min(|keys|, Room(held, crm.run.maxCandidates));
      && answer == Acked(Ack(taken, |Refused(batch, got)|, Some(|got|), keys[..taken]))
      && after == Crm(crm.run.(candidates := got), crm.idem[key := Candidates(batch)], crm.results[key := answer.ack])
      && UpsertCandidates(after, token, now, batch, key) == (after, answer)
      && |got| == |held| + taken && (forall k :: k in got <==> k in held || k in keys[..taken])
      && (Refused(batch, got) != {} ==> |got| >= crm.run.maxCandidates)
      && (forall k, i: nat :: k in got && LastAt(batch, k, i) ==> got[k] == batch[i])
      && forall k :: k in got && !Occurs(batch, k) ==> k in held && got[k] == held[k]
  {
    var held, cap := crm.run.candidates, crm.run.maxCandidates;
    var u := UpsertAll(held, batch, cap);
    AcceptedWhileRoom(held, batch, cap);
    RejectedAreTheRest(held, batch, cap);
    if |u.held| < cap { NoneRefused(held, batch, cap, u); }
    hide Refused, LastAt, Occurs;
    forall k | k in u.held
      ensures (!Occurs(batch, k) ==> k in held && u.held[k] == held[k]) && forall i: nat :: LastAt(batch, k, i) ==> u.held[k] == batch[i]
    {
      LastOneIsKept(held, batch, cap, k);
    }
  }

  /** If all the new keys fit, nothing is rejected and every candidate of the batch is held. */
  lemma WhatFitsIsHeld(crm: Crm, token: Token, now: nat, batch: seq<Candidate>, key: Key)
    requires ValidLease(crm.run, token, now) && key !in crm.idem
    requires |crm.run.candidates| + |NewKeys(crm.run.candidates, batch)| <= crm.run.maxCandidates
    ensures var (after, answer) := UpsertCandidates(crm, token, now, batch, key);
      && answer.ack.ids == NewKeys(crm.run.candidates, batch) && answer.ack.rejectedLimit == 0
      && forall c :: c in batch ==> KeyOf(c) in after.run.candidates
  {
    var held, cap := crm.run.candidates, crm.run.maxCandidates;
    var u := UpsertAll(held, batch, cap);
    AcceptedWhileRoom(held, batch, cap);
    RejectedAreTheRest(held, batch, cap);
    NoneRefused(held, batch, cap, u);
    forall i: nat | i < |batch| ensures KeyOf(batch[i]) in u.held { assert i !in Refused(batch, u.held); }
  }
}
