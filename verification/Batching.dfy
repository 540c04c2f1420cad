/** The batches of `upsert_integration_records` (app/hub/crm.py): in order, and as few as the limits allow. */
module Batching {
  const BATCH_SIZE := 25
  const MAX_PAYLOAD_BYTES := 64 * 1024

  /** A record and the length of its encoding in bytes. */
  datatype Record = Record(content: nat, encodedSize: nat)

  function Size(s: seq<Record>): nat {
    if |s| == 0 then 0 else Size(s[..|s| - 1]) + s[|s| - 1].encodedSize
  }

  /** At most 25 records, and at most 64 KiB unless it is a single record. */
  predicate Fits(s: seq<Record>) {
    1 <= |s| <= BATCH_SIZE && (|s| == 1 || Size(s) <= MAX_PAYLOAD_BYTES)
  }

  function Concat(batches: seq<seq<Record>>): seq<Record> {
    if |batches| == 0 then [] else batches[0] + Concat(batches[1..])
  }

  lemma {:induction false} SizeSplits(a: seq<Record>, b: seq<Record>)
    ensures Size(a + b) == Size(a) + Size(b)
  {
    if |b| == 0 {
      assert a + b == a;
    } else {
      assert (a + b)[..|a + b| - 1] == a + b[..|b| - 1];
      SizeSplits(a, b[..|b| - 1]);
    }
  }

  /** A non-empty part of a batch that fits, fits. */
  lemma PartFits(s: seq<Record>, i: nat, j: nat)
    requires Fits(s) && i < j <= |s|
    ensures Fits(s[i..j])
  {
    assert s == s[..i] + s[i..j] + s[j..];
    SizeSplits(s[..i] + s[i..j], s[j..]);
    SizeSplits(s[..i], s[i..j]);
  }

  /** The length of the longest batch that the records can start with, from k on. */
  function Longest(s: seq<Record>, k: nat): (r: nat)
    requires k <= |s| && Fits(s[..k])
    ensures k <= r <= |s| && Fits(s[..r]) && (r < |s| ==> !Fits(s[..r + 1]))
    decreases |s| - k
  {
    if k < |s| && Fits(s[..k + 1]) then Longest(s, k + 1) else k
  }

  function Greedy(s: seq<Record>): seq<seq<Record>> {
    if |s| == 0 then [] else
      var k := Longest(s, 1);
      [s[..k]] + Greedy(s[k..])
  }

  lemma {:induction false} LongestFrom(s: seq<Record>, k: nat)
    requires 1 <= k <= |s| && Fits(s[..k])
    ensures Longest(s, 1) == Longest(s, k)
    decreases k
  {
    if k > 1 {
      assert s[..k - 1] == s[..k][0..k - 1];
      PartFits(s[..k], 0, k - 1);
      LongestFrom(s, k - 1);
    }
  }

  /** A batch that fits and cannot take the next record is the first greedy batch. */
  lemma GreedyCuts(current: seq<Record>, rest: seq<Record>)
    requires Fits(current) && (|rest| > 0 ==> !Fits(current + [rest[0]]))
    ensures Greedy(current + rest) == [current] + Greedy(rest)
  {
    var s, k := current + rest, |current|;
    assert s[..k] == current && s[k..] == rest;
    if |rest| > 0 { assert s[..k + 1] == current + [rest[0]]; }
    LongestFrom(s, k);
  }

  lemma SizeOfOne(r: Record)
    ensures Size([r]) == r.encodedSize
  {
    assert [r][..0] == [];
  }

  /** The loop cuts exactly when the next record does not fit into the current batch. */
  lemma CutsWhenFull(current: seq<Record>, r: Record)
    requires |current| == 0 || Fits(current)
    ensures Size(current + [r]) == Size(current) + r.encodedSize && Fits([r])
    ensures Fits(current + [r]) <==>
              !(|current| >= BATCH_SIZE || (|current| > 0 && Size(current) + r.encodedSize > MAX_PAYLOAD_BYTES))
  {
    SizeSplits(current, [r]);
    SizeOfOne(r);
  }

  /** What is left to batch is the same with the next record in the current batch, or in a new one. */
  lemma Advances(records: seq<Record>, n: nat, batches: seq<seq<Record>>, current: seq<Record>)
    requires n < |records| && Greedy(records) == batches + Greedy(current + records[n..])
    ensures Greedy(records) == batches + Greedy((current + [records[n]]) + records[n + 1..])
    ensures Fits(current) && !Fits(current + [records[n]]) ==>
              Greedy(records) == (batches + [current]) + Greedy([records[n]] + records[n + 1..])
  {
    hide Greedy, Fits;
    var rest := records[n + 1..];
    assert records[n..] == [records[n]] + rest;
    assert current + records[n..] == (current + [records[n]]) + rest;
    if Fits(current) && !Fits(current + [records[n]]) {
      GreedyCuts(current, records[n..]);
      var tail := Greedy(records[n..]);
      assert batches + ([current] + tail) == (batches + [current]) + tail;
    }
  }

  method Batches(records: seq<Record>) returns (batches: seq<seq<Record>>)
    ensures batches == Greedy(records)
  {
    batches := [];
    if |records| == 0 { return; }
    NoRecords(records);
    hide Greedy, Size, Fits, Concat;
    var current: seq<Record> := [];
    var currentSize := 0;
    for n := 0 to |records|
      invariant currentSize == Size(current) && (if n == 0 then current == [] else |current| > 0 && Fits(current))
      invariant Greedy(records) == batches + Greedy(current + records[n..])
    {
      var record := records[n];
      CutsWhenFull(current, record);
      Advances(records, n, batches, current);
      var exceedsCount := |current| >= BATCH_SIZE;
      var exceedsSize := |current| > 0 && currentSize + record.encodedSize > MAX_PAYLOAD_BYTES;
      if exceedsCount || exceedsSize {
        batches := batches + [current];
        current := [];
        currentSize := 0;
        StartsAgain(record);
      }
      current := current + [record];
      currentSize := currentSize + record.encodedSize;
    }
    if |current| > 0 {
      GreedyEnds(records, current);
      batches := batches + [current];
    }
  }

  lemma StartsAgain(r: Record)
    ensures [] + [r] == [r] && Size([r]) == r.encodedSize && Fits([r])
  {
    SizeOfOne(r);
  }

  lemma GreedyEnds(records: seq<Record>, current: seq<Record>)
    requires Fits(current)
    ensures Greedy(current + records[|records|..]) == [current]
  {
    assert current + records[|records|..] == current + [];
    GreedyCuts(current, []);
  }

  lemma NoRecords(records: seq<Record>)
    ensures Greedy([]) == [] && Size([]) == 0 && [] + records[0..] == records
  {
  }

  // ---------- what the batches are ----------

  lemma {:induction false} GreedyIsAPartition(s: seq<Record>)
    ensures Concat(Greedy(s)) == s && forall b :: b in Greedy(s) ==> Fits(b)
    decreases |s|
  {
    if |s| > 0 {
      var k := Longest(s, 1);
      GreedyIsAPartition(s[k..]);
      assert s == s[..k] + s[k..];
    }
  }

  /** The batches join back to the records in order, and each is non-empty and within the limits. */
  lemma BatchesAreAPartition(records: seq<Record>)
    ensures var batches := Greedy(records);
      && Concat(batches) == records
      && forall b :: b in batches ==> 1 <= |b| <= 25 && (|b| == 1 || Size(b) <= 65536)
  {
    GreedyIsAPartition(records);
  }

  lemma FirstGreedy(t: seq<Record>)
    ensures t == [] ==> Greedy(t) == []
    ensures t != [] ==> Fits(t[..1]) && Greedy(t) == [t[..Longest(t, 1)]] + Greedy(t[Longest(t, 1)..])
  {
  }

  /** The greedy batches of what is left after skipping some records are no more than the parts of any partition. */
  lemma {:induction false} StaysAhead(s: seq<Record>, parts: seq<seq<Record>>, skip: nat)
    requires Concat(parts) == s && skip <= |s| && forall p :: p in parts ==> p == [] || Fits(p)
    ensures |Greedy(s[skip..])| <= |parts|
    decreases |parts|
  {
    hide Size, Fits, Greedy, Longest;
    FirstGreedy(s[skip..]);
    if skip < |s| {
      var p, rest := parts[0], Concat(parts[1..]);
      assert s == p + rest && p in parts;
      if skip >= |p| {
        assert s[skip..] == rest[skip - |p|..];
        StaysAhead(rest, parts[1..], skip - |p|);
      } else {
        var t := s[skip..];
        var k, m := Longest(t, 1), |p| - skip;
        PartFits(p, skip, |p|);
        assert t[..m] == p[skip..|p|];
        LongestFrom(t, m);
        assert t[k..] == rest[skip + k - |p|..];
        StaysAhead(rest, parts[1..], skip + k - |p|);
      }
    }
  }

  /** No partition of the records in order into parts of at most 25 records, and of at most 64 KiB or a single record,
      has fewer parts. */
  lemma BatchesAreFewest(records: seq<Record>, parts: seq<seq<Record>>)
    requires Concat(parts) == records && forall p :: p in parts ==> |p| <= 25 && (|p| <= 1 || Size(p) <= 65536)
    ensures |Greedy(records)| <= |parts|
  {
    forall p | p in parts ensures p == [] || Fits(p) { }
    StaysAhead(records, parts, 0);
    assert records[0..] == records;
  }
}
