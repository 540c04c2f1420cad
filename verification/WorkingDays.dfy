/** Counting working days forwards and backwards, for any pattern of working days that never runs out. */
module WorkingDays {
  ghost predicate Around(w: int -> bool, n: int) {
    (exists t :: n < t && w(t)) && (exists t :: t < n && w(t))
  }

  ghost predicate Endless(w: int -> bool) { forall n :: Around(w, n) }

  ghost function Up(w: int -> bool, n: int, t: int): (r: int)
    requires n < t && w(t)
    ensures n < r <= t && w(r) && forall d :: n < d < r ==> !w(d)
    decreases t - n
  {
    if w(n + 1) then n + 1 else Up(w, n + 1, t)
  }

  ghost function Down(w: int -> bool, n: int, t: int): (r: int)
    requires t < n && w(t)
    ensures t <= r < n && w(r) && forall d :: r < d < n ==> !w(d)
    decreases n - t
  {
    if w(n - 1) then n - 1 else Down(w, n - 1, t)
  }

  /** The first working day after n, and the last one before it. */
  ghost function Next(w: int -> bool, n: int): (r: int)
    requires Endless(w)
    ensures n < r && w(r) && forall d :: n < d < r ==> !w(d)
  {
    assert Around(w, n);
    var t :| n < t && w(t);
    Up(w, n, t)
  }

  ghost function Prev(w: int -> bool, n: int): (r: int)
    requires Endless(w)
    ensures r < n && w(r) && forall d :: r < d < n ==> !w(d)
  {
    assert Around(w, n);
    var t :| t < n && w(t);
    Down(w, n, t)
  }

  ghost function AddDays(w: int -> bool, n: int, k: int): int
    requires Endless(w)
    decreases k
  {
    if k <= 0 then n else AddDays(w, Next(w, n), k - 1)
  }

  ghost function SubDays(w: int -> bool, n: int, k: int): int
    requires Endless(w)
    decreases k
  {
    if k <= 0 then n else SubDays(w, Prev(w, n), k - 1)
  }

  /** One day at a time: a working day is counted, any other is skipped. */
  lemma StepUp(w: int -> bool, n: int, k: int)
    requires Endless(w) && k > 0
    ensures AddDays(w, n, k) == AddDays(w, n + 1, if w(n + 1) then k - 1 else k)
    ensures Next(w, n) == if w(n + 1) then n + 1 else Next(w, n + 1)
  {
    hide Next, Endless;
  }

  lemma StepDown(w: int -> bool, n: int, k: int)
    requires Endless(w) && k > 0
    ensures SubDays(w, n, k) == SubDays(w, n - 1, if w(n - 1) then k - 1 else k)
    ensures Prev(w, n) == if w(n - 1) then n - 1 else Prev(w, n - 1)
  {
    hide Prev, Endless;
  }

  lemma NoDays(w: int -> bool, n: int, k: int)
    requires Endless(w) && k <= 0
    ensures AddDays(w, n, k) == n && SubDays(w, n, k) == n
  {
  }

  lemma PrevOfNext(w: int -> bool, n: int)
    requires Endless(w)
    ensures Prev(w, Next(w, n)) == if w(n) then n else Prev(w, n)
  {
    hide Next, Prev, Endless;
  }

  lemma NextOfPrev(w: int -> bool, n: int)
    requires Endless(w)
    ensures Next(w, Prev(w, n)) == if w(n) then n else Next(w, n)
  {
    hide Next, Prev, Endless;
  }

  lemma {:induction false} AddWorks(w: int -> bool, n: int, k: int)
    requires Endless(w) && k >= 1
    ensures w(AddDays(w, n, k)) && AddDays(w, n, k) == Next(w, AddDays(w, n, k - 1))
    decreases k
  {
    hide Next, Endless;
    if k > 1 { AddWorks(w, Next(w, n), k - 1); }
  }

  lemma {:induction false} SubWorks(w: int -> bool, n: int, k: int)
    requires Endless(w) && k >= 1
    ensures w(SubDays(w, n, k)) && SubDays(w, n, k) == Prev(w, SubDays(w, n, k - 1))
    decreases k
  {
    hide Prev, Endless;
    if k > 1 { SubWorks(w, Prev(w, n), k - 1); }
  }

  lemma {:induction false} SubOfAdd(w: int -> bool, n: int, k: int)
    requires Endless(w) && k >= 1
    ensures SubDays(w, AddDays(w, n, k), k) == if w(n) then n else Prev(w, n)
    decreases k
  {
    hide Next, Prev, Endless;
    AddWorks(w, n, k);
    PrevOfNext(w, AddDays(w, n, k - 1));
    if k > 1 {
      AddWorks(w, n, k - 1);
      SubOfAdd(w, n, k - 1);
    }
  }

  lemma {:induction false} AddOfSub(w: int -> bool, n: int, k: int)
    requires Endless(w) && k >= 1
    ensures AddDays(w, SubDays(w, n, k), k) == if w(n) then n else Next(w, n)
    decreases k
  {
    hide Next, Prev, Endless;
    SubWorks(w, n, k);
    NextOfPrev(w, SubDays(w, n, k - 1));
    if k > 1 {
      SubWorks(w, n, k - 1);
      AddOfSub(w, n, k - 1);
    }
  }

  lemma NextGrows(w: int -> bool, m: int, n: int)
    requires Endless(w) && m <= n
    ensures Next(w, m) <= Next(w, n)
  {
    hide Next, Endless;
  }

  lemma {:induction false} AddGrows(w: int -> bool, m: int, n: int, k: int)
    requires Endless(w) && m <= n
    ensures AddDays(w, m, k) <= AddDays(w, n, k)
    decreases k
  {
    if k > 0 {
      NextGrows(w, m, n);
      AddGrows(w, Next(w, m), Next(w, n), k - 1);
    }
  }

  // ---------- how many working days ----------

  /** The working days after m up to n. */
  ghost function Between(w: int -> bool, m: int, n: int): set<int> { set d | m < d <= n && w(d) }

  lemma BetweenNext(w: int -> bool, m: int, n: int, next: int)
    requires m <= n < next && w(next) && forall d :: n < d < next ==> !w(d)
    ensures |Between(w, m, next)| == |Between(w, m, n)| + 1
  {
    assert Between(w, m, next) == Between(w, m, n) + {next};
  }

  /** Between a day and the k-th working day after it there are exactly k working days. */
  lemma {:induction false} AddCounts(w: int -> bool, n: int, k: nat)
    requires Endless(w)
    ensures n <= AddDays(w, n, k) && |Between(w, n, AddDays(w, n, k))| == k
    decreases k
  {
    hide Next, Endless, Between;
    if k == 0 {
      NoneBetween(w, n);
    } else {
      AddCounts(w, n, k - 1);
      AddWorks(w, n, k);
      BetweenNext(w, n, AddDays(w, n, k - 1), AddDays(w, n, k));
    }
  }

  lemma NoneBetween(w: int -> bool, n: int)
    ensures Between(w, n, n) == {}
  {
  }

  lemma BetweenPrev(w: int -> bool, m: int, n: int, prev: int)
    requires prev < m <= n && w(prev) && forall d :: prev < d < m ==> !w(d)
    ensures |Between(w, prev - 1, n - 1)| == |Between(w, m - 1, n - 1)| + 1
  {
    var more, less := Between(w, prev - 1, n - 1), Between(w, m - 1, n - 1);
    forall d ensures d in more <==> d in less || d == prev { assert prev < d < m ==> !w(d); }
    assert more == less + {prev} && prev !in less;
  }

  /** From the k-th working day before a day up to the day before it there are exactly k working days. */
  lemma {:induction false} SubCounts(w: int -> bool, n: int, k: nat)
    requires Endless(w)
    ensures SubDays(w, n, k) <= n && |Between(w, SubDays(w, n, k) - 1, n - 1)| == k
    decreases k
  {
    hide Prev, Endless, Between;
    if k == 0 {
      NoneBetween(w, n - 1);
    } else {
      SubCounts(w, n, k - 1);
      SubWorks(w, n, k);
      BetweenPrev(w, SubDays(w, n, k - 1), n, SubDays(w, n, k));
    }
  }
}
