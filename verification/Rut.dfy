/** Chilean tax numbers with a modulo-11 check character (app/normalization/rut.py). */
module Rut {
  import opened Contracts

  predicate IsDigit(c: char) { '0' <= c <= '9' }

  predicate Digits(s: string) { forall i :: 0 <= i < |s| ==> IsDigit(s[i]) }

  function Val(c: char): nat
    requires IsDigit(c)
  {
    (c - '0') as nat
  }

  function CharOf(d: nat): char
    requires d < 10
  {
    '0' + d as char
  }

  /** `str(number)`. */
  function Text(n: nat): (s: string)
    ensures Digits(s) && |s| > 0
    decreases n
  {
    if n < 10 then [CharOf(n)] else Text(n / 10) + [CharOf(n % 10)]
  }

  /** `int(text)`. */
  function Value(s: string): nat
    requires Digits(s)
  {
    if |s| == 0 then 0 else 10 * Value(s[..|s| - 1]) + Val(s[|s| - 1])
  }

  function Weight(i: nat): nat { 2 + i % 6 }

  /** The digits from right to left times 2, 3, 4, 5, 6, 7, 2, ... */
  function Total(s: string, shift: nat): nat
    requires Digits(s)
    decreases |s|
  {
    if |s| == 0 then 0 else Val(s[|s| - 1]) * Weight(shift) + Total(s[..|s| - 1], shift + 1)
  }

  function CheckOf(total: nat): char {
    var remainder := 11 - total % 11;
    if remainder == 11 then '0' else if remainder == 10 then 'K' else CharOf(remainder)
  }

  lemma WeightNext(i: nat)
    ensures Weight(i + 1) == (if Weight(i) < 7 then Weight(i) + 1 else 2) && Weight(0) == 2
  {
  }

  lemma TotalNext(s: string, i: nat, shift: nat)
    requires Digits(s) && i < |s|
    ensures Total(s[..i + 1], shift) == Val(s[i]) * Weight(shift) + Total(s[..i], shift + 1)
    ensures Total(s[..0], shift) == 0
  {
    assert s[..i + 1][..i] == s[..i];
  }

  method CheckDigit(number: nat) returns (c: char)
    ensures c == CheckOf(Total(Text(number), 0))
  {
    hide Weight, Total, Text;
    var text := Text(number);
    var total, multiplier := 0, 2;
    var i := |text|;
    WeightNext(0);
    assert text[..i] == text;
    while i > 0
      invariant 0 <= i <= |text| && multiplier == Weight(|text| - i)
      invariant total + Total(text[..i], |text| - i) == Total(text, 0)
    {
      i := i - 1;
      TotalNext(text, i, |text| - i - 1);
      WeightNext(|text| - i - 1);
      total := total + Val(text[i]) * multiplier;
      multiplier := if multiplier < 7 then multiplier + 1 else 2;
    }
    TotalNext(text, 0, |text|);
    var remainder := 11 - total % 11;
    if remainder == 11 { return '0'; }
    if remainder == 10 { return 'K'; }
    c := CharOf(remainder);
  }

  // ---------- normalize_rut ----------

  function Upper(c: char): char { if c == 'k' then 'K' else c }

  /** Only digits and K are left, k as K. */
  function Clean(raw: string): (s: string)
    ensures forall i :: 0 <= i < |s| ==> IsDigit(s[i]) || s[i] == 'K'
  {
    if |raw| == 0 then []
    else
      var c := Upper(raw[|raw| - 1]);
      Clean(raw[..|raw| - 1]) + if IsDigit(c) || c == 'K' then [c] else []
  }

  function Normalized(raw: Option<string>): Option<string> {
    if raw.None? || |Clean(raw.value)| < 2 then None
    else
      var s := Clean(raw.value);
      var body, given := s[..|s| - 1], s[|s| - 1];
      if !Digits(body) then None
      else if Value(body) == 0 || CheckOf(Total(Text(Value(body)), 0)) != given then None
      else Some(Text(Value(body)) + "-" + [given])
  }

  method NormalizeRut(raw: Option<string>) returns (r: Option<string>)
    ensures r == Normalized(raw)
  {
    if raw.None? { return None; }
    var cleaned := Clean(raw.value);
    if |cleaned| < 2 { return None; }
    var numberPart, givenCheck := cleaned[..|cleaned| - 1], cleaned[|cleaned| - 1];
    if !Digits(numberPart) { return None; }
    var number := Value(numberPart);
    if number <= 0 { return None; }
    var expected := CheckDigit(number);
    if expected != givenCheck { return None; }
    r := Some(Text(number) + "-" + [givenCheck]);
  }

  predicate Accepts(body: string, check: char)
    requires Digits(body)
  {
    Normalized(Some(body + [check])).Some?
  }

  // ---------- numbers and their digits ----------

  lemma {:induction false} ValueOfText(n: nat)
    ensures Value(Text(n)) == n
    decreases n
  {
    if n < 10 {
      assert Text(n)[..0] == [];
    } else {
      assert Text(n)[..|Text(n)| - 1] == Text(n / 10);
      ValueOfText(n / 10);
    }
  }

  lemma {:induction false} TotalOfText(s: string, shift: nat)
    requires Digits(s) && Value(s) > 0
    ensures Total(Text(Value(s)), shift) == Total(s, shift)
    decreases |s|
  {
    var init, d := s[..|s| - 1], Val(s[|s| - 1]);
    var n := Value(s);
    assert n / 10 == Value(init) && n % 10 == d;
    assert CharOf(d) == s[|s| - 1];
    if n < 10 {
      assert Value(init) == 0 && Text(n) == [CharOf(n)] && Text(n)[..0] == [];
      TotalOfZero(init, shift + 1);
    } else {
      assert Text(n)[..|Text(n)| - 1] == Text(n / 10);
      TotalOfText(init, shift + 1);
    }
  }

  lemma {:induction false} TotalOfZero(s: string, shift: nat)
    requires Digits(s) && Value(s) == 0
    ensures Total(s, shift) == 0
    decreases |s|
  {
    if |s| > 0 { TotalOfZero(s[..|s| - 1], shift + 1); }
  }

  lemma {:induction false} CleanOfDigits(s: string)
    requires Digits(s)
    ensures Clean(s) == s
  {
    if |s| > 0 {
      CleanOfDigits(s[..|s| - 1]);
      assert s == s[..|s| - 1] + [s[|s| - 1]];
    }
  }

  lemma CleanAppends(s: string, c: char)
    ensures Clean(s + [c]) == Clean(s) + if IsDigit(Upper(c)) || Upper(c) == 'K' then [Upper(c)] else []
  {
    assert (s + [c])[..|s|] == s;
  }

  predicate IsCheck(c: char) { IsDigit(c) || c == 'K' || c == 'k' }

  /** A body is accepted with a check character exactly if it is positive and the character is the one computed. */
  lemma AcceptsExactly(body: string, check: char)
    requires Digits(body) && |body| > 0 && IsCheck(check)
    ensures Accepts(body, check) <==> Value(body) > 0 && CheckOf(Total(body, 0)) == Upper(check)
  {
    CleanOfDigits(body);
    CleanAppends(body, check);
    assert Clean(body + [check])[..|body|] == body;
    if Value(body) > 0 { TotalOfText(body, 0); }
  }

  /** The value of a check character: K stands for ten. */
  function CheckValue(c: char): nat
    requires IsCheck(c)
  {
    if IsDigit(c) then Val(c) else 10
  }

  /** The weights from the last digit of the body on. */
  const WEIGHTS: seq<nat> := [2, 3, 4, 5, 6, 7]

  /** The digit at each place counts with the weight of its place, whatever the other digits are. */
  lemma {:induction false} TotalIsWeighted(s: string, p: nat, shift: nat)
    requires Digits(s) && p < |s|
    ensures Digits(s[p := '0'])
    ensures Total(s, shift) == Total(s[p := '0'], shift) + Val(s[p]) * WEIGHTS[(|s| - 1 - p + shift) % 6]
    decreases |s|
  {
    var t := s[p := '0'];
    if p == |s| - 1 {
      assert t[..|s| - 1] == s[..|s| - 1];
    } else {
      assert t[..|s| - 1] == s[..|s| - 1][p := '0'];
      TotalIsWeighted(s[..|s| - 1], p, shift + 1);
    }
  }

  lemma CheckCompletes(total: nat, c: char)
    requires IsCheck(c)
    ensures CheckOf(total) == Upper(c) <==> (total + CheckValue(c)) % 11 == 0
  {
    var r := total % 11;
    assert (total + CheckValue(c)) % 11 == (r + CheckValue(c)) % 11;
  }

  /** A number is accepted exactly if it is positive and its weighted sum and check value add up to a multiple of 11. */
  lemma AcceptedIffMultipleOf11(body: string, check: char)
    requires Digits(body) && |body| > 0 && IsCheck(check)
    ensures Accepts(body, check) <==> Value(body) > 0 && (Total(body, 0) + CheckValue(check)) % 11 == 0
  {
    hide Accepts, CheckOf, Total;
    AcceptsExactly(body, check);
    CheckCompletes(Total(body, 0), check);
  }

  /** Every positive body has exactly one check character, up to the case of k. */
  lemma ExactlyOneCheck(body: string)
    requires Digits(body) && Value(body) > 0
    ensures IsCheck(CheckOf(Total(body, 0))) && Accepts(body, CheckOf(Total(body, 0)))
    ensures forall c :: IsCheck(c) && Accepts(body, c) ==> Upper(c) == CheckOf(Total(body, 0))
  {
    AcceptsExactly(body, CheckOf(Total(body, 0)));
    forall c | IsCheck(c) && Accepts(body, c) ensures Upper(c) == CheckOf(Total(body, 0)) { AcceptsExactly(body, c); }
  }

  // ---------- the canonical form ----------

  lemma {:induction false} TextHasNoLeadingZero(n: nat)
    requires n > 0
    ensures Text(n)[0] != '0'
    decreases n
  {
    if n >= 10 { TextHasNoLeadingZero(n / 10); }
  }

  /** The accepted form has the digits of the number without leading zeros, a dash, and the check character as a capital. */
  lemma NormalForm(raw: Option<string>)
    requires Normalized(raw).Some?
    ensures var s, r := Clean(raw.value), Normalized(raw).value;
      && |r| >= 3 && r[|r| - 2] == '-' && r[|r| - 1] == s[|s| - 1] && Digits(r[..|r| - 2]) && r[0] != '0'
      && Digits(s[..|s| - 1]) && Value(r[..|r| - 2]) == Value(s[..|s| - 1])
  {
    var s, r := Clean(raw.value), Normalized(raw).value;
    var n := Value(s[..|s| - 1]);
    assert r[..|r| - 2] == Text(n);
    ValueOfText(n);
    TextHasNoLeadingZero(n);
  }

  lemma {:induction false} CleanJoins(a: string, b: string)
    ensures Clean(a + b) == Clean(a) + Clean(b)
  {
    if |b| == 0 {
      assert a + b == a;
    } else {
      assert (a + b)[..|a + b| - 1] == a + b[..|b| - 1];
      CleanJoins(a, b[..|b| - 1]);
    }
  }

  /** Dots, dashes, blanks and whatever else is neither a digit nor a K make no difference. */
  lemma PunctuationIsIgnored(a: string, c: char, b: string)
    requires !IsCheck(c)
    ensures Normalized(Some(a + [c] + b)) == Normalized(Some(a + b))
  {
    assert a + [c] + b == a + ([c] + b);
    CleanJoins(a, [c] + b);
    CleanJoins([c], b);
    CleanJoins(a, b);
    assert [c][..0] == [];
    assert Clean([c]) == [];
    assert Clean(a + [c] + b) == Clean(a) + Clean(b) == Clean(a + b);
    hide Clean;
  }

  // ---------- round trip ----------

  lemma TextOfValueClean(n: nat, check: char)
    requires IsDigit(check) || check == 'K'
    ensures Clean(Text(n) + "-" + [check]) == Text(n) + [check]
  {
    CleanOfDigits(Text(n));
    CleanAppends(Text(n), '-');
    assert Text(n) + "-" == Text(n) + ['-'];
    CleanAppends(Text(n) + "-", check);
  }

  /** Normalising an accepted number again changes nothing. */
  lemma NormalizeIsIdempotent(raw: Option<string>)
    requires Normalized(raw).Some?
    ensures Normalized(Normalized(raw)) == Normalized(raw)
  {
    var s := Clean(raw.value);
    var n, check := Value(s[..|s| - 1]), s[|s| - 1];
    TextOfValueClean(n, check);
    ValueOfText(n);
    assert (Text(n) + [check])[..|Text(n)|] == Text(n);
  }

  // ---------- error detection ----------

  /** Changing one digit changes the total by its weight for each unit. */
  lemma {:induction false} TotalChanges(s: string, p: nat, x: char, shift: nat)
    requires Digits(s) && p < |s| && IsDigit(x)
    ensures Digits(s[p := x])
    ensures Total(s[p := x], shift) - Total(s, shift) == (Val(x) - Val(s[p])) * Weight(|s| - 1 - p + shift)
    decreases |s|
  {
    var t := s[p := x];
    if p == |s| - 1 {
      assert t[..|s| - 1] == s[..|s| - 1];
      Distributes(Val(x), Val(s[p]), Weight(shift));
    } else {
      assert t[..|s| - 1] == s[..|s| - 1][p := x];
      TotalChanges(s[..|s| - 1], p, x, shift + 1);
    }
  }

  lemma Distributes(a: int, b: int, w: int)
    ensures a * w - b * w == (a - b) * w
  {
  }

  /** Equal check characters come from totals that agree modulo 11. */
  lemma CheckIsInjective(a: nat, b: nat)
    requires CheckOf(a) == CheckOf(b)
    ensures (a - b) % 11 == 0
  {
    assert a % 11 == b % 11;
  }

  /** A non-zero difference of two digits times a weight below 11 is not a multiple of 11. */
  lemma NotAMultiple(d: int, w: nat)
    requires -9 <= d <= 9 && d != 0 && 1 <= w <= 7
    ensures (d * w) % 11 != 0
  {
    if w == 1 {} else if w == 2 {} else if w == 3 {} else if w == 4 {} else if w == 5 {} else if w == 6 {} else {}
  }

  lemma OtherTotalIsRejected(a: string, b: string, check: char)
    requires Digits(a) && Digits(b) && |a| > 0 && |b| > 0 && IsCheck(check) && Accepts(a, check)
    requires (Total(b, 0) - Total(a, 0)) % 11 != 0
    ensures !Accepts(b, check)
  {
    hide Accepts, CheckOf, Total;
    AcceptsExactly(a, check);
    AcceptsExactly(b, check);
    if CheckOf(Total(b, 0)) == CheckOf(Total(a, 0)) { CheckIsInjective(Total(b, 0), Total(a, 0)); }
  }

  /** Replacing one digit of an accepted number is always detected. */
  lemma ReplacedDigitIsRejected(body: string, check: char, p: nat, x: char)
    requires Digits(body) && IsCheck(check) && Accepts(body, check) && p < |body| && IsDigit(x) && x != body[p]
    ensures Digits(body[p := x]) && !Accepts(body[p := x], check)
  {
    TotalChanges(body, p, x, 0);
    NotAMultiple(Val(x) - Val(body[p]), Weight(|body| - 1 - p));
    OtherTotalIsRejected(body, body[p := x], check);
  }

  function Swapped(s: string, p: nat): string
    requires p + 1 < |s|
  {
    s[p := s[p + 1]][p + 1 := s[p]]
  }

  /** Neighbouring weights differ by one, or by five where the cycle starts again. */
  lemma WeightsDiffer(i: nat, d: int)
    requires -9 <= d <= 9 && d != 0
    ensures (d * Weight(i + 1) - d * Weight(i)) % 11 != 0
  {
    Distributes(Weight(i + 1), Weight(i), d);
    if i % 6 == 5 {
      assert Weight(i + 1) == 2 && Weight(i) == 7;
      NotAMultiple(d, 5);
    } else {
      assert Weight(i + 1) == Weight(i) + 1;
      NotAMultiple(d, 1);
    }
  }

  /** Swapping two unequal neighbouring digits of an accepted number is always detected. */
  lemma SwappedDigitsAreRejected(body: string, check: char, p: nat)
    requires Digits(body) && IsCheck(check) && Accepts(body, check) && p + 1 < |body| && body[p] != body[p + 1]
    ensures Digits(Swapped(body, p)) && !Accepts(Swapped(body, p), check)
  {
    var once := body[p := body[p + 1]];
    TotalChanges(body, p, body[p + 1], 0);
    TotalChanges(once, p + 1, body[p], 0);
    var i, d := |body| - 2 - p, Val(body[p + 1]) - Val(body[p]);
    Negates(d, Weight(i));
    WeightsDiffer(i, d);
    OtherTotalIsRejected(body, Swapped(body, p), check);
  }

  lemma Negates(d: int, w: int)
    ensures (-d) * w == -(d * w)
  {
  }
}
