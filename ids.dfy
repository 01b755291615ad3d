/** The ids the portal derives from the clock: documents take the whole millisecond count,
    consultancy cases only its last six digits. */
module Ids {
  import opened Text

  /** `CASE-${Date.now().toString().slice(-6)}`. */
  function CaseId(now: nat): string {
    "CASE-" + TakeLast(DecimalString(now), 6)
  }

  /** `doc-${Date.now()}`. */
  function DocumentId(now: nat): string {
    "doc-" + DecimalString(now)
  }

  /** A case id is `CASE-` followed by one to six decimal digits. */
  lemma CaseIdShape(now: nat)
    ensures var r := CaseId(now);
      6 <= |r| <= 11 && r[..5] == "CASE-" && forall i :: 5 <= i < |r| ==> '0' <= r[i] <= '9'
  {
    var s := DecimalString(now);
    var t := TakeLast(s, 6);
    var r := CaseId(now);
    assert r == "CASE-" + t;
    assert 1 <= |t| <= 6;
    forall i | 5 <= i < |r|
      ensures '0' <= r[i] <= '9'
    {
      assert r[i] == t[i - 5] == s[|s| - |t| + i - 5];
    }
  }

  /** A document id is `doc-` followed by the decimal digits of the clock. */
  lemma DocumentIdShape(now: nat)
    ensures var r := DocumentId(now);
      |r| >= 5 && r[..4] == "doc-" && forall i :: 4 <= i < |r| ==> '0' <= r[i] <= '9'
  {
    assert DocumentId(now)[4..] == DecimalString(now);
  }

  function Pow10(k: nat): (r: nat)
    ensures r >= 1
  {
    if k == 0 then 1 else 10 * Pow10(k - 1)
  }

  /** The last `k` decimal digits of `n`, with leading zeros. */
  function LastDigits(n: nat, k: nat): (r: string)
    ensures |r| == k
  {
    if k == 0 then [] else LastDigits(n / 10, k - 1) + [DigitChar(n % 10)]
  }

  lemma TakeLastSnoc(s: string, c: char, k: nat)
    requires k >= 1
    ensures TakeLast(s + [c], k) == TakeLast(s, k - 1) + [c]
  {
  }

  /** Once `n` has at least `k` digits, the last `k` characters of its decimal form are its last
      `k` digits. */
  lemma {:induction false} TakeLastDecimal(n: nat, k: nat)
    requires k >= 1 && n >= Pow10(k - 1)
    ensures TakeLast(DecimalString(n), k) == LastDigits(n, k)
  {
    if k == 1 {
      LastDigitOfDecimal(n);
    } else {
      var p := Pow10(k - 2);
      assert Pow10(k - 1) == 10 * p;
      assert n >= 10 && n / 10 >= p;
      TakeLastDecimal(n / 10, k - 1);
      var s, c := DecimalString(n / 10), DigitChar(n % 10);
      assert DecimalString(n) == s + [c];
      TakeLastSnoc(s, c, k);
      assert LastDigits(n, k) == LastDigits(n / 10, k - 1) + [c];
    }
  }

  lemma LastDigitOfDecimal(n: nat)
    ensures TakeLast(DecimalString(n), 1) == LastDigits(n, 1)
  {
    assert LastDigits(n, 1) == LastDigits(n / 10, 0) + [DigitChar(n % 10)];
    if n >= 10 {
      var s := DecimalString(n / 10);
      assert DecimalString(n) == s + [DigitChar(n % 10)];
      TakeLastSnoc(s, DigitChar(n % 10), 1);
      assert TakeLast(s, 0) == [];
    } else {
      assert n % 10 == n;
      assert DecimalString(n) == [DigitChar(n)];
    }
  }

  /** Adding a multiple of ten leaves the last digit alone and shifts the rest. */
  lemma DivModShift(n: nat, q: nat)
    ensures (n + 10 * q) / 10 == n / 10 + q && (n + 10 * q) % 10 == n % 10
  {
    var a, b := n / 10, n % 10;
    assert n == 10 * a + b && 0 <= b < 10;
    assert n + 10 * q == 10 * (a + q) + b;
  }

  /** The last `k` digits do not see `10^k`. */
  lemma {:induction false} LastDigitsPeriodic(n: nat, k: nat)
    ensures LastDigits(n + Pow10(k), k) == LastDigits(n, k)
  {
    if k > 0 {
      var q := Pow10(k - 1);
      var big := n + Pow10(k);
      assert big == n + 10 * q;
      DivModShift(n, q);
      assert big / 10 == n / 10 + q && big % 10 == n % 10;
      LastDigitsPeriodic(n / 10, k - 1);
      assert LastDigits(big, k) == LastDigits(big / 10, k - 1) + [DigitChar(big % 10)];
      assert LastDigits(n, k) == LastDigits(n / 10, k - 1) + [DigitChar(n % 10)];
    }
  }

  lemma SixDigits()
    ensures Pow10(5) == 100000 && Pow10(6) == 1000000
  {
  }

  /** Any number of periods of the six-digit clock. */
  lemma {:induction false} SixDigitsRepeat(n: nat, m: nat)
    ensures LastDigits(n + 1000000 * m, 6) == LastDigits(n, 6)
  {
    if m > 0 {
      var earlier := n + 1000000 * (m - 1);
      SixDigitsRepeat(n, m - 1);
      SixDigits();
      LastDigitsPeriodic(earlier, 6);
      assert n + 1000000 * m == earlier + Pow10(6);
    }
  }

  /** Case ids keep only six digits of the clock: two queries submitted a multiple of 1,000,000 ms
      apart (about 16 minutes 40 seconds) get the same id once the clock has six digits. */
  lemma CaseIdRepeats(now: nat, m: nat)
    requires now >= 100000
    ensures CaseId(now + 1000000 * m) == CaseId(now)
  {
    SixDigits();
    TakeLastDecimal(now, 6);
    TakeLastDecimal(now + 1000000 * m, 6);
    SixDigitsRepeat(now, m);
  }

  /** Document ids, in contrast, keep the whole clock: distinct times give distinct ids. */
  lemma DocumentIdsDistinct(t1: nat, t2: nat)
    requires t1 != t2
    ensures DocumentId(t1) != DocumentId(t2)
  {
    DecimalRoundTrip(t1);
    DecimalRoundTrip(t2);
    assert DocumentId(t1)[4..] == DecimalString(t1);
    assert DocumentId(t2)[4..] == DecimalString(t2);
  }
}
