/**
 * The mod-11 check-digit scheme of Brazilian CPF and CNPJ numbers, stated on
 * digit strings: the weights each pass multiplies the digits by, the weighted
 * sum and the rule that turns a sum into a check digit.
 */
module CheckDigits {
  import opened JsNumber

  /** Every one of the first `n` characters of `s` is a digit. */
  predicate AllDigits(s: string, n: nat)
    requires n <= |s|
  {
    forall k | 0 <= k < n :: IsDigit(s[k])
  }

  /** `n` consecutive digits start at index `i` of `s`. */
  predicate RunAt(s: string, i: nat, n: nat)
    requires i + n <= |s|
  {
    forall k | i <= k < i + n :: IsDigit(s[k])
  }

  /** The unanchored `/\d{n}/.test(s)`: somewhere in `s` there are `n` consecutive digits. */
  predicate HasDigitRun(s: string, n: nat) {
    exists i: nat | i + n <= |s| :: RunAt(s, i, n)
  }

  /**
   * How a pass weighs the digit at each index. The CPF passes count down
   * from a fixed top weight; the CNPJ passes count down from a start weight
   * and jump back to 9 whenever the weight would fall below 2.
   */
  datatype Weighting = Descending(top: int) | Cycling(start: int)

  /** One step of the CNPJ weight: decrement, and wrap to 9 below 2. */
  function NextCycling(pos: int): int {
    if pos - 1 < 2 then 9 else pos - 1
  }

  function CyclingWeight(start: int, k: nat): int {
    if k == 0 then start else NextCycling(CyclingWeight(start, k - 1))
  }

  /** The weight a pass gives to the digit at index `k`. */
  function Weight(w: Weighting, k: nat): int {
    match w
    case Descending(top) => top - k
    case Cycling(start) => CyclingWeight(start, k)
  }

  /** The sum of the first `n` digits of `s`, each times its weight. */
  function WeightedSum(s: string, n: nat, w: Weighting): int
    requires n <= |s| && AllDigits(s, n)
  {
    if n == 0 then 0 else WeightedSum(s, n - 1, w) + DigitValue(s[n - 1]) * Weight(w, n - 1)
  }

  /**
   * The check digit of a weighted sum, `sum % 11 < 2 ? 0 : 11 - sum % 11`:
   * always a single decimal digit, and for a non-negative sum it is the
   * amount that brings the sum to a multiple of 11, or 0 when that amount
   * would be 10 or 11.
   */
  function CheckDigit(sum: int): (d: nat)
    ensures d <= 9
    ensures sum >= 0 ==> (d == 0 <==> sum % 11 < 2)
    ensures sum >= 0 && d != 0 ==> (sum + d) % 11 == 0
  {
    if JsRem(sum, 11) < 2 then 0 else 11 - JsRem(sum, 11)
  }

  /** The sum a JavaScript loop accumulates over the first `n` characters: NaN once a non-digit is met. */
  function PartialSum(s: string, n: nat, w: Weighting): Number
    requires n <= |s|
  {
    if AllDigits(s, n) then Num(WeightedSum(s, n, w)) else NaN
  }

  /** One more loop iteration adds the next character's parsed value times its weight. */
  lemma PartialSumStep(s: string, n: nat, w: Weighting)
    requires n < |s|
    ensures PartialSum(s, n + 1, w) == Plus(PartialSum(s, n, w), Times(ParseDigit(s[n]), Num(Weight(w, n))))
  {
    if AllDigits(s, n) && IsDigit(s[n]) {
      assert AllDigits(s, n + 1);
    }
  }

  /** The check-digit rule on a JavaScript number agrees with `CheckDigit` on a sum of digits. */
  lemma CheckDigitOfPartialSum(s: string, n: nat, w: Weighting)
    requires n <= |s|
    ensures CheckDigitOf(PartialSum(s, n, w)) ==
            if AllDigits(s, n) then Num(CheckDigit(WeightedSum(s, n, w))) else NaN
  {
  }

  /** A weighted sum reads only the first `n` characters. */
  lemma {:induction false} WeightedSumPrefix(s: string, t: string, n: nat, w: Weighting)
    requires n <= |s| && n <= |t| && s[..n] == t[..n] && AllDigits(s, n)
    ensures AllDigits(t, n)
    ensures WeightedSum(s, n, w) == WeightedSum(t, n, w)
  {
    assert forall k | 0 <= k < n :: s[k] == s[..n][k] == t[..n][k] == t[k];
    if n > 0 {
      assert s[..n - 1] == s[..n][..n - 1];
      assert t[..n - 1] == t[..n][..n - 1];
      WeightedSumPrefix(s, t, n - 1, w);
    }
  }

  /** Starting one step earlier in the cycle shifts every CNPJ weight by one index. */
  lemma {:induction false} CyclingWeightShift(start: int, k: nat)
    ensures CyclingWeight(start, k + 1) == CyclingWeight(NextCycling(start), k)
  {
    if k > 0 {
      CyclingWeightShift(start, k - 1);
    }
  }

  /**
   * A leading "0" contributes nothing to a CNPJ pass and hands every other
   * digit the weight it had without it.
   */
  lemma {:induction false} WeightedSumLeadingZero(s: string, n: nat, start: int)
    requires n <= |s| && AllDigits(s, n)
    ensures AllDigits("0" + s, n + 1)
    ensures WeightedSum("0" + s, n + 1, Cycling(start)) == WeightedSum(s, n, Cycling(NextCycling(start)))
  {
    var z := "0" + s;
    assert forall k | 1 <= k <= n :: z[k] == s[k - 1];
    assert AllDigits(z, n + 1);
    if n > 0 {
      WeightedSumLeadingZero(s, n - 1, start);
      CyclingWeightShift(start, n - 1);
      assert z[n] == s[n - 1];
    }
  }
}
