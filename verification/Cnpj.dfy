/**
 The check digits of a CNPJ (`companies/cnpj.py`): which pair completes a base, and
 exactly which single-digit changes and adjacent swaps the two digits fail to catch.
 */
module Cnpj {

  predicate IsDigit(c: char) {
    '0' <= c <= '9'
  }

  predicate AllDigits(s: string) {
    forall i :: 0 <= i < |s| ==> IsDigit(s[i])
  }

  function Value(c: char): nat
    requires IsDigit(c)
  {
    c as int - '0' as int
  }

  const WEIGHTS_DV1: seq<int> := [5, 4, 3, 2, 9, 8, 7, 6, 5, 4, 3, 2]
  const WEIGHTS_DV2: seq<int> := [6, 5, 4, 3, 2, 9, 8, 7, 6, 5, 4, 3, 2]

  /** The weighted sum over the pairs of a digit and its weight. */
  function Weighted(digits: string, weights: seq<int>): int
    requires AllDigits(digits)
  {
    if digits == [] || weights == [] then 0
    else Value(digits[0]) * weights[0] + Weighted(digits[1..], weights[1..])
  }

  function CheckDigit(digits: string, weights: seq<int>): (d: char)
    requires AllDigits(digits)
    ensures IsDigit(d)
  {
    var rest := Weighted(digits, weights) % 11;
    if rest < 2 then '0' else '0' + (11 - rest) as char
  }

  /** The arithmetic test on fourteen digits. */
  predicate Passes(cnpj: string)
    requires |cnpj| == 14 && AllDigits(cnpj)
  {
    cnpj[12] == CheckDigit(cnpj[..12], WEIGHTS_DV1) && cnpj[13] == CheckDigit(cnpj[..13], WEIGHTS_DV2)
  }

  predicate Repeated(cnpj: string)
    requires |cnpj| > 0
  {
    forall i :: 0 <= i < |cnpj| ==> cnpj[i] == cnpj[0]
  }

  predicate IsValidCnpj(cnpj: string) {
    |cnpj| == 14 && AllDigits(cnpj) && !Repeated(cnpj) && Passes(cnpj)
  }

  /** The remainders of the two sums of a CNPJ. */
  function Rest1(cnpj: string): nat
    requires |cnpj| == 14 && AllDigits(cnpj)
  {
    Weighted(cnpj[..12], WEIGHTS_DV1) % 11
  }

  function Rest2(cnpj: string): nat
    requires |cnpj| == 14 && AllDigits(cnpj)
  {
    Weighted(cnpj[..13], WEIGHTS_DV2) % 11
  }

  /** Every base of twelve digits is completed by exactly one pair of check digits. */
  lemma OnePairPerBase(base: string)
    requires |base| == 12 && AllDigits(base)
    ensures exists a, b :: IsDigit(a) && IsDigit(b) && Passes(base + [a, b])
    ensures forall a, b, c, d ::
              IsDigit(a) && IsDigit(b) && IsDigit(c) && IsDigit(d) && Passes(base + [a, b]) && Passes(base + [c, d])
              ==> a == c && b == d
  {
    var dv1 := CheckDigit(base, WEIGHTS_DV1);
    var dv2 := CheckDigit(base + [dv1], WEIGHTS_DV2);
    forall a, b | IsDigit(a) && IsDigit(b) ensures Passes(base + [a, b]) <==> a == dv1 && b == dv2 {
      assert (base + [a, b])[..12] == base;
      assert (base + [a, b])[..13] == base + [a];
    }
    assert Passes(base + [dv1, dv2]);
  }

  /** The sum of `k` weights from position `i` on. */
  function SumFrom(weights: seq<int>, i: nat, k: nat): int
    requires i + k <= |weights|
    decreases k
  {
    if k == 0 then 0 else weights[i] + SumFrom(weights, i + 1, k - 1)
  }

  lemma {:induction false} RepeatedWeight(digits: string, weights: seq<int>, i: nat, c: char)
    requires IsDigit(c) && i + |digits| <= |weights| && forall j :: 0 <= j < |digits| ==> digits[j] == c
    ensures Weighted(digits, weights[i..]) == Value(c) * SumFrom(weights, i, |digits|)
  {
    if digits != [] {
      RepeatedWeight(digits[1..], weights, i + 1, c);
      assert weights[i..][1..] == weights[i + 1..];
      assert Value(c) * (weights[i] + SumFrom(weights, i + 1, |digits| - 1)) ==
             Value(c) * weights[i] + Value(c) * SumFrom(weights, i + 1, |digits| - 1);
    }
  }

  lemma SumsOfWeights()
    ensures SumFrom(WEIGHTS_DV1, 0, 12) == 58 && SumFrom(WEIGHTS_DV2, 0, 13) == 64
  {
  }

  /** The two remainders of a repeated digit. */
  lemma RestsOfRepeated(cnpj: string)
    requires |cnpj| == 14 && AllDigits(cnpj) && Repeated(cnpj)
    ensures Rest1(cnpj) == Value(cnpj[0]) * 58 % 11 && Rest2(cnpj) == Value(cnpj[0]) * 64 % 11
  {
    RepeatedWeight(cnpj[..12], WEIGHTS_DV1, 0, cnpj[0]);
    RepeatedWeight(cnpj[..13], WEIGHTS_DV2, 0, cnpj[0]);
    assert WEIGHTS_DV1[0..] == WEIGHTS_DV1 && WEIGHTS_DV2[0..] == WEIGHTS_DV2;
    SumsOfWeights();
  }

  lemma RepeatedDigitShows(d: char)
    requires IsDigit(d)
    ensures Shows(d, Value(d) * 58 % 11) && Shows(d, Value(d) * 64 % 11) <==> d == '0'
  {
  }

  /**
   Of the fourteen-digit texts that repeat one digit the two check digits let through exactly
   fourteen zeros, so that is all the extra test refuses.
   */
  lemma RepeatedPassesIffZeros(cnpj: string)
    requires |cnpj| == 14 && AllDigits(cnpj) && Repeated(cnpj)
    ensures Passes(cnpj) <==> cnpj[0] == '0'
    ensures !IsValidCnpj(cnpj)
  {
    RestsOfRepeated(cnpj);
    RepeatedDigitShows(cnpj[0]);
    PassesByRests(cnpj);
  }

  /** A CNPJ is fourteen digits that pass the test, but for fourteen zeros. */
  lemma ValidIff(cnpj: string)
    ensures IsValidCnpj(cnpj) <==>
              |cnpj| == 14 && AllDigits(cnpj) && (exists i :: 0 <= i < 14 && cnpj[i] != '0') &&
              Shows(cnpj[12], Rest1(cnpj)) && Shows(cnpj[13], Rest2(cnpj))
  {
    if |cnpj| == 14 && AllDigits(cnpj) {
      PassesByRests(cnpj);
      if Repeated(cnpj) {
        RepeatedPassesIffZeros(cnpj);
      }
    }
  }

  // ---------------------------------------------------------------------------
  // What one change does to the remainders
  // ---------------------------------------------------------------------------

  function Delta(from: char, to: char): int
    requires IsDigit(from) && IsDigit(to)
  {
    Value(to) - Value(from)
  }

  lemma {:induction false} WeightedAfterChange(digits: string, weights: seq<int>, i: nat, d: char)
    requires AllDigits(digits) && IsDigit(d) && i < |digits| <= |weights|
    ensures AllDigits(digits[i := d])
    ensures Weighted(digits[i := d], weights) == Weighted(digits, weights) + weights[i] * Delta(digits[i], d)
  {
    if i == 0 {
      assert digits[0 := d][1..] == digits[1..];
      assert weights[0] * Delta(digits[0], d) == Value(d) * weights[0] - Value(digits[0]) * weights[0];
    } else {
      WeightedAfterChange(digits[1..], weights[1..], i - 1, d);
      assert digits[i := d][1..] == digits[1..][i - 1 := d];
    }
  }

  /** A change of a base digit moves the two sums by its own two weights. */
  lemma RestsAfterChange(cnpj: string, i: nat, d: char)
    requires |cnpj| == 14 && AllDigits(cnpj) && i < 12 && IsDigit(d)
    ensures AllDigits(cnpj[i := d])
    ensures Rest1(cnpj[i := d]) == (Rest1(cnpj) + WEIGHTS_DV1[i] * Delta(cnpj[i], d)) % 11
    ensures Rest2(cnpj[i := d]) == (Rest2(cnpj) + WEIGHTS_DV2[i] * Delta(cnpj[i], d)) % 11
  {
    assert cnpj[i := d][..12] == cnpj[..12][i := d];
    assert cnpj[i := d][..13] == cnpj[..13][i := d];
    WeightedAfterChange(cnpj[..12], WEIGHTS_DV1, i, d);
    WeightedAfterChange(cnpj[..13], WEIGHTS_DV2, i, d);
    ModShift(Weighted(cnpj[..12], WEIGHTS_DV1), WEIGHTS_DV1[i] * Delta(cnpj[i], d));
    ModShift(Weighted(cnpj[..13], WEIGHTS_DV2), WEIGHTS_DV2[i] * Delta(cnpj[i], d));
  }

  /** Two changes at different positions, one after the other, by the amounts `x` and `y`. */
  lemma RestsAfterTwo(cnpj: string, i: nat, a: char, x: int, j: nat, b: char, y: int)
    requires |cnpj| == 14 && AllDigits(cnpj) && i < 12 && j < 12 && i != j && IsDigit(a) && IsDigit(b)
    requires x == Delta(cnpj[i], a) && y == Delta(cnpj[j], b)
    ensures AllDigits(cnpj[i := a][j := b])
    ensures Rest1(cnpj[i := a][j := b]) == ((Rest1(cnpj) + WEIGHTS_DV1[i] * x) % 11 + WEIGHTS_DV1[j] * y) % 11
    ensures Rest2(cnpj[i := a][j := b]) == ((Rest2(cnpj) + WEIGHTS_DV2[i] * x) % 11 + WEIGHTS_DV2[j] * y) % 11
  {
    RestsAfterChange(cnpj, i, a);
    RestsAfterChange(cnpj[i := a], j, b);
  }

  lemma ModShift(s: int, k: int)
    ensures (s + k) % 11 == (s % 11 + k) % 11
  {
    var q := s / 11;
    assert s == 11 * q + s % 11;
    assert (s + k) - (s % 11 + k) == 11 * q;
  }

  /** The test on the remainders: a check digit shows its remainder, except that 0 and 1 look alike. */
  lemma PassesByRests(cnpj: string)
    requires |cnpj| == 14 && AllDigits(cnpj)
    ensures Passes(cnpj) <==> Shows(cnpj[12], Rest1(cnpj)) && Shows(cnpj[13], Rest2(cnpj))
  {
  }

  predicate Shows(d: char, rest: nat) {
    if rest < 2 then d == '0' else rest <= 10 && IsDigit(d) && Value(d) == 11 - rest
  }

  // ---------------------------------------------------------------------------
  // What the check digits miss
  // ---------------------------------------------------------------------------

  /**
   The changes of one digit that leave both remainders among 0 and 1: only at the first,
   fifth and ninth position, and only by amounts that make the two remainders trade places.
   */
  predicate Trades(i: nat, delta: int, rest1: nat, rest2: nat) {
    if i == 0 || i == 8 then
      (rest1 == 1 && rest2 == 0 && (delta == 2 || delta == -9)) ||
      (rest1 == 0 && rest2 == 1 && (delta == -2 || delta == 9))
    else if i == 4 then
      (rest1 == 1 && rest2 == 0 && (delta == 6 || delta == -5)) ||
      (rest1 == 0 && rest2 == 1 && (delta == -6 || delta == 5))
    else false
  }

  /** No digit change makes a weighted sum move by a multiple of 11. */
  lemma WeightTimesDelta(w: int, delta: int)
    requires 2 <= w <= 9 && -9 <= delta <= 9 && delta != 0
    ensures (w * delta) % 11 != 0
  {
    var m := w * delta;
    if m % 11 == 0 {
      var q := m / 11;
      assert m == 11 * q;
      NoMultiple(w, delta, q);
    }
  }

  lemma NoMultiple(w: int, delta: int, q: int)
    requires 2 <= w <= 9 && -9 <= delta <= 9 && delta != 0
    ensures w * delta != 11 * q
  {
    if w == 2 {
      assert w * delta == 2 * delta;
    } else if w == 3 {
      assert w * delta == 3 * delta;
    } else if w == 4 {
      assert w * delta == 4 * delta;
    } else if w == 5 {
      assert w * delta == 5 * delta;
    } else if w == 6 {
      assert w * delta == 6 * delta;
    } else if w == 7 {
      assert w * delta == 7 * delta;
    } else if w == 8 {
      assert w * delta == 8 * delta;
    } else {
      assert w * delta == 9 * delta;
    }
  }

  /** The step between 0 and 1 that a remainder can make and still show as 0. */
  function StepOf(rest: nat): nat {
    if rest == 0 then 1 else 10
  }

  /** Two consecutive weights: both sums step between 0 and 1 only for the weights 5 and 6. */
  lemma ConsecutiveWeights(w: int, delta: int, rest1: nat, rest2: nat)
    requires 2 <= w <= 8 && -9 <= delta <= 9 && delta != 0 && rest1 < 2 && rest2 < 2
    ensures (w * delta) % 11 == StepOf(rest1) && ((w + 1) * delta) % 11 == StepOf(rest2) <==>
            w == 5 && Trades(0, delta, rest1, rest2)
  {
    assert (w + 1) * delta == w * delta + delta;
    ModShift(w * delta, delta);
    if delta == 2 {
      assert w * delta == 2 * w;
    } else if delta == -2 {
      assert w * delta == -2 * w;
    } else if delta == 9 {
      assert w * delta == 9 * w;
    } else if delta == -9 {
      assert w * delta == -9 * w;
    }
  }

  /** The fifth digit weighs 9 in the first sum and 2 in the second. */
  lemma JumpingWeights(delta: int, rest1: nat, rest2: nat)
    requires -9 <= delta <= 9 && delta != 0 && rest1 < 2 && rest2 < 2
    ensures (9 * delta) % 11 == StepOf(rest1) && (2 * delta) % 11 == StepOf(rest2) <==> Trades(4, delta, rest1, rest2)
  {
  }

  /** A digit shows a shifted remainder as well only when it is 0 and the shift steps between 0 and 1. */
  lemma ShownAfterShift(d: char, rest: nat, shift: int)
    requires rest < 11 && Shows(d, rest) && shift % 11 != 0
    ensures Shows(d, (rest + shift) % 11) <==> d == '0' && shift % 11 == StepOf(rest)
  {
    ModShift(shift, rest);
    assert rest + shift == shift + rest;
  }

  lemma ChangeResidues(i: nat, delta: int, rest1: nat, rest2: nat)
    requires i < 12 && rest1 < 2 && rest2 < 2 && -9 <= delta <= 9 && delta != 0
    ensures (WEIGHTS_DV1[i] * delta) % 11 == StepOf(rest1) && (WEIGHTS_DV2[i] * delta) % 11 == StepOf(rest2) <==>
            Trades(i, delta, rest1, rest2)
  {
    if i == 4 {
      JumpingWeights(delta, rest1, rest2);
    } else {
      ConsecutiveWeights(WEIGHTS_DV1[i], delta, rest1, rest2);
    }
  }

  /**
   Changing one digit of a valid CNPJ gives a valid CNPJ exactly when both check digits
   are 0 and the change is one that `Trades` names.
   */
  lemma OneChangedDigit(cnpj: string, i: nat, d: char)
    requires IsValidCnpj(cnpj) && i < 14 && IsDigit(d) && d != cnpj[i]
    ensures IsValidCnpj(cnpj[i := d]) <==>
              cnpj[12] == '0' && cnpj[13] == '0' && Trades(i, Delta(cnpj[i], d), Rest1(cnpj), Rest2(cnpj))
  {
    var changed := cnpj[i := d];
    if i >= 12 {
      assert changed[..12] == cnpj[..12];
      assert i == 13 ==> changed[..13] == cnpj[..13];
    } else {
      PassesAfterChange(cnpj, i, d);
      if Passes(changed) && Repeated(changed) {
        ZerosWeighNothing(changed[..12], WEIGHTS_DV1);
        ZerosWeighNothing(changed[..13], WEIGHTS_DV2);
        RestsAfterChange(cnpj, i, d);
      }
    }
  }

  lemma PassesAfterChange(cnpj: string, i: nat, d: char)
    requires |cnpj| == 14 && AllDigits(cnpj) && Passes(cnpj) && i < 12 && IsDigit(d) && d != cnpj[i]
    ensures AllDigits(cnpj[i := d])
    ensures Passes(cnpj[i := d]) <==>
              cnpj[12] == '0' && cnpj[13] == '0' && Trades(i, Delta(cnpj[i], d), Rest1(cnpj), Rest2(cnpj))
  {
    var delta := Delta(cnpj[i], d);
    RestsAfterChange(cnpj, i, d);
    PassesByRests(cnpj);
    PassesByRests(cnpj[i := d]);
    WeightTimesDelta(WEIGHTS_DV1[i], delta);
    WeightTimesDelta(WEIGHTS_DV2[i], delta);
    ShownAfterShift(cnpj[12], Rest1(cnpj), WEIGHTS_DV1[i] * delta);
    ShownAfterShift(cnpj[13], Rest2(cnpj), WEIGHTS_DV2[i] * delta);
    if cnpj[12] == '0' && cnpj[13] == '0' {
      ChangeResidues(i, delta, Rest1(cnpj), Rest2(cnpj));
    }
  }

  /** Repeated zeros have two remainders of 0. */
  lemma {:induction false} ZerosWeighNothing(digits: string, weights: seq<int>)
    requires forall i :: 0 <= i < |digits| ==> digits[i] == '0'
    ensures Weighted(digits, weights) == 0
  {
    if digits != [] && weights != [] {
      ZerosWeighNothing(digits[1..], weights[1..]);
    }
  }

  // ---------------------------------------------------------------------------
  // Swapped neighbours
  // ---------------------------------------------------------------------------

  /** The swaps of neighbours that leave both remainders among 0 and 1. */
  predicate SwapTrades(i: nat, delta: int, rest1: nat, rest2: nat) {
    i != 3 && i != 4 && ((rest1 == 0 && rest2 == 0 && delta == 1) || (rest1 == 1 && rest2 == 1 && delta == -1))
  }

  function Swapped(cnpj: string, i: nat): string
    requires i + 1 < |cnpj|
  {
    cnpj[i := cnpj[i + 1]][i + 1 := cnpj[i]]
  }

  /** How much a swap moves the two sums: neighbouring weights differ by 1, or jump from 2 to 9. */
  function SwapShift1(i: nat, delta: int): int {
    if i == 3 then -7 * delta else delta
  }

  function SwapShift2(i: nat, delta: int): int {
    if i == 4 then -7 * delta else delta
  }

  lemma RestsAfterSwap(cnpj: string, i: nat)
    requires |cnpj| == 14 && AllDigits(cnpj) && i + 1 < 12
    ensures AllDigits(Swapped(cnpj, i))
    ensures var delta := Delta(cnpj[i], cnpj[i + 1]);
            Rest1(Swapped(cnpj, i)) == (Rest1(cnpj) + SwapShift1(i, delta)) % 11 &&
            Rest2(Swapped(cnpj, i)) == (Rest2(cnpj) + SwapShift2(i, delta)) % 11
  {
    var delta := Delta(cnpj[i], cnpj[i + 1]);
    RestsAfterTwo(cnpj, i, cnpj[i + 1], delta, i + 1, cnpj[i], -delta);
    BothSteps(i, delta);
    TwoShifts(Rest1(cnpj), WEIGHTS_DV1[i] * delta, WEIGHTS_DV1[i + 1] * -delta, SwapShift1(i, delta));
    TwoShifts(Rest2(cnpj), WEIGHTS_DV2[i] * delta, WEIGHTS_DV2[i + 1] * -delta, SwapShift2(i, delta));
  }

  lemma BothSteps(i: nat, delta: int)
    requires i + 1 < 12
    ensures WEIGHTS_DV1[i] * delta + WEIGHTS_DV1[i + 1] * -delta == SwapShift1(i, delta)
    ensures WEIGHTS_DV2[i] * delta + WEIGHTS_DV2[i + 1] * -delta == SwapShift2(i, delta)
  {
    WeightStep(WEIGHTS_DV1[i], WEIGHTS_DV1[i + 1], delta);
    WeightStep(WEIGHTS_DV2[i], WEIGHTS_DV2[i + 1], delta);
  }

  lemma WeightStep(w: int, v: int, delta: int)
    requires w - v == 1 || w - v == -7
    ensures w * delta + v * -delta == if w - v == 1 then delta else -7 * delta
  {
    assert w * delta + v * -delta == (w - v) * delta;
  }

  lemma TwoShifts(rest: nat, a: int, b: int, shift: int)
    requires a + b == shift
    ensures ((rest + a) % 11 + b) % 11 == (rest + shift) % 11
  {
    ModShift(rest + a, b);
  }

  lemma SwapResidues(i: nat, delta: int, rest1: nat, rest2: nat)
    requires -9 <= delta <= 9 && delta != 0
    ensures SwapShift1(i, delta) % 11 != 0 && SwapShift2(i, delta) % 11 != 0
    ensures rest1 < 2 && rest2 < 2 ==>
              (SwapShift1(i, delta) % 11 == StepOf(rest1) && SwapShift2(i, delta) % 11 == StepOf(rest2) <==>
               SwapTrades(i, delta, rest1, rest2))
  {
  }

  lemma PassesAfterSwap(cnpj: string, i: nat)
    requires |cnpj| == 14 && AllDigits(cnpj) && Passes(cnpj) && i + 1 < 12 && cnpj[i] != cnpj[i + 1]
    ensures AllDigits(Swapped(cnpj, i))
    ensures Passes(Swapped(cnpj, i)) <==>
              cnpj[12] == '0' && cnpj[13] == '0' &&
              SwapTrades(i, Delta(cnpj[i], cnpj[i + 1]), Rest1(cnpj), Rest2(cnpj))
  {
    var delta := Delta(cnpj[i], cnpj[i + 1]);
    RestsAfterSwap(cnpj, i);
    PassesByRests(cnpj);
    PassesByRests(Swapped(cnpj, i));
    SwapResidues(i, delta, Rest1(cnpj), Rest2(cnpj));
    ShownAfterShift(cnpj[12], Rest1(cnpj), SwapShift1(i, delta));
    ShownAfterShift(cnpj[13], Rest2(cnpj), SwapShift2(i, delta));
  }

  /**
   Swapping two different neighbours of the base of a valid CNPJ gives a valid CNPJ exactly
   when both check digits are 0 and the swap is one that `SwapTrades` names.
   */
  lemma OneSwappedPair(cnpj: string, i: nat)
    requires IsValidCnpj(cnpj) && i + 1 < 12 && cnpj[i] != cnpj[i + 1]
    ensures IsValidCnpj(Swapped(cnpj, i)) <==>
              cnpj[12] == '0' && cnpj[13] == '0' &&
              SwapTrades(i, Delta(cnpj[i], cnpj[i + 1]), Rest1(cnpj), Rest2(cnpj))
  {
    PassesAfterSwap(cnpj, i);
    var swapped := Swapped(cnpj, i);
    assert swapped[i] != swapped[i + 1];
  }

  /** Missed changes exist: 00000000003700 stays valid when its first, fifth or ninth digit changes. */
  lemma MissedChangesExist(zeros: string)
    requires |zeros| == 14 && forall i :: 0 <= i < 14 ==> zeros[i] == '0'
    ensures var cnpj := zeros[10 := '3'][11 := '7'];
            IsValidCnpj(cnpj) &&
            IsValidCnpj(cnpj[0 := '2']) && IsValidCnpj(cnpj[4 := '6']) && IsValidCnpj(cnpj[8 := '2'])
  {
    var cnpj := ChangedTwice(zeros, 10, '3', 11, '7');
    assert cnpj[0] != cnpj[10];
    OneChangedDigit(cnpj, 0, '2');
    OneChangedDigit(cnpj, 4, '6');
    OneChangedDigit(cnpj, 8, '2');
  }

  /** Missed swaps exist: 00000000043400 stays valid when its last two base digits swap. */
  lemma MissedSwapExists(zeros: string)
    requires |zeros| == 14 && forall i :: 0 <= i < 14 ==> zeros[i] == '0'
    ensures var cnpj := zeros[9 := '4'][10 := '3'][11 := '4'];
            IsValidCnpj(cnpj) && IsValidCnpj(Swapped(cnpj, 10))
  {
    var pair := ChangedTwice(zeros, 9, '4', 10, '3');
    RestsAfterChange(pair, 11, '4');
    PassesByRests(pair[11 := '4']);
    assert pair[11 := '4'][0] != pair[11 := '4'][10];
    OneSwappedPair(pair[11 := '4'], 10);
  }

  lemma ChangedTwice(zeros: string, i: nat, a: char, j: nat, b: char) returns (cnpj: string)
    requires |zeros| == 14 && (forall k :: 0 <= k < 14 ==> zeros[k] == '0')
    requires i < 12 && j < 12 && i != j && IsDigit(a) && IsDigit(b)
    ensures cnpj == zeros[i := a][j := b] && AllDigits(cnpj)
    ensures Rest1(cnpj) == (WEIGHTS_DV1[i] * Value(a) + WEIGHTS_DV1[j] * Value(b)) % 11
    ensures Rest2(cnpj) == (WEIGHTS_DV2[i] * Value(a) + WEIGHTS_DV2[j] * Value(b)) % 11
    ensures Passes(cnpj) <==> Shows('0', Rest1(cnpj)) && Shows('0', Rest2(cnpj))
  {
    cnpj := zeros[i := a][j := b];
    ZerosHaveNoRests(zeros);
    RestsAfterTwo(zeros, i, a, Value(a), j, b, Value(b));
    ModShift(WEIGHTS_DV1[i] * Value(a), WEIGHTS_DV1[j] * Value(b));
    ModShift(WEIGHTS_DV2[i] * Value(a), WEIGHTS_DV2[j] * Value(b));
    PassesByRests(cnpj);
  }

  lemma ZerosHaveNoRests(zeros: string)
    requires |zeros| == 14 && forall k :: 0 <= k < 14 ==> zeros[k] == '0'
    ensures AllDigits(zeros) && Rest1(zeros) == 0 && Rest2(zeros) == 0
  {
    ZerosWeighNothing(zeros[..12], WEIGHTS_DV1);
    ZerosWeighNothing(zeros[..13], WEIGHTS_DV2);
  }
}
