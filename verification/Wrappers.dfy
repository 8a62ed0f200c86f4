/** Failure-carrying results and the text helper shared by the modules of the model. */
module Wrappers {
  datatype Option<+T> = None | Some(value: T)

  datatype Result<+T, +E> = Success(value: T) | Failure(error: E)

  /** `_digits`: the decimal digits of a text. */
  function Digits(text: string): string {
    if text == "" then ""
    else (if '0' <= text[0] <= '9' then [text[0]] else "") + Digits(text[1..])
  }

  /** Which keeps exactly the digits, in order. */
  lemma {:induction false} DigitsConcat(a: string, b: string)
    ensures Digits(a + b) == Digits(a) + Digits(b)
  {
    if a == "" {
      assert a + b == b;
    } else {
      DigitsConcat(a[1..], b);
      var head := if '0' <= a[0] <= '9' then [a[0]] else "";
      assert (a + b)[0] == a[0] && (a + b)[1..] == a[1..] + b;
      assert head + (Digits(a[1..]) + Digits(b)) == (head + Digits(a[1..])) + Digits(b);
    }
  }

  lemma {:induction false} DigitsKeepsDigits(text: string)
    ensures forall c :: c in Digits(text) <==> c in text && '0' <= c <= '9'
    ensures (forall c :: c in text ==> '0' <= c <= '9') ==> Digits(text) == text
  {
    if text != "" {
      DigitsKeepsDigits(text[1..]);
      assert text == [text[0]] + text[1..];
      assert text[0] in text && forall c :: c in text[1..] ==> c in text;
    }
  }

  /** A second update of a key hides the first. */
  lemma LastUpdateStays<K, V>(m: map<K, V>, k: K, first: V, last: V)
    ensures m[k := first][k := last] == m[k := last]
  {
  }
}
