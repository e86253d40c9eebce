/** String helpers: substring test (Python's `in` on str) and decimal rendering (`str(int)`). */
module Strings {

  /** `needle in hay` for Python strings. */
  predicate IsSubstring(needle: string, hay: string) {
    exists i :: 0 <= i <= |hay| - |needle| && OccursAt(needle, hay, i)
  }

  /** `needle` starts at position `i` of `hay`. */
  predicate OccursAt(needle: string, hay: string, i: int)
    requires 0 <= i <= |hay| - |needle|
  {
    hay[i..i + |needle|] == needle
  }

  lemma {:induction false} SubstringOfConcat(a: string, x: string, b: string)
    ensures IsSubstring(x, a + x + b)
  {
    assert OccursAt(x, a + x + b, |a|) by {
      assert (a + x + b)[|a|..|a| + |x|] == x;
    }
  }

  lemma {:induction false} SubstringExtends(x: string, a: string, b: string)
    requires IsSubstring(x, a)
    ensures IsSubstring(x, a + b)
  {
    var i :| 0 <= i <= |a| - |x| && OccursAt(x, a, i);
    assert OccursAt(x, a + b, i) by {
      assert (a + b)[i..i + |x|] == a[i..i + |x|];
    }
  }

  function DigitChar(d: nat): (c: char)
    requires d < 10
    ensures '0' <= c <= '9'
  {
    "0123456789"[d]
  }

  /** Decimal digits of `n`, without sign or leading zeros. */
  function DecimalString(n: nat): (s: string)
    ensures 1 <= |s|
    ensures forall i :: 0 <= i < |s| ==> '0' <= s[i] <= '9'
    ensures n < 10 <==> |s| == 1
    decreases n
  {
    if n < 10 then [DigitChar(n)] else DecimalString(n / 10) + [DigitChar(n % 10)]
  }
}
