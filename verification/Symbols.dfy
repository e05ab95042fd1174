/** Trading symbols and their upper-case normal form. */
module Symbols {

  const DEFAULT_SYMBOL := "BTC-USD"

  function UpperChar(c: char): char {
    if 'a' <= c <= 'z' then (c as int - 'a' as int + 'A' as int) as char else c
  }

  function Upper(s: string): string {
    seq(|s|, i requires 0 <= i < |s| => UpperChar(s[i]))
  }

  /** Upper case letter by letter: a to z are moved onto A to Z, everything else stays. */
  lemma UpperIs(s: string, i: nat)
    requires i < |s|
    ensures |Upper(s)| == |s|
    ensures 'a' <= s[i] <= 'z' ==> 'A' <= Upper(s)[i] <= 'Z' && Upper(s)[i] as int - 'A' as int == s[i] as int - 'a' as int
    ensures !('a' <= s[i] <= 'z') ==> Upper(s)[i] == s[i]
  {
  }

  lemma UpperIdempotent(s: string)
    ensures Upper(Upper(s)) == Upper(s)
  {
    forall i | 0 <= i < |s| ensures Upper(Upper(s))[i] == Upper(s)[i] {
      assert Upper(Upper(s))[i] == UpperChar(UpperChar(s[i]));
    }
  }

  lemma DefaultIsUpper()
    ensures Upper(DEFAULT_SYMBOL) == DEFAULT_SYMBOL
  {
  }
}
