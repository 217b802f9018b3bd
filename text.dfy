/** String helpers: `toLowerCase`, `String.prototype.includes` and the decimal
    rendering of a non-negative integer in a template literal. */
module Text {

  /** ASCII case folding of one character. */
  function LowerChar(c: char): (r: char)
    ensures 'A' <= c <= 'Z' ==> r as int == c as int + 32
    ensures !('A' <= c <= 'Z') ==> r == c
  {
    if 'A' <= c <= 'Z' then (c as int + 32) as char else c
  }

  /** `toLowerCase`, restricted to ASCII letters. */
  function Lower(s: string): (r: string)
    ensures |r| == |s|
    ensures forall k :: 0 <= k < |s| ==> r[k] == LowerChar(s[k])
  {
    if |s| == 0 then "" else [LowerChar(s[0])] + Lower(s[1..])
  }

  /** `sub` occurs in `s` at position `i`. */
  ghost predicate OccursAt(s: string, sub: string, i: int) {
    0 <= i <= |s| - |sub| && s[i..i + |sub|] == sub
  }

  /** `s.includes(sub)`: `sub` occurs in `s` at some position. */
  function HasSubstring(s: string, sub: string): (r: bool)
    ensures r <==> exists i :: OccursAt(s, sub, i)
    decreases |s|
  {
    if |sub| > |s| then false
    else if sub == s[..|sub|] then
      assert OccursAt(s, sub, 0);
      true
    else
      var rest := HasSubstring(s[1..], sub);
      assert rest ==> exists i :: OccursAt(s, sub, i) by {
        if rest {
          var i :| OccursAt(s[1..], sub, i);
          assert s[1..][i..i + |sub|] == s[i + 1..i + 1 + |sub|];
          assert OccursAt(s, sub, i + 1);
        }
      }
      assert (exists i :: OccursAt(s, sub, i)) ==> rest by {
        if exists i :: OccursAt(s, sub, i) {
          var i :| OccursAt(s, sub, i);
          assert i != 0;
          OccursInTail(s, sub, i);
        }
      }
      rest
  }

  /** An occurrence after the first position is an occurrence in the tail. */
  lemma OccursInTail(s: string, sub: string, i: int)
    requires OccursAt(s, sub, i) && i > 0
    ensures OccursAt(s[1..], sub, i - 1)
  {
    var t := s[1..];
    assert |t[i - 1..i - 1 + |sub|]| == |sub|;
    forall k | 0 <= k < |sub| ensures t[i - 1..i - 1 + |sub|][k] == sub[k] {
      assert s[i..i + |sub|][k] == sub[k];
    }
  }

  /** The case-insensitive match the filters use:
      `field.toLowerCase().includes(query.toLowerCase())`. */
  predicate MatchesText(field: string, query: string) {
    HasSubstring(Lower(field), Lower(query))
  }

  /** The empty query matches every field. */
  lemma EmptyQueryMatches(field: string)
    ensures MatchesText(field, "")
  {
    assert OccursAt(Lower(field), Lower(""), 0);
  }

  function DigitChar(d: nat): (c: char)
    requires d < 10
  {
    "0123456789"[d]
  }

  function DigitValue(c: char): nat {
    if '0' <= c <= '9' then c as int - '0' as int else 0
  }

  /** The digits of `n` in base ten, most significant first, as `${n}` prints it. */
  function NatToDecimal(n: nat): (r: string)
    ensures |r| > 0
    ensures forall k :: 0 <= k < |r| ==> '0' <= r[k] <= '9'
    ensures |r| > 1 ==> r[0] != '0'
  {
    if n < 10 then [DigitChar(n)] else NatToDecimal(n / 10) + [DigitChar(n % 10)]
  }

  /** The value of a string of decimal digits. */
  function DecimalValue(s: string): nat {
    if |s| == 0 then 0 else 10 * DecimalValue(s[..|s| - 1]) + DigitValue(s[|s| - 1])
  }

  /** Reading the rendered digits back gives the number: the rendering loses nothing. */
  lemma {:induction false} DecimalRoundTrip(n: nat)
    ensures DecimalValue(NatToDecimal(n)) == n
  {
    if n >= 10 {
      DecimalRoundTrip(n / 10);
      var s := NatToDecimal(n);
      assert s[..|s| - 1] == NatToDecimal(n / 10);
    }
  }
}
