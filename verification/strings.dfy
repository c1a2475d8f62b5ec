/** String helpers with the meaning of the Ruby string operations the
    model needs: `start_with?`, `include?` and `String#inspect`. */
module Strings {

  predicate StartsWith(s: string, prefix: string) {
    |prefix| <= |s| && s[..|prefix|] == prefix
  }

  /** Ruby's `s.include?(pattern)`, and a regular expression made of plain
      letters matched with `===`: some suffix of `s` starts with `pattern`. */
  predicate Contains(s: string, pattern: string)
    decreases |s|
  {
    StartsWith(s, pattern) || (|s| > 0 && Contains(s[1..], pattern))
  }

  /** `pattern` occurs in `s` at index `i`. */
  predicate OccursAt(s: string, pattern: string, i: int) {
    0 <= i && i + |pattern| <= |s| && s[i..i + |pattern|] == pattern
  }

  lemma {:induction false} ContainsIffOccurs(s: string, pattern: string)
    ensures Contains(s, pattern) <==> exists i :: OccursAt(s, pattern, i)
    decreases |s|
  {
    if Contains(s, pattern) {
      if StartsWith(s, pattern) {
        assert OccursAt(s, pattern, 0);
      } else {
        ContainsIffOccurs(s[1..], pattern);
        var j :| OccursAt(s[1..], pattern, j);
        assert s[1..][j..j + |pattern|] == s[j + 1..j + 1 + |pattern|];
        assert OccursAt(s, pattern, j + 1);
      }
    }
    if exists i :: OccursAt(s, pattern, i) {
      var i :| OccursAt(s, pattern, i);
      if i == 0 {
        assert StartsWith(s, pattern);
      } else {
        assert s[1..][i - 1..i - 1 + |pattern|] == s[i..i + |pattern|];
        assert OccursAt(s[1..], pattern, i - 1);
        ContainsIffOccurs(s[1..], pattern);
      }
    }
  }

  /** The body of Ruby's `String#inspect` for the two characters every
      quoted literal must escape: the double quote and the backslash. */
  function Escape(s: string): (r: string)
    ensures |r| >= |s|
    ensures '"' !in s && '\\' !in s ==> r == s
  {
    if |s| == 0 then ""
    else if s[0] == '"' || s[0] == '\\' then ['\\', s[0]] + Escape(s[1..])
    else [s[0]] + Escape(s[1..])
  }

  /** Reads back an escaped body: a backslash takes the next character literally. */
  function Unescape(s: string): string
    decreases |s|
  {
    if |s| == 0 then ""
    else if s[0] == '\\' && |s| >= 2 then [s[1]] + Unescape(s[2..])
    else [s[0]] + Unescape(s[1..])
  }

  /** Ruby's `String#inspect`: the string as a double-quoted literal. */
  function Inspect(s: string): (r: string)
    ensures |r| >= 2 && r[0] == '"' && r[|r| - 1] == '"'
  {
    "\"" + Escape(s) + "\""
  }

  lemma {:induction false} UnescapeEscape(s: string)
    ensures Unescape(Escape(s)) == s
  {
    if |s| > 0 {
      UnescapeEscape(s[1..]);
      if s[0] == '"' || s[0] == '\\' {
        assert (['\\', s[0]] + Escape(s[1..]))[2..] == Escape(s[1..]);
      } else {
        assert ([s[0]] + Escape(s[1..]))[1..] == Escape(s[1..]);
      }
    }
  }

  /** Different strings inspect to different literals. */
  lemma InspectInjective(a: string, b: string)
    ensures Inspect(a) == Inspect(b) ==> a == b
  {
    if Inspect(a) == Inspect(b) {
      var ia := Inspect(a);
      assert Escape(a) == ia[1..|ia| - 1];
      assert Escape(b) == Inspect(b)[1..|Inspect(b)| - 1];
      UnescapeEscape(a);
      UnescapeEscape(b);
    }
  }
}
