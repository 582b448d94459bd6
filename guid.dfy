/**
 * `isGuid`: a string in the 8-4-4-4-12 hexadecimal layout of section 3 of RFC 4122,
 * either letter case, anchored at both ends.
 */
module Guid {
  import opened JsValues

  /** The character class `[0-9a-fA-F]`. */
  predicate IsHexDigit(c: char) {
    '0' <= c <= '9' || 'a' <= c <= 'f' || 'A' <= c <= 'F'
  }

  /** `[0-9a-fA-F]{n}` matched against all of `s`. */
  predicate HexRun(s: string, n: nat) {
    |s| == n && forall i :: 0 <= i < |s| ==> IsHexDigit(s[i])
  }

  /**
   * The anchored pattern, group by group:
   * `^[0-9a-fA-F]{8}-[0-9a-fA-F]{4}-[0-9a-fA-F]{4}-[0-9a-fA-F]{4}-[0-9a-fA-F]{12}$`.
   */
  predicate MatchesGuidPattern(s: string) {
    && |s| == 36
    && HexRun(s[0..8], 8) && s[8] == '-'
    && HexRun(s[9..13], 4) && s[13] == '-'
    && HexRun(s[14..18], 4) && s[18] == '-'
    && HexRun(s[19..23], 4) && s[23] == '-'
    && HexRun(s[24..36], 12)
  }

  /** `isGuid(v)`: `typeof v === "string"` and the pattern matches. */
  predicate IsGuid(v: JsValue) {
    v.Str? && MatchesGuidPattern(v.s)
  }

  /** The positions that hold the hyphens. */
  predicate IsHyphenPosition(i: int) {
    i == 8 || i == 13 || i == 18 || i == 23
  }

  /** The same format stated position by position. */
  predicate GuidLayout(s: string) {
    |s| == 36 &&
    forall i :: 0 <= i < 36 ==> if IsHyphenPosition(i) then s[i] == '-' else IsHexDigit(s[i])
  }

  /** The regular expression accepts exactly the 36-character strings of the positional layout. */
  lemma PatternIsLayout(s: string)
    ensures MatchesGuidPattern(s) <==> GuidLayout(s)
  {
    if MatchesGuidPattern(s) {
      forall i | 0 <= i < 36
        ensures if IsHyphenPosition(i) then s[i] == '-' else IsHexDigit(s[i])
      {
        if i < 8 { assert s[0..8][i] == s[i]; }
        else if 8 < i < 13 { assert s[9..13][i - 9] == s[i]; }
        else if 13 < i < 18 { assert s[14..18][i - 14] == s[i]; }
        else if 18 < i < 23 { assert s[19..23][i - 19] == s[i]; }
        else if 23 < i { assert s[24..36][i - 24] == s[i]; }
      }
    }
    if GuidLayout(s) {
      assert HexRun(s[0..8], 8) by {
        forall j | 0 <= j < 8 ensures IsHexDigit(s[0..8][j]) { assert s[0..8][j] == s[j]; }
      }
      assert HexRun(s[9..13], 4) by {
        forall j | 0 <= j < 4 ensures IsHexDigit(s[9..13][j]) { assert s[9..13][j] == s[9 + j]; }
      }
      assert HexRun(s[14..18], 4) by {
        forall j | 0 <= j < 4 ensures IsHexDigit(s[14..18][j]) { assert s[14..18][j] == s[14 + j]; }
      }
      assert HexRun(s[19..23], 4) by {
        forall j | 0 <= j < 4 ensures IsHexDigit(s[19..23][j]) { assert s[19..23][j] == s[19 + j]; }
      }
      assert HexRun(s[24..36], 12) by {
        forall j | 0 <= j < 12 ensures IsHexDigit(s[24..36][j]) { assert s[24..36][j] == s[24 + j]; }
      }
    }
  }

  /** Only strings can be GUIDs: `null`, numbers, objects and a missing field are all rejected. */
  lemma OnlyStringsAreGuids(v: JsValue)
    requires !v.Str?
    ensures !IsGuid(v)
  {
  }

  /** The accepted and rejected customer ids of the order-creation examples. */
  lemma GuidExamples()
    ensures IsGuid(Str("550e8400-e29b-41d4-a716-446655440000"))
    ensures !IsGuid(Str("not-a-guid"))
  {
    var s := "550e8400-e29b-41d4-a716-446655440000";
    assert GuidLayout(s);
    PatternIsLayout(s);
  }
}
