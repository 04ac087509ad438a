/** The string operations the weather-change alert in
    Assignment/services/event_service.py applies to a precipitation
    description: `str.lower()` and the `in` test for "rain" and "snow". */
module Text {

  /** `str.lower()` on ASCII letters. */
  function Lower(s: string): (r: string)
    ensures |r| == |s|
    ensures forall i :: 0 <= i < |s| && 'A' <= s[i] <= 'Z' ==> r[i] as int == s[i] as int + ('a' as int - 'A' as int)
    ensures forall i :: 0 <= i < |s| && !('A' <= s[i] <= 'Z') ==> r[i] == s[i]
    ensures forall i :: 0 <= i < |r| ==> !('A' <= r[i] <= 'Z')
  {
    seq(|s|, i requires 0 <= i < |s| => if 'A' <= s[i] <= 'Z' then (s[i] as int + 32) as char else s[i])
  }

  /** Python's `sub in s` on strings. */
  function Contains(s: string, sub: string): bool
  {
    if |s| < |sub| then false
    else s[..|sub|] == sub || Contains(s[1..], sub)
  }

  /** `sub` occurs in `s` starting at index `i`. */
  predicate OccursAt(s: string, sub: string, i: int)
  {
    0 <= i && i + |sub| <= |s| && s[i..i + |sub|] == sub
  }

  /** `Contains` is substring search: it holds iff `sub` occurs somewhere
      in `s` (the empty string occurs everywhere). */
  lemma {:induction false} ContainsIffOccurs(s: string, sub: string)
    ensures Contains(s, sub) <==> exists i :: OccursAt(s, sub, i)
    decreases |s|
  {
    if |s| < |sub| {
      assert forall i :: !OccursAt(s, sub, i);
    } else if s[..|sub|] == sub {
      assert OccursAt(s, sub, 0);
    } else {
      ContainsIffOccurs(s[1..], sub);
      forall j | 0 <= j
        ensures OccursAt(s[1..], sub, j) <==> OccursAt(s, sub, j + 1)
      {
        if j + |sub| <= |s| - 1 {
          assert s[1..][j..j + |sub|] == s[j + 1..j + 1 + |sub|];
        }
      }
      if exists i :: OccursAt(s, sub, i) {
        var i :| OccursAt(s, sub, i);
        assert i != 0;
        assert OccursAt(s[1..], sub, i - 1);
      }
    }
  }

  predicate MentionsPrecipitation(text: string)
  {
    Contains(text, "rain") || Contains(text, "snow")
  }

  /** A text lacking one of `sub`'s characters does not contain `sub`. */
  lemma MissingCharNotContained(s: string, sub: string, c: char)
    requires c in sub && c !in s
    ensures !Contains(s, sub)
  {
    ContainsIffOccurs(s, sub);
  }

  /** A text ending in "rain" or "snow" mentions precipitation. */
  lemma MentionsAfterPrefix(p: string)
    ensures MentionsPrecipitation(p + "rain") && MentionsPrecipitation(p + "snow")
  {
    ContainsIffOccurs(p + "rain", "rain");
    assert (p + "rain")[|p|..|p| + 4] == "rain";
    assert OccursAt(p + "rain", "rain", |p|);
    ContainsIffOccurs(p + "snow", "snow");
    assert (p + "snow")[|p|..|p| + 4] == "snow";
    assert OccursAt(p + "snow", "snow", |p|);
  }

  /** A text without the letter `n` mentions neither rain nor snow. */
  lemma DryWithoutN(s: string)
    requires 'n' !in s
    ensures !MentionsPrecipitation(s)
  {
    assert "rain"[3] == 'n' && "snow"[1] == 'n';
    MissingCharNotContained(s, "rain", 'n');
    MissingCharNotContained(s, "snow", 'n');
  }

  /** The default text `"none"` mentions neither rain nor snow. */
  lemma NoneIsDry()
    ensures !MentionsPrecipitation("none")
  {
    assert "rain"[0] == 'r' && "snow"[0] == 's';
    MissingCharNotContained("none", "rain", 'r');
    MissingCharNotContained("none", "snow", 's');
  }
}
