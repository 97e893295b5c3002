/** The callsign check that the diagnostics command applies to the radio client's MYCALL. */
module Diagnostics {
  import opened Wrappers
  import opened Text

  predicate CallsignChar(c: char) {
    'A' <= c <= 'Z' || '0' <= c <= '9' || c == '/'
  }

  /** The regular expression `^[A-Z0-9/]{3,16}$`. */
  predicate MatchesCallsignPattern(cs: string) {
    3 <= |cs| <= 16 && forall i | 0 <= i < |cs| :: CallsignChar(cs[i])
  }

  const EmptyCallsign := "empty callsign"

  /** `validateCallsign`: trims and upper-cases its input, rejects the empty result, and otherwise
      accepts exactly 3 to 16 characters from A-Z, 0-9 and '/'. The rejection names the input as
      the caller gave it. */
  function ValidateCallsign(s: string): (r: Outcome)
    ensures r == Fail(EmptyCallsign) <==> AllSpace(s)
    ensures r.Pass? <==>
              var t := TrimSpace(s);
              3 <= |t| <= 16 && forall i | 0 <= i < |t| :: CallsignChar(ToUpperChar(t[i]))
    ensures r.Fail? && !AllSpace(s) ==> Contains(r.error, "\"" + s + "\"")
  {
    TrimSpaceEmpty(s);
    var cs := ToUpper(TrimSpace(s));
    if cs == "" then Fail(EmptyCallsign)
    else if !MatchesCallsignPattern(cs) then
      var prefix := "invalid callsign ";
      // `%q` in the source also escapes quotes, backslashes and unprintable characters
      // inside `s`; for any other input this is the exact text.
      var quoted := "\"" + s + "\"";
      var text := prefix + quoted + " (expected 3-16 of A-Z, 0-9, /)";
      assert text[|prefix|..|prefix| + |quoted|] == quoted;
      ContainsAt(text, quoted, |prefix|);
      Fail(text)
    else Pass
  }

  /** Lower-case input is accepted: the check runs on the upper-cased text, so a callsign
      written in lower-case letters, digits and '/' passes whenever its length is in range. */
  lemma {:induction false} LowerCaseCallsignAccepted(s: string)
    requires 3 <= |s| <= 16
    requires forall i | 0 <= i < |s| :: 'a' <= s[i] <= 'z' || '0' <= s[i] <= '9' || s[i] == '/'
    ensures ValidateCallsign(s) == Pass
  {
    assert !IsSpace(s[0]) && !IsSpace(s[|s| - 1]);
    TrimSpaceOfTrimmed(s);
    assert forall i | 0 <= i < |s| :: CallsignChar(ToUpperChar(s[i]));
    var r := ValidateCallsign(s);
    assert r.Pass?;
  }
}
