/** The input form's submit guard: the form passes a place and an emotion on
    to the controller only when both are non-empty after JavaScript's
    `String.prototype.trim`. */
module StepInput {

  /** The characters `trim` removes: ECMAScript's WhiteSpace and
      LineTerminator code points. */
  predicate IsTrimmed(c: char)
  {
    || c == '\t' || c == '\n' || c == '\U{B}' || c == '\U{C}' || c == '\r' || c == ' '
    || c == '\U{A0}' || c == '\U{1680}' || ('\U{2000}' <= c <= '\U{200A}')
    || c == '\U{2028}' || c == '\U{2029}' || c == '\U{202F}' || c == '\U{205F}'
    || c == '\U{3000}' || c == '\U{FEFF}'
  }

  /** Removes the leading trimmed characters. */
  function TrimStart(s: string): string
  {
    if s != [] && IsTrimmed(s[0]) then TrimStart(s[1..]) else s
  }

  /** Removes the trailing trimmed characters. */
  function TrimEnd(s: string): string
  {
    if s != [] && IsTrimmed(s[|s| - 1]) then TrimEnd(s[..|s| - 1]) else s
  }

  /** TrimStart leaves a suffix of `s` that does not start with a trimmed
      character, and everything it cut off was one. */
  lemma {:induction false} TrimStartCutsLeadingSpace(s: string)
    ensures var r := TrimStart(s);
      && |r| <= |s| && r == s[|s| - |r|..]
      && (r == [] || !IsTrimmed(r[0]))
      && forall i :: 0 <= i < |s| - |r| ==> IsTrimmed(s[i])
  {
    if s != [] && IsTrimmed(s[0]) {
      TrimStartCutsLeadingSpace(s[1..]);
      var r := TrimStart(s);
      forall i | 0 <= i < |s| - |r| ensures IsTrimmed(s[i]) {
        if i > 0 { assert s[i] == s[1..][i - 1]; }
      }
    }
  }

  /** TrimEnd leaves a prefix of `s` that does not end with a trimmed
      character, and everything it cut off was one. */
  lemma {:induction false} TrimEndCutsTrailingSpace(s: string)
    ensures var r := TrimEnd(s);
      && |r| <= |s| && r == s[..|r|]
      && (r == [] || !IsTrimmed(r[|r| - 1]))
      && forall i :: |r| <= i < |s| ==> IsTrimmed(s[i])
  {
    if s != [] && IsTrimmed(s[|s| - 1]) {
      TrimEndCutsTrailingSpace(s[..|s| - 1]);
      var r := TrimEnd(s);
      forall i | |r| <= i < |s| ensures IsTrimmed(s[i]) {
        if i < |s| - 1 { assert s[i] == s[..|s| - 1][i]; }
      }
    }
  }

  /** `s.trim()`: a part of `s` that neither starts nor ends with a trimmed
      character. */
  function Trim(s: string): (r: string)
    ensures |r| <= |s|
    ensures r == [] || (!IsTrimmed(r[0]) && !IsTrimmed(r[|r| - 1]))
  {
    TrimStartCutsLeadingSpace(s);
    TrimEndCutsTrailingSpace(TrimStart(s));
    TrimEnd(TrimStart(s))
  }

  /** A string trims to empty exactly when every character in it is trimmed. */
  lemma TrimEmptyIff(s: string)
    ensures Trim(s) == [] <==> forall i :: 0 <= i < |s| ==> IsTrimmed(s[i])
  {
    var t := TrimStart(s);
    TrimStartCutsLeadingSpace(s);
    TrimEndCutsTrailingSpace(t);
    if Trim(s) != [] {
      var k := |s| - |t|;
      assert !IsTrimmed(t[0]) && s[k] == t[0];
    }
  }

  /** The form's guard: `place.trim() && emotion.trim()`. */
  predicate CanSubmit(place: string, emotion: string)
    ensures CanSubmit(place, emotion) ==> place != [] && emotion != []
  {
    Trim(place) != [] && Trim(emotion) != []
  }

  /** The guard lets a pair through exactly when each string holds a character
      that is not whitespace. */
  lemma CanSubmitIff(place: string, emotion: string)
    ensures CanSubmit(place, emotion) <==>
              (exists i :: 0 <= i < |place| && !IsTrimmed(place[i])) &&
              (exists j :: 0 <= j < |emotion| && !IsTrimmed(emotion[j]))
  {
    TrimEmptyIff(place);
    TrimEmptyIff(emotion);
  }
}
