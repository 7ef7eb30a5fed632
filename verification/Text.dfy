/** The few string operations the service relies on. */
module Text {
  predicate IsSpace(c: char) {
    c == ' ' || c == '\t' || c == '\n' || c == '\r'
  }

  /** Drop the leading and trailing white space. */
  function Strip(s: string): string {
    if s == "" then ""
    else if IsSpace(s[0]) then Strip(s[1..])
    else if IsSpace(s[|s| - 1]) then Strip(s[..|s| - 1])
    else s
  }

  predicate IsBlank(s: string) {
    forall i :: 0 <= i < |s| ==> IsSpace(s[i])
  }

  lemma {:induction false} StripOfBlank(s: string)
    ensures Strip(s) == "" <==> IsBlank(s)
    decreases |s|
  {
    if s != "" {
      if IsSpace(s[0]) {
        StripOfBlank(s[1..]);
        assert IsBlank(s) <==> IsBlank(s[1..]) by {
          if IsBlank(s[1..]) {
            forall i | 0 <= i < |s| ensures IsSpace(s[i]) { if i > 0 { assert s[1..][i - 1] == s[i]; } }
          }
        }
      } else {
        if IsSpace(s[|s| - 1]) { StripOfBlank(s[..|s| - 1]); assert s[..|s| - 1][0] == s[0]; }
      }
    }
  }
}
