/** Whitespace trimming, shared by the transcription service, the compiler and the edit form. */
module Text {

  predicate IsSpace(c: char) {
    || c == ' ' || c == '\t' || c == '\n' || c == '\r' || c == '\U{000B}' || c == '\U{000C}'
    || c == '\U{00A0}' || c == '\U{1680}' || '\U{2000}' <= c <= '\U{200A}' || c == '\U{2028}' || c == '\U{2029}'
    || c == '\U{202F}' || c == '\U{205F}' || c == '\U{3000}'
  }

  function TrimStart(s: string): string {
    if s != [] && IsSpace(s[0]) then TrimStart(s[1..]) else s
  }

  function TrimEnd(s: string): string {
    if s != [] && IsSpace(s[|s| - 1]) then TrimEnd(s[..|s| - 1]) else s
  }

  function Trim(s: string): string {
    TrimEnd(TrimStart(s))
  }

  /** A text counts as present when something is left after trimming. */
  predicate NonBlank(s: string) {
    Trim(s) != ""
  }

  predicate CleanEnds(s: string) {
    s == [] || (!IsSpace(s[0]) && !IsSpace(s[|s| - 1]))
  }

  lemma {:induction false} TrimStartClean(s: string)
    ensures TrimStart(s) == [] || !IsSpace(TrimStart(s)[0])
    ensures |TrimStart(s)| <= |s| && TrimStart(s) == s[|s| - |TrimStart(s)|..]
    ensures forall i | 0 <= i < |s| - |TrimStart(s)| :: IsSpace(s[i])
  {
    if s != [] && IsSpace(s[0]) { TrimStartClean(s[1..]); }
  }

  lemma {:induction false} TrimEndClean(s: string)
    ensures TrimEnd(s) == [] || !IsSpace(TrimEnd(s)[|TrimEnd(s)| - 1])
    ensures TrimEnd(s) <= s
    ensures forall i | |TrimEnd(s)| <= i < |s| :: IsSpace(s[i])
  {
    if s != [] && IsSpace(s[|s| - 1]) { TrimEndClean(s[..|s| - 1]); }
  }

  /** Trimming cuts s into blank prefix, result and blank suffix; the result has no blank end. */
  lemma TrimCuts(s: string) returns (lo: nat, hi: nat)
    ensures lo <= hi <= |s| && Trim(s) == s[lo..hi] && CleanEnds(Trim(s))
    ensures forall i | 0 <= i < lo || hi <= i < |s| :: IsSpace(s[i])
  {
    var t := TrimStart(s);
    TrimStartClean(s);
    TrimEndClean(t);
    lo := |s| - |t|;
    hi := lo + |TrimEnd(t)|;
  }

  /** A text with clean ends is left alone, so trimming twice is trimming once. */
  lemma TrimFixed(s: string)
    requires CleanEnds(s)
    ensures Trim(s) == s
  {
  }

  lemma TrimTwice(s: string)
    ensures Trim(Trim(s)) == Trim(s)
    ensures |Trim(s)| <= |s|
  {
    var lo, hi := TrimCuts(s);
    TrimFixed(Trim(s));
  }

  /** The blanks: tab, line breaks, and Unicode's space separators. */
  const BLANKS: string :=
    "\t\n\U{000B}\U{000C}\r \U{00A0}\U{1680}\U{2000}\U{2001}\U{2002}\U{2003}\U{2004}\U{2005}\U{2006}"
    + "\U{2007}\U{2008}\U{2009}\U{200A}\U{2028}\U{2029}\U{202F}\U{205F}\U{3000}"

  lemma SpacesAreBlanks(c: char)
    ensures IsSpace(c) <==> c in BLANKS
  {
    assert BLANKS[0] == '\t' && BLANKS[1] == '\n' && BLANKS[2] == '\U{000B}' && BLANKS[3] == '\U{000C}' && BLANKS[4] == '\r';
    assert BLANKS[5] == ' ' && BLANKS[6] == '\U{00A0}' && BLANKS[7] == '\U{1680}' && BLANKS[8] == '\U{2000}';
    assert BLANKS[9] == '\U{2001}' && BLANKS[10] == '\U{2002}' && BLANKS[11] == '\U{2003}' && BLANKS[12] == '\U{2004}';
    assert BLANKS[13] == '\U{2005}' && BLANKS[14] == '\U{2006}' && BLANKS[15] == '\U{2007}' && BLANKS[16] == '\U{2008}';
    assert BLANKS[17] == '\U{2009}' && BLANKS[18] == '\U{200A}' && BLANKS[19] == '\U{2028}' && BLANKS[20] == '\U{2029}';
    assert BLANKS[21] == '\U{202F}' && BLANKS[22] == '\U{205F}' && BLANKS[23] == '\U{3000}';
  }

  /** Trimming leaves a text alone exactly when it neither begins nor ends with a blank. */
  lemma TrimKeepsExactly(s: string)
    ensures Trim(s) == s <==> s == "" || (s[0] !in BLANKS && s[|s| - 1] !in BLANKS)
  {
    if s != "" {
      SpacesAreBlanks(s[0]);
      SpacesAreBlanks(s[|s| - 1]);
    }
    var lo, hi := TrimCuts(s);
    if CleanEnds(s) { TrimFixed(s); }
  }
}
