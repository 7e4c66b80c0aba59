/**
 * Python's `str.strip()` with no argument: removes leading and trailing
 * characters for which `str.isspace()` holds.
 */
module Text {

  /** A range of code points, both ends included. */
  datatype Span = Span(lo: char, hi: char)

  /** The characters Python 3 treats as whitespace in `str.isspace()`. */
  const SpaceSpans: seq<Span> := [
    Span('\t', '\r'),              // tab, line feed, vertical tab, form feed, carriage return
    Span('\U{1C}', '\U{1F}'),      // file, group, record and unit separators
    Span(' ', ' '),
    Span('\U{85}', '\U{85}'),      // next line
    Span('\U{A0}', '\U{A0}'),      // no-break space
    Span('\U{1680}', '\U{1680}'),  // ogham space mark
    Span('\U{2000}', '\U{200A}'),  // en quad .. hair space
    Span('\U{2028}', '\U{2029}'),  // line and paragraph separators
    Span('\U{202F}', '\U{202F}'),  // narrow no-break space
    Span('\U{205F}', '\U{205F}'),  // medium mathematical space
    Span('\U{3000}', '\U{3000}')   // ideographic space
  ]

  predicate InSpans(c: char, spans: seq<Span>) {
    spans != [] && (spans[0].lo <= c <= spans[0].hi || InSpans(c, spans[1..]))
  }

  predicate IsSpace(c: char) {
    InSpans(c, SpaceSpans)
  }

  predicate AllSpace(s: string) {
    forall i | 0 <= i < |s| :: IsSpace(s[i])
  }

  /** The number of whitespace characters at the start of `s`. */
  function LeadingSpace(s: string): (n: nat)
    ensures n <= |s|
    ensures forall i | 0 <= i < n :: IsSpace(s[i])
    ensures n < |s| ==> !IsSpace(s[n])
  {
    if s != [] && IsSpace(s[0]) then LeadingSpace(s[1..]) + 1 else 0
  }

  /** The number of whitespace characters at the end of `s`. */
  function TrailingSpace(s: string): (n: nat)
    ensures n <= |s|
    ensures forall i | |s| - n <= i < |s| :: IsSpace(s[i])
    ensures n < |s| ==> !IsSpace(s[|s| - n - 1])
  {
    if s != [] && IsSpace(s[|s| - 1]) then TrailingSpace(s[..|s| - 1]) + 1 else 0
  }

  /** `s.strip()`: `s` without its leading and trailing whitespace. */
  function Trim(s: string): (r: string)
    ensures |r| <= |s|
  {
    var a := LeadingSpace(s);
    var t := s[a..];
    t[..|t| - TrailingSpace(t)]
  }

  /**
   * What `strip()` returns: the characters of `s` after its leading
   * whitespace and before its trailing whitespace.
   */
  lemma TrimSlice(s: string)
    ensures LeadingSpace(s) + |Trim(s)| <= |s|
    ensures Trim(s) == s[LeadingSpace(s)..LeadingSpace(s) + |Trim(s)|]
  {
  }

  /** Everything `strip()` removes is whitespace. */
  lemma TrimRemovesSpace(s: string)
    ensures forall i | 0 <= i < LeadingSpace(s) :: IsSpace(s[i])
    ensures forall i | LeadingSpace(s) + |Trim(s)| <= i < |s| :: IsSpace(s[i])
  {
    var a := LeadingSpace(s);
    var t := s[a..];
    var b := TrailingSpace(t);
    assert |Trim(s)| == |t| - b;
    forall i | a + |t| - b <= i < |s| ensures IsSpace(s[i]) {
      assert s[i] == t[i - a];
    }
  }

  /** The result of `strip()` neither starts nor ends with whitespace. */
  lemma TrimEdges(s: string)
    requires Trim(s) != []
    ensures !IsSpace(Trim(s)[0]) && !IsSpace(Trim(s)[|Trim(s)| - 1])
  {
    var a := LeadingSpace(s);
    var t := s[a..];
    var r := Trim(s);
    var b := TrailingSpace(t);
    assert r[0] == s[a];
    assert r[|r| - 1] == t[|t| - b - 1];
  }

  /** `s.strip()` is empty exactly when `s` is all whitespace. */
  lemma TrimEmpty(s: string)
    ensures Trim(s) == [] <==> AllSpace(s)
  {
    TrimSlice(s);
    TrimRemovesSpace(s);
    var r := Trim(s);
    var a := LeadingSpace(s);
    if r != [] {
      assert s[a + |r| - 1] == r[|r| - 1];
    }
  }

  /** Python truthiness of `s.strip()`: the text has some non-whitespace character. */
  predicate HasText(s: string) {
    Trim(s) != []
  }

  /** A character below every span is in none of them. */
  lemma {:induction false} BelowSpans(c: char, spans: seq<Span>)
    requires forall k | 0 <= k < |spans| :: c < spans[k].lo
    ensures !InSpans(c, spans)
  {
    if spans != [] {
      BelowSpans(c, spans[1..]);
    }
  }

  /** No ASCII letter or digit is whitespace. */
  lemma AlphanumericNotSpace(c: char)
    requires 'A' <= c <= 'Z' || 'a' <= c <= 'z' || '0' <= c <= '9'
    ensures !IsSpace(c)
  {
    var s0 := SpaceSpans;
    var s1 := s0[1..];
    var s2 := s1[1..];
    var s3 := s2[1..];
    BelowSpans(c, s3);
    assert s2[0] == Span(' ', ' ') && !InSpans(c, s2);
    assert s1[0] == Span('\U{1C}', '\U{1F}') && !InSpans(c, s1);
    assert s0[0] == Span('\t', '\r') && !InSpans(c, s0);
  }

  /** Text that neither starts nor ends with whitespace is left as it is. */
  lemma TrimUnpadded(s: string)
    requires s != [] && !IsSpace(s[0]) && !IsSpace(s[|s| - 1])
    ensures Trim(s) == s
  {
    assert LeadingSpace(s) == 0;
    assert s[0..] == s;
    assert TrailingSpace(s) == 0;
    assert s[..|s|] == s;
  }

  /** Stripping twice changes nothing more than stripping once. */
  lemma TrimIdempotent(s: string)
    ensures Trim(Trim(s)) == Trim(s)
  {
    var r := Trim(s);
    if r != [] {
      TrimEdges(s);
      TrimUnpadded(r);
    } else {
      assert LeadingSpace(r) == 0;
    }
  }
}
