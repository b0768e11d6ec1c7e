/** `str_to_bool` of djangoProject/utils.py: `None` stays `None`; any string is
    stripped of surrounding whitespace, lower-cased, and looked up among
    the four accepted spellings. Whitespace and letter case are ASCII only. */
module BoolParse {
  import opened Wrappers

  /** The spellings read as true, after normalisation. */
  predicate Accepted(w: string) {
    w == "1" || w == "true" || w == "yes" || w == "on"
  }

  /** The ASCII characters Python's `str.strip()` removes: space, TAB, LF,
      VT, FF, CR and the four separators 0x1C-0x1F. */
  predicate IsSpace(c: char) {
    c == ' ' || ('\t' <= c <= '\r') || ('\U{1C}' <= c <= '\U{1F}')
  }

  predicate AllSpace(s: string) {
    forall k :: 0 <= k < |s| ==> IsSpace(s[k])
  }

  /** Python's `str.lower()` restricted to ASCII letters. */
  function LowerChar(c: char): (r: char)
    ensures 'A' <= c <= 'Z' ==> r as int == c as int + 32
    ensures !('A' <= c <= 'Z') ==> r == c
    ensures !('A' <= r <= 'Z')
  {
    if 'A' <= c <= 'Z' then (c as int + 32) as char else c
  }

  function Lower(s: string): (r: string)
    ensures |r| == |s|
    ensures forall i {:trigger r[i]} :: 0 <= i < |s| ==> r[i] == LowerChar(s[i])
  {
    seq(|s|, i requires 0 <= i < |s| => LowerChar(s[i]))
  }

  /** How many whitespace characters `s` starts with. */
  function LeadingSpace(s: string): (n: nat)
    ensures n <= |s|
    ensures forall k :: 0 <= k < n ==> IsSpace(s[k])
    ensures n < |s| ==> !IsSpace(s[n])
  {
    if s == [] || !IsSpace(s[0]) then 0 else 1 + LeadingSpace(s[1..])
  }

  /** How many whitespace characters `s` ends with. */
  function TrailingSpace(s: string): (n: nat)
    ensures n <= |s|
    ensures forall k :: |s| - n <= k < |s| ==> IsSpace(s[k])
    ensures n < |s| ==> !IsSpace(s[|s| - n - 1])
  {
    if s == [] || !IsSpace(s[|s| - 1]) then 0 else 1 + TrailingSpace(s[..|s| - 1])
  }

  /** `s.strip()`: drop the leading whitespace, then the trailing whitespace. */
  function Strip(s: string): string {
    var rest := s[LeadingSpace(s)..];
    rest[..|rest| - TrailingSpace(rest)]
  }

  /** `value.strip().lower()` */
  function Normalise(s: string): string {
    Lower(Strip(s))
  }

  /** `str_to_bool(value)`: absent input gives an absent answer, never `false`. */
  function StrToBool(value: Option<string>): (r: Option<bool>)
    ensures value.None? <==> r.None?
    ensures value.Some? ==> (r == Some(true) <==> Accepted(Normalise(value.value)))
  {
    match value
    case None => None
    case Some(s) => Some(Accepted(Normalise(s)))
  }

  // ---------------------------------------------------------------------
  // Strip is determined by its result's position

  /** Stripping a word surrounded by whitespace yields exactly that word. */
  lemma StripSurrounded(w1: string, c: string, w2: string)
    requires AllSpace(w1) && AllSpace(w2)
    requires c != [] && !IsSpace(c[0]) && !IsSpace(c[|c| - 1])
    ensures Strip(w1 + c + w2) == c
  {
    var s := w1 + c + w2;
    var a := LeadingSpace(s);
    assert s[|w1|] == c[0];
    assert a == |w1|;
    var rest := s[a..];
    assert rest == c + w2;
    var b := TrailingSpace(rest);
    assert rest[|c| - 1] == c[|c| - 1];
    assert b == |w2|;
    assert rest[..|rest| - b] == c;
  }

  /** Stripping an all-whitespace string leaves nothing. */
  lemma StripAllSpace(s: string)
    requires AllSpace(s)
    ensures Strip(s) == []
  {
  }

  /** `Strip(s)` is an infix of `s` with only whitespace around it. */
  lemma StripBounds(s: string) returns (i: nat, j: nat)
    ensures i <= j <= |s|
    ensures Strip(s) == s[i..j]
    ensures AllSpace(s[..i]) && AllSpace(s[j..])
    ensures Strip(s) != [] ==> !IsSpace(s[i]) && !IsSpace(s[j - 1])
    ensures Strip(s) == [] ==> AllSpace(s)
    ensures s == s[..i] + s[i..j] + s[j..]
  {
    i := LeadingSpace(s);
    var rest := s[i..];
    var b := TrailingSpace(rest);
    j := |s| - b;
    assert Strip(s) == s[i..j];
    assert AllSpace(s[j..]) by {
      forall k | 0 <= k < |s| - j
        ensures IsSpace(s[j..][k])
      {
        assert s[j..][k] == rest[|rest| - b + k];
      }
    }
    if Strip(s) != [] {
      assert s[j - 1] == rest[|rest| - b - 1];
    }
  }

  // ---------------------------------------------------------------------
  // Properties of str_to_bool

  /** Stripping does not depend on letter case: whitespace is never a letter. */
  lemma StripLowerCommute(s: string)
    ensures Lower(Strip(s)) == Strip(Lower(s))
  {
    var i, j := StripBounds(s);
    var ls := Lower(s);
    LowerAppend(s[..i] + s[i..j], s[j..]);
    LowerAppend(s[..i], s[i..j]);
    assert Lower(Strip(s)) == Lower(s[i..j]);
    if Strip(s) == [] {
      assert AllSpace(ls);
      StripAllSpace(ls);
    } else {
      StripSurrounded(Lower(s[..i]), Lower(s[i..j]), Lower(s[j..]));
    }
  }

  /** Strings that agree up to ASCII letter case normalise alike. */
  lemma NormaliseIgnoresCase(s: string, t: string)
    requires Lower(s) == Lower(t)
    ensures Normalise(s) == Normalise(t)
    ensures StrToBool(Some(s)) == StrToBool(Some(t))
  {
    StripLowerCommute(s);
    StripLowerCommute(t);
  }

  /** Surrounding whitespace never changes the answer. */
  lemma NormaliseIgnoresSurroundingSpace(w1: string, s: string, w2: string)
    requires AllSpace(w1) && AllSpace(w2)
    ensures Normalise(w1 + s + w2) == Normalise(s)
    ensures StrToBool(Some(w1 + s + w2)) == StrToBool(Some(s))
  {
    StripIgnoresSurroundingSpace(w1, s, w2);
  }

  /** Stripping ignores whitespace added around the input. */
  lemma StripIgnoresSurroundingSpace(w1: string, s: string, w2: string)
    requires AllSpace(w1) && AllSpace(w2)
    ensures Strip(w1 + s + w2) == Strip(s)
  {
    var i, j := StripBounds(s);
    if Strip(s) == [] {
      AllSpaceConcat(w1, s);
      AllSpaceConcat(w1 + s, w2);
      StripAllSpace(w1 + s + w2);
    } else {
      Regroup(w1, s[..i], s[i..j], s[j..], w2);
      AllSpaceConcat(w1, s[..i]);
      AllSpaceConcat(s[j..], w2);
      StripSurrounded(w1 + s[..i], s[i..j], s[j..] + w2);
    }
  }

  /** Concatenation regrouped so the surrounding whitespace joins the outer pieces. */
  lemma Regroup(w1: string, x: string, y: string, z: string, w2: string)
    ensures w1 + (x + y + z) + w2 == (w1 + x) + y + (z + w2)
  {
  }

  /** Whitespace-only strings are closed under concatenation. */
  lemma AllSpaceConcat(a: string, b: string)
    requires AllSpace(a) && AllSpace(b)
    ensures AllSpace(a + b)
  {
    forall k | 0 <= k < |a + b|
      ensures IsSpace((a + b)[k])
    {
      if k < |a| {
        assert (a + b)[k] == a[k];
      } else {
        assert (a + b)[k] == b[k - |a|];
      }
    }
  }


  lemma LowerAppend(a: string, b: string)
    ensures Lower(a + b) == Lower(a) + Lower(b)
  {
  }

  lemma LowerIdempotent(s: string)
    ensures Lower(Lower(s)) == Lower(s)
  {
  }

  /** Normalising an already normalised string changes nothing, so
      `str_to_bool` gives the same answer on the normal form. */
  lemma NormaliseIdempotent(s: string)
    ensures Normalise(Normalise(s)) == Normalise(s)
    ensures StrToBool(Some(Normalise(s))) == StrToBool(Some(s))
  {
    var i, j := StripBounds(s);
    var c := Strip(s);
    if c == [] {
      StripAllSpace([]);
    } else {
      assert c == [] + c + [];
      StripSurrounded([], c, []);
    }
    StripLowerCommute(c);
    LowerIdempotent(c);
  }

  /** An accepted spelling is non-empty and has no whitespace at its ends. */
  lemma AcceptedHasSolidEnds(c: string)
    requires Accepted(Lower(c))
    ensures c != [] && !IsSpace(c[0]) && !IsSpace(c[|c| - 1])
  {
    var w := Lower(c);
    assert w != [] && !IsSpace(w[0]) && !IsSpace(w[|w| - 1]);
    assert w[0] == LowerChar(c[0]);
    assert w[|w| - 1] == LowerChar(c[|c| - 1]);
  }

  /** The input is an accepted spelling, in any letter case, with only
      whitespace around it. */
  predicate AcceptedWithin(s: string) {
    exists i, j :: 0 <= i <= j <= |s| && AllSpace(s[..i]) && AllSpace(s[j..]) && Accepted(Lower(s[i..j]))
  }

  lemma AcceptedWithinReadsTrue(s: string, i: nat, j: nat)
    requires i <= j <= |s| && AllSpace(s[..i]) && AllSpace(s[j..]) && Accepted(Lower(s[i..j]))
    ensures StrToBool(Some(s)) == Some(true)
  {
    AcceptedHasSolidEnds(s[i..j]);
    assert s == s[..i] + s[i..j] + s[j..];
    StripSurrounded(s[..i], s[i..j], s[j..]);
  }

  lemma TrueReadsAcceptedWithin(s: string)
    requires StrToBool(Some(s)) == Some(true)
    ensures AcceptedWithin(s)
  {
    var i, j := StripBounds(s);
    assert Accepted(Lower(s[i..j]));
  }

  /** The answer is true exactly when the input is one of the accepted
      spellings, in any letter case, with only whitespace around it. */
  lemma AcceptedIff(s: string)
    ensures StrToBool(Some(s)) == Some(true) <==> AcceptedWithin(s)
  {
    if AcceptedWithin(s) {
      var i, j :| 0 <= i <= j <= |s| && AllSpace(s[..i]) && AllSpace(s[j..]) && Accepted(Lower(s[i..j]));
      AcceptedWithinReadsTrue(s, i, j);
    }
    if StrToBool(Some(s)) == Some(true) {
      TrueReadsAcceptedWithin(s);
    }
  }

  /** A word with no whitespace at its ends is its own strip. */
  lemma StripSolid(w: string)
    requires w != [] && !IsSpace(w[0]) && !IsSpace(w[|w| - 1])
    ensures Strip(w) == w
  {
    assert [] + w + [] == w;
    StripSurrounded([], w, []);
  }

  /** A word with solid ends, surrounded by whitespace, reads as its
      lower-cased self. */
  lemma SurroundedWord(w1: string, c: string, w2: string)
    requires AllSpace(w1) && AllSpace(w2)
    requires c != [] && !IsSpace(c[0]) && !IsSpace(c[|c| - 1])
    ensures StrToBool(Some(w1 + c + w2)) == Some(Accepted(Lower(c)))
  {
    StripSurrounded(w1, c, w2);
  }

  /** The empty string reads as false, not absent. */
  lemma EmptyIsFalse()
    ensures StrToBool(Some("")) == Some(false)
  {
    StripAllSpace("");
  }

  /** Common negative spellings read as false. */
  lemma CommonFalseSpellings()
    ensures StrToBool(Some("0")) == Some(false)
    ensures StrToBool(Some("false")) == Some(false)
    ensures StrToBool(Some("no")) == Some(false)
  {
    ReadsFalse("0");
    ReadsFalse("false");
    ReadsFalse("no");
  }

  /** Each common negative spelling is its own normal form, which is not
      an accepted spelling. */
  lemma ReadsFalse(w: string)
    requires w in {"0", "false", "no"}
    ensures StrToBool(Some(w)) == Some(false)
  {
    StripSolid(w);
    assert Lower(w) == w;
  }

  /** Mixed case and surrounding whitespace are accepted. */
  lemma MixedCaseAccepted()
    ensures StrToBool(Some(" Yes\n")) == Some(true)
  {
    assert " Yes\n" == " " + "Yes" + "\n";
    SurroundedWord(" ", "Yes", "\n");
    assert Lower("Yes") == "yes";
  }

  /** Upper case with a leading tab is accepted. */
  lemma UpperCaseAccepted()
    ensures StrToBool(Some("\tTRUE")) == Some(true)
  {
    assert "\tTRUE" == "\t" + "TRUE" + "";
    SurroundedWord("\t", "TRUE", "");
    assert Lower("TRUE") == "true";
  }
}
