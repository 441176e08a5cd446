/** Whitespace trimming as JavaScript's `String.prototype.trim` performs it: the
    longest run of white-space and line-terminator characters is removed from
    each end of the string and nothing else is touched. Every guard of the
    console ("is this input blank?") is phrased through `Trim`. */
module Text {

  /** The characters the ECMAScript language specification classifies as
      WhiteSpace (tab, vertical tab, form feed, space, no-break space, the
      byte-order mark and every space separator) or as LineTerminator
      (line feed, carriage return, line and paragraph separators). */
  const WhitespaceChars: set<char> := {
    '\t', '\n', '\U{000B}', '\U{000C}', '\r', ' ', '\U{00A0}', '\U{1680}',
    '\U{2000}', '\U{2001}', '\U{2002}', '\U{2003}', '\U{2004}', '\U{2005}',
    '\U{2006}', '\U{2007}', '\U{2008}', '\U{2009}', '\U{200A}',
    '\U{2028}', '\U{2029}', '\U{202F}', '\U{205F}', '\U{3000}', '\U{FEFF}' }

  predicate IsWhitespace(c: char)
  {
    c in WhitespaceChars
  }

  predicate AllWhitespace(s: string)
  {
    forall i | 0 <= i < |s| :: IsWhitespace(s[i])
  }

  /** Neither the first nor the last character of `s` is whitespace. */
  predicate NoEdgeWhitespace(s: string)
  {
    s == [] || (!IsWhitespace(s[0]) && !IsWhitespace(s[|s| - 1]))
  }

  /** How many characters of whitespace `s` starts with. */
  function LeadingWhitespace(s: string): (n: nat)
    ensures n <= |s|
  {
    if |s| > 0 && IsWhitespace(s[0]) then 1 + LeadingWhitespace(s[1..]) else 0
  }

  /** How many characters of whitespace `s` ends with. */
  function TrailingWhitespace(s: string): (n: nat)
    ensures n <= |s|
  {
    if |s| > 0 && IsWhitespace(s[|s| - 1]) then 1 + TrailingWhitespace(s[..|s| - 1]) else 0
  }

  /** `s` with its leading whitespace removed. */
  function TrimStart(s: string): string
  {
    s[LeadingWhitespace(s)..]
  }

  /** `s` with its trailing whitespace removed. */
  function TrimEnd(s: string): string
  {
    s[..|s| - TrailingWhitespace(s)]
  }

  /** The leading run that `TrimStart` removes is whitespace only. */
  lemma {:induction false} LeadingRunIsWhitespace(s: string)
    ensures AllWhitespace(s[..LeadingWhitespace(s)])
  {
    if |s| > 0 && IsWhitespace(s[0]) {
      LeadingRunIsWhitespace(s[1..]);
      var k := LeadingWhitespace(s);
      assert s[..k] == [s[0]] + s[1..][..k - 1];
      assert AllWhitespace([s[0]]);
      AllWhitespaceConcat([s[0]], s[1..][..k - 1]);
    }
  }

  /** The leading run is maximal: the character after it is not whitespace. */
  lemma {:induction false} LeadingRunIsMaximal(s: string)
    ensures LeadingWhitespace(s) < |s| ==> !IsWhitespace(s[LeadingWhitespace(s)])
  {
    if |s| > 0 && IsWhitespace(s[0]) {
      LeadingRunIsMaximal(s[1..]);
      assert LeadingWhitespace(s) < |s| ==> s[LeadingWhitespace(s)] == s[1..][LeadingWhitespace(s[1..])];
    }
  }

  /** An all-whitespace string is one leading run. */
  lemma {:induction false} LeadingRunOfWhitespace(s: string)
    requires AllWhitespace(s)
    ensures LeadingWhitespace(s) == |s|
  {
    if |s| > 0 {
      assert IsWhitespace(s[0]);
      assert AllWhitespace(s[1..]) by {
        forall i | 0 <= i < |s| - 1
          ensures IsWhitespace(s[1..][i])
        {
          assert s[1..][i] == s[i + 1];
        }
      }
      LeadingRunOfWhitespace(s[1..]);
    }
  }

  /** The trailing run that `TrimEnd` removes is whitespace only. */
  lemma {:induction false} TrailingRunIsWhitespace(s: string)
    ensures AllWhitespace(s[|s| - TrailingWhitespace(s)..])
  {
    if |s| > 0 && IsWhitespace(s[|s| - 1]) {
      var p := s[..|s| - 1];
      TrailingRunIsWhitespace(p);
      var k := |s| - TrailingWhitespace(s);
      assert s[k..] == p[k..] + [s[|s| - 1]];
      assert AllWhitespace([s[|s| - 1]]);
      AllWhitespaceConcat(p[k..], [s[|s| - 1]]);
    }
  }

  /** The trailing run is maximal: the character before it is not whitespace. */
  lemma {:induction false} TrailingRunIsMaximal(s: string)
    ensures TrailingWhitespace(s) < |s| ==> !IsWhitespace(s[|s| - TrailingWhitespace(s) - 1])
  {
    if |s| > 0 && IsWhitespace(s[|s| - 1]) {
      var p := s[..|s| - 1];
      TrailingRunIsMaximal(p);
      assert TrailingWhitespace(s) < |s| ==>
        s[|s| - TrailingWhitespace(s) - 1] == p[|p| - TrailingWhitespace(p) - 1];
    }
  }

  /** Neither end of the trimmed string is whitespace. */
  lemma TrimmedHasNoEdgeWhitespace(s: string)
    ensures NoEdgeWhitespace(TrimEnd(TrimStart(s)))
  {
    var t := TrimStart(s);
    var r := TrimEnd(t);
    LeadingRunIsMaximal(s);
    TrailingRunIsMaximal(t);
    if r != [] {
      assert r[0] == t[0] == s[LeadingWhitespace(s)];
      assert r[|r| - 1] == t[|t| - TrailingWhitespace(t) - 1];
    }
  }

  /** The trimmed string is empty exactly when the input is all whitespace. */
  lemma TrimmedEmptyIffAllWhitespace(s: string)
    ensures TrimEnd(TrimStart(s)) == [] <==> AllWhitespace(s)
  {
    var k := LeadingWhitespace(s);
    var t := TrimStart(s);
    if AllWhitespace(s) {
      LeadingRunOfWhitespace(s);
      assert t == [];
    }
    if TrimEnd(t) == [] {
      LeadingRunIsWhitespace(s);
      TrailingRunIsWhitespace(t);
      assert t[|t| - TrailingWhitespace(t)..] == t;
      assert s == s[..k] + t;
      AllWhitespaceConcat(s[..k], t);
    }
  }

  /** `inputValue.trim()`: whitespace removed from both ends. The result has
      no whitespace at either end, and it is empty exactly when the input
      consisted of whitespace only. */
  function Trim(s: string): (r: string)
    ensures NoEdgeWhitespace(r)
    ensures r == [] <==> AllWhitespace(s)
  {
    TrimmedHasNoEdgeWhitespace(s);
    TrimmedEmptyIffAllWhitespace(s);
    TrimEnd(TrimStart(s))
  }

  /** A concatenation is all whitespace exactly when both parts are. */
  lemma AllWhitespaceConcat(a: string, b: string)
    ensures AllWhitespace(a + b) <==> AllWhitespace(a) && AllWhitespace(b)
  {
    if AllWhitespace(a) && AllWhitespace(b) {
      forall i | 0 <= i < |a + b|
        ensures IsWhitespace((a + b)[i])
      {
        if i >= |a| {
          assert (a + b)[i] == b[i - |a|];
        }
      }
    }
    if AllWhitespace(a + b) {
      forall i | 0 <= i < |a|
        ensures IsWhitespace(a[i])
      {
        assert a[i] == (a + b)[i];
      }
      forall i | 0 <= i < |b|
        ensures IsWhitespace(b[i])
      {
        assert b[i] == (a + b)[|a| + i];
      }
    }
  }

  /** The source's falsy test on a trimmed string: `!s.trim()`. */
  predicate IsBlank(s: string): (b: bool)
    ensures b <==> AllWhitespace(s)
  {
    Trim(s) == []
  }

  /** The trimmed string is the slice `s[i..j]` between a whitespace-only
      prefix and a whitespace-only suffix. */
  lemma TrimIsSlice(s: string) returns (i: nat, j: nat)
    ensures i <= j <= |s| && Trim(s) == s[i..j]
    ensures AllWhitespace(s[..i]) && AllWhitespace(s[j..])
  {
    var t := TrimStart(s);
    i := LeadingWhitespace(s);
    j := i + |t| - TrailingWhitespace(t);
    LeadingRunIsWhitespace(s);
    TrailingRunIsWhitespace(t);
    assert s[i..j] == t[..|t| - TrailingWhitespace(t)];
    assert s[j..] == t[|t| - TrailingWhitespace(t)..];
  }

  /** A string without edge whitespace is left as it is. */
  lemma TrimOfTrimmed(s: string)
    requires NoEdgeWhitespace(s)
    ensures Trim(s) == s
  {
    assert TrimStart(s) == s;
  }

  /** Trimming twice is trimming once. */
  lemma TrimIdempotent(s: string)
    ensures Trim(Trim(s)) == Trim(s)
  {
    TrimOfTrimmed(Trim(s));
  }
}
