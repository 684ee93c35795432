/**
 * The few JavaScript string operations the naming assistant relies on:
 * `String.prototype.trim`, `String.prototype.split` with a one-character
 * separator, truthiness of a string, and substring containment (used to state
 * what a prompt mentions).
 */
module JsString {

  /** `t` occurs in `s` as a contiguous substring. */
  ghost predicate IsInfix(t: string, s: string) {
    exists k :: OccursAt(t, s, k)
  }

  /** `t` occurs in `s` starting at index `k`. */
  predicate OccursAt(t: string, s: string, k: int) {
    0 <= k <= |s| - |t| && s[k..k + |t|] == t
  }

  /** `t` is a tail of `s`. */
  predicate IsSuffix(t: string, s: string) {
    |t| <= |s| && s[|s| - |t|..] == t
  }

  /** A string placed between two others occurs in the result. */
  lemma InfixBetween(a: string, t: string, b: string)
    ensures IsInfix(t, a + t + b)
  {
    var s := a + t + b;
    assert OccursAt(t, s, |a|);
  }

  /** The concatenation of `pieces`, in order (a template literal's text). */
  function Concat(pieces: seq<string>): string {
    if pieces == [] then "" else pieces[0] + Concat(pieces[1..])
  }

  /** Concatenation splits around any one piece. */
  lemma {:induction false} ConcatAround(pieces: seq<string>, i: nat)
    requires i < |pieces|
    ensures Concat(pieces) == Concat(pieces[..i]) + pieces[i] + Concat(pieces[i + 1..])
  {
    if i > 0 {
      ConcatAround(pieces[1..], i - 1);
      assert pieces[1..][..i - 1] == pieces[1..i];
      assert pieces[1..][i - 1 + 1..] == pieces[i + 1..];
      assert pieces[..i][1..] == pieces[1..i];
    } else {
      assert pieces[..0] == [];
    }
  }

  /** Every piece of a concatenation occurs in it. */
  lemma PieceOccurs(pieces: seq<string>, i: nat)
    requires i < |pieces|
    ensures IsInfix(pieces[i], Concat(pieces))
  {
    ConcatAround(pieces, i);
    InfixBetween(Concat(pieces[..i]), pieces[i], Concat(pieces[i + 1..]));
  }

  /** The last piece of a concatenation is a suffix of it. */
  lemma LastPieceIsSuffix(pieces: seq<string>)
    requires |pieces| > 0
    ensures IsSuffix(pieces[|pieces| - 1], Concat(pieces))
  {
    var i := |pieces| - 1;
    ConcatAround(pieces, i);
    assert Concat(pieces[i + 1..]) == "";
    SuffixOfConcat(Concat(pieces[..i]), pieces[i]);
  }

  /** A string that ends a concatenation is a suffix of it. */
  lemma SuffixOfConcat(a: string, t: string)
    ensures IsSuffix(t, a + t)
  {
  }

  // ---------------------------------------------------------------------------
  // trim
  // ---------------------------------------------------------------------------

  /**
   * The characters `trim` removes: ECMAScript WhiteSpace (TAB, VT, FF, SPACE,
   * NBSP, ZWNBSP and every space separator of category Zs) and LineTerminator
   * (LF, CR, LS, PS).
   */
  predicate IsWhitespace(c: char) {
    || c == '\t' || c == '\n' || c == '\U{000B}' || c == '\U{000C}' || c == '\r'
    || c == ' ' || c == '\U{00A0}' || c == '\U{1680}'
    || ('\U{2000}' <= c <= '\U{200A}')
    || c == '\U{2028}' || c == '\U{2029}' || c == '\U{202F}' || c == '\U{205F}'
    || c == '\U{3000}' || c == '\U{FEFF}'
  }

  /** Every character of `s` is whitespace (vacuously true of ""). */
  predicate AllWhitespace(s: string) {
    forall i :: 0 <= i < |s| ==> IsWhitespace(s[i])
  }

  /** `s` without its leading whitespace. */
  function TrimStart(s: string): (r: string)
    ensures |r| <= |s| && r == s[|s| - |r|..]
    ensures AllWhitespace(s[..|s| - |r|])
    ensures r == "" || !IsWhitespace(r[0])
  {
    if s == "" || !IsWhitespace(s[0]) then s else TrimStart(s[1..])
  }

  /** `s` without its trailing whitespace. */
  function TrimEnd(s: string): (r: string)
    ensures |r| <= |s| && r == s[..|r|]
    ensures AllWhitespace(s[|r|..])
    ensures r == "" || !IsWhitespace(r[|r| - 1])
  {
    if s == "" || !IsWhitespace(s[|s| - 1]) then s else TrimEnd(s[..|s| - 1])
  }

  /**
   * `String.prototype.trim`: the part of `s` left between its leading and its
   * trailing whitespace, which starts and ends with a non-whitespace character.
   */
  function Trim(s: string): (r: string)
    ensures exists k :: OccursAt(r, s, k) && AllWhitespace(s[..k]) && AllWhitespace(s[k + |r|..])
    ensures r == "" || (!IsWhitespace(r[0]) && !IsWhitespace(r[|r| - 1]))
  {
    var t := TrimStart(s);
    var r := TrimEnd(t);
    var k := |s| - |t|;
    TrimBetween(s, t, r);
    assert OccursAt(r, s, k) && AllWhitespace(s[..k]) && AllWhitespace(s[k + |r|..]);
    r
  }

  /**
   * Trimming the end of `s` with its start trimmed leaves a piece of `s`
   * between two runs of whitespace.
   */
  lemma TrimBetween(s: string, t: string, r: string)
    requires |t| <= |s| && t == s[|s| - |t|..] && AllWhitespace(s[..|s| - |t|])
    requires t == "" || !IsWhitespace(t[0])
    requires |r| <= |t| && r == t[..|r|] && AllWhitespace(t[|r|..])
    requires r == "" || !IsWhitespace(r[|r| - 1])
    ensures OccursAt(r, s, |s| - |t|)
    ensures AllWhitespace(s[|s| - |t| + |r|..])
    ensures r == "" || (!IsWhitespace(r[0]) && !IsWhitespace(r[|r| - 1]))
  {
    var k := |s| - |t|;
    assert s[k..k + |r|] == r;
    assert s[k + |r|..] == t[|r|..];
  }

  /** `!s.trim()`: trimming leaves nothing exactly when `s` is all whitespace. */
  lemma TrimEmptyIffAllWhitespace(s: string)
    ensures Trim(s) == "" <==> AllWhitespace(s)
  {
  }

  // ---------------------------------------------------------------------------
  // split and truthiness
  // ---------------------------------------------------------------------------

  /**
   * `s.split(sep)` for a one-character separator: the maximal runs between
   * separators, in order; there is always at least one piece ("" splits to [""]).
   */
  function Split(s: string, sep: char): (r: seq<string>)
    ensures |r| >= 1
    ensures forall k :: 0 <= k < |r| ==> sep !in r[k]
    decreases |s|
  {
    if s == "" then [""]
    else
      var rest := Split(s[1..], sep);
      if s[0] == sep then [""] + rest
      else [[s[0]] + rest[0]] + rest[1..]
  }

  /** `pieces.join(sep)`. */
  function Join(pieces: seq<string>, sep: char): string
  {
    if |pieces| == 0 then ""
    else if |pieces| == 1 then pieces[0]
    else pieces[0] + [sep] + Join(pieces[1..], sep)
  }

  /** Splitting loses nothing: joining the pieces back gives the original string. */
  lemma {:induction false} JoinSplit(s: string, sep: char)
    ensures Join(Split(s, sep), sep) == s
    decreases |s|
  {
    if s != "" {
      var rest := Split(s[1..], sep);
      JoinSplit(s[1..], sep);
      if s[0] == sep {
        assert Split(s, sep)[1..] == rest;
        assert s == [sep] + s[1..];
      } else if |rest| == 1 {
        assert s == [s[0]] + s[1..];
      } else {
        var r := Split(s, sep);
        assert r[1..] == rest[1..];
        assert s == [s[0]] + s[1..];
      }
    }
  }

  /** A string without the separator is a single piece. */
  lemma {:induction false} SplitWithoutSeparator(s: string, sep: char)
    requires sep !in s
    ensures Split(s, sep) == [s]
    decreases |s|
  {
    if s != "" {
      assert sep !in s[1..] by {
        forall i | 0 <= i < |s[1..]| ensures s[1..][i] != sep {
          assert s[1..][i] == s[i + 1];
        }
      }
      SplitWithoutSeparator(s[1..], sep);
      assert s == [s[0]] + s[1..];
    }
  }

  /** The first piece is everything before the first separator. */
  lemma {:induction false} SplitAtFirstSeparator(a: string, sep: char, b: string)
    requires sep !in a
    ensures Split(a + [sep] + b, sep) == [a] + Split(b, sep)
    decreases |a|
  {
    var s := a + [sep] + b;
    if a == "" {
      assert s[1..] == b;
    } else {
      assert sep !in a[1..] by {
        forall i | 0 <= i < |a[1..]| ensures a[1..][i] != sep {
          assert a[1..][i] == a[i + 1];
        }
      }
      SplitAtFirstSeparator(a[1..], sep, b);
      assert s[1..] == a[1..] + [sep] + b;
      assert a == [a[0]] + a[1..];
    }
  }

  /** There is more than one piece exactly when the separator occurs. */
  lemma {:induction false} SplitHasSecondPieceIffSeparator(s: string, sep: char)
    ensures |Split(s, sep)| > 1 <==> sep in s
    decreases |s|
  {
    if s != "" {
      SplitHasSecondPieceIffSeparator(s[1..], sep);
      assert s == [s[0]] + s[1..];
    }
  }

  /** A JavaScript string is truthy exactly when it is non-empty. */
  predicate Truthy(s: string) {
    s != ""
  }
}
