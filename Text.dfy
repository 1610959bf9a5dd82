/** String helpers standing in for Foundation: trimming `.whitespacesAndNewlines`,
    `lowercased()` and `localizedCaseInsensitiveContains`. Lower-casing is modelled on
    ASCII letters only. */
module Text {

  /** Characters with the Unicode White_Space property (Foundation's
      `.whitespacesAndNewlines`). */
  predicate IsWhitespace(c: char) {
    CharIn(c, WhitespaceChars)
  }

  /** `c` is one of the characters of `s` (written recursively so that the solver
      unfolds the character list only on demand). */
  predicate CharIn(c: char, s: string)
    decreases |s|
  {
    s != [] && (s[0] == c || CharIn(c, s[1..]))
  }

  lemma {:induction false} CharInMeans(c: char, s: string)
    ensures CharIn(c, s) <==> c in s
    decreases |s|
  {
    if s != [] {
      CharInMeans(c, s[1..]);
      assert s == [s[0]] + s[1..];
    }
  }

  const WhitespaceChars: string :=
    "\t\n\U{B}\U{C}\r \U{85}\U{A0}\U{1680}"
    + "\U{2000}\U{2001}\U{2002}\U{2003}\U{2004}\U{2005}\U{2006}\U{2007}\U{2008}\U{2009}\U{200A}"
    + "\U{2028}\U{2029}\U{202F}\U{205F}\U{3000}"

  /** Every character of `s` is whitespace. */
  predicate Blank(s: string) {
    forall k :: 0 <= k < |s| ==> IsWhitespace(s[k])
  }

  /** `needle` occurs in `hay` starting at position `i`. */
  predicate OccursAt(hay: string, needle: string, i: int) {
    0 <= i && i + |needle| <= |hay| && hay[i..i + |needle|] == needle
  }

  lemma BlankConcat(a: string, b: string)
    requires Blank(a) && Blank(b)
    ensures Blank(a + b)
  {
    forall k | 0 <= k < |a + b| ensures IsWhitespace((a + b)[k]) {
      if k < |a| { assert (a + b)[k] == a[k]; } else { assert (a + b)[k] == b[k - |a|]; }
    }
  }

  // ---------------------------------------------------------------------------
  // trimmingCharacters(in: .whitespacesAndNewlines)

  /** `s` without its leading whitespace. */
  function TrimStart(s: string): (r: string)
    ensures |r| <= |s|
  {
    if s != [] && IsWhitespace(s[0]) then TrimStart(s[1..]) else s
  }

  /** `s` without its trailing whitespace. */
  function TrimEnd(s: string): (r: string)
    ensures |r| <= |s|
  {
    if s != [] && IsWhitespace(s[|s| - 1]) then TrimEnd(s[..|s| - 1]) else s
  }

  /** `TrimStart(s)` is a suffix of `s`, starts with a non-whitespace character, and
      what it drops is whitespace. (Kept out of the function's contract so that every
      mention of a trimmed string does not bring these facts along.) */
  lemma {:induction false} TrimStartShape(s: string)
    ensures var r := TrimStart(s);
      && r == s[|s| - |r|..]
      && (r == [] || !IsWhitespace(r[0]))
      && Blank(s[..|s| - |r|])
    decreases |s|
  {
    if s != [] && IsWhitespace(s[0]) {
      TrimStartShape(s[1..]);
      var r := TrimStart(s[1..]);
      assert s[1..][|s| - 1 - |r|..] == s[|s| - |r|..];
      assert s[..|s| - |r|] == [s[0]] + s[1..][..|s| - 1 - |r|];
    } else {
      assert s[..0] == [];
    }
  }

  /** `TrimEnd(s)` is a prefix of `s`, ends with a non-whitespace character, and what it
      drops is whitespace. */
  lemma {:induction false} TrimEndShape(s: string)
    ensures var r := TrimEnd(s);
      && r == s[..|r|]
      && (r == [] || !IsWhitespace(r[|r| - 1]))
      && Blank(s[|r|..])
    decreases |s|
  {
    if s != [] && IsWhitespace(s[|s| - 1]) {
      TrimEndShape(s[..|s| - 1]);
      var r := TrimEnd(s[..|s| - 1]);
      assert s[..|s| - 1][..|r|] == s[..|r|];
      assert s[|r|..] == s[..|s| - 1][|r|..] + [s[|s| - 1]];
    } else {
      assert s[..|s|] == s;
      assert s[|s|..] == [];
    }
  }

  /** `s` without its leading and trailing whitespace. */
  function Trim(s: string): (r: string)
    ensures |r| <= |s|
  {
    TrimEnd(TrimStart(s))
  }

  /** A trimmed string neither starts nor ends with whitespace. */
  lemma TrimEnds(s: string)
    ensures var r := Trim(s); r == [] || (!IsWhitespace(r[0]) && !IsWhitespace(r[|r| - 1]))
  {
    var t := TrimStart(s);
    TrimStartShape(s);
    TrimEndShape(t);
    var r := TrimEnd(t);
    if r != [] {
      assert r[0] == t[0];
    }
  }

  /** `Trim(s)` is a block of `s` with nothing but whitespace around it. */
  lemma TrimIsBlock(s: string) returns (i: nat)
    ensures OccursAt(s, Trim(s), i)
    ensures Blank(s[..i]) && Blank(s[i + |Trim(s)|..])
  {
    var t := TrimStart(s);
    var r := TrimEnd(t);
    TrimStartShape(s);
    TrimEndShape(t);
    i := |s| - |t|;
    assert t == s[i..];
    assert r == t[..|r|];
    assert t[..|r|] == s[i..i + |r|];
    assert Blank(t[|r|..]);
    assert t[|r|..] == s[i + |r|..];
  }

  /** Helper: trimming the front of `u` skips exactly its first `i` characters when
      those are whitespace and the next one is not. */
  lemma {:induction false} TrimStartSkips(u: string, i: nat)
    requires i <= |u| && Blank(u[..i])
    requires i == |u| || !IsWhitespace(u[i])
    ensures TrimStart(u) == u[i..]
    decreases i
  {
    if i > 0 {
      assert u[..i][0] == u[0];
      assert u[1..][i - 1..] == u[i..];
      assert u[1..][..i - 1] == u[..i][1..];
      TrimStartSkips(u[1..], i - 1);
    }
  }

  /** Helper: trimming the back of `u` keeps exactly its first `j` characters when the
      rest are whitespace and the one before is not. */
  lemma {:induction false} TrimEndSkips(u: string, j: nat)
    requires j <= |u| && Blank(u[j..])
    requires j == 0 || !IsWhitespace(u[j - 1])
    ensures TrimEnd(u) == u[..j]
    decreases |u| - j
  {
    if j < |u| {
      assert u[j..][|u| - 1 - j] == u[|u| - 1];
      var v := u[..|u| - 1];
      assert v[..j] == u[..j];
      assert v[j..] == u[j..][..|u| - 1 - j];
      TrimEndSkips(v, j);
    } else {
      assert u[..j] == u;
    }
  }

  /** A block `r` of `u` with only whitespace around it, and neither starting nor ending
      with whitespace, is `Trim(u)`. */
  lemma TrimBlock(u: string, r: string, i: nat)
    requires OccursAt(u, r, i)
    requires Blank(u[..i]) && Blank(u[i + |r|..])
    requires r == [] || (!IsWhitespace(r[0]) && !IsWhitespace(r[|r| - 1]))
    ensures Trim(u) == r
  {
    if r == [] {
      TrimBlockEmpty(u, i);
    } else {
      assert u[i] == r[0] && u[i + |r| - 1] == r[|r| - 1];
      TrimBlockNonEmpty(u, i, |r|);
    }
  }

  lemma TrimBlockEmpty(u: string, i: nat)
    requires i <= |u| && Blank(u[..i]) && Blank(u[i..])
    ensures Trim(u) == []
  {
    assert u == u[..i] + u[i..];
    BlankConcat(u[..i], u[i..]);
    TrimEmptyIffBlank(u);
  }

  lemma TrimBlockNonEmpty(u: string, i: nat, n: nat)
    requires 0 < n && i + n <= |u|
    requires Blank(u[..i]) && Blank(u[i + n..])
    requires !IsWhitespace(u[i]) && !IsWhitespace(u[i + n - 1])
    ensures Trim(u) == u[i..i + n]
  {
    TrimStartSkips(u, i);
    var t := u[i..];
    assert t[n..] == u[i + n..];
    assert t[n - 1] == u[i + n - 1];
    TrimEndSkips(t, n);
    assert t[..n] == u[i..i + n];
  }

  /** Trimming is idempotent. */
  lemma TrimIdempotent(s: string)
    ensures Trim(Trim(s)) == Trim(s)
  {
    var r := Trim(s);
    TrimEnds(s);
    TrimStartSkips(r, 0);
    TrimEndSkips(r, |r|);
    assert r[..|r|] == r;
  }

  /** A string trims to empty exactly when it is all whitespace. */
  lemma TrimEmptyIffBlank(s: string)
    ensures Trim(s) == [] <==> Blank(s)
  {
    var t := TrimStart(s);
    TrimStartShape(s);
    TrimEndShape(t);
    if t != [] {
      assert s[|s| - |t|] == t[0];
      assert TrimEnd(t) != [] by {
        assert !IsWhitespace(t[0]);
      }
    } else {
      assert s[..|s|] == s;
    }
  }

  /** Surrounding whitespace does not change the trimmed string. */
  lemma {:induction false} PaddedTrim(pre: string, s: string, post: string)
    requires Blank(pre) && Blank(post)
    ensures Trim(pre + s + post) == Trim(s)
  {
    var i := TrimIsBlock(s);
    TrimEnds(s);
    PaddedBlock(pre, s, post, Trim(s), i);
  }

  /** Helper: a block of `s` that trimming keeps is what trimming `pre + s + post`
      keeps. */
  lemma PaddedBlock(pre: string, s: string, post: string, r: string, i: nat)
    requires OccursAt(s, r, i)
    requires Blank(pre) && Blank(post) && Blank(s[..i]) && Blank(s[i + |r|..])
    requires r == [] || (!IsWhitespace(r[0]) && !IsWhitespace(r[|r| - 1]))
    ensures Trim(pre + s + post) == r
  {
    var u := pre + s + post;
    PaddedSlices(pre, s, post, u, r, i);
    TrimBlock(u, r, |pre| + i);
  }

  /** Helper: a block of `s` with whitespace around it is still one inside
      `pre + s + post`. */
  lemma PaddedSlices(pre: string, s: string, post: string, u: string, r: string, i: nat)
    requires u == pre + s + post
    requires OccursAt(s, r, i)
    requires Blank(pre) && Blank(post) && Blank(s[..i]) && Blank(s[i + |r|..])
    ensures OccursAt(u, r, |pre| + i)
    ensures Blank(u[..|pre| + i]) && Blank(u[|pre| + i + |r|..])
  {
    var j, n := |pre| + i, |r|;
    assert u[j..j + n] == s[i..i + n];
    assert u[..j] == pre + s[..i];
    BlankConcat(pre, s[..i]);
    assert u[j + n..] == s[i + n..] + post;
    BlankConcat(s[i + n..], post);
  }

  // ---------------------------------------------------------------------------
  // lowercased()

  function LowerChar(c: char): char {
    if 'A' <= c <= 'Z' then (c as int - 'A' as int + 'a' as int) as char else c
  }

  /** No ASCII letter is whitespace, so lower-casing a character keeps its
      whitespace-ness. */
  lemma LowerCharWhitespace(c: char)
    ensures IsWhitespace(LowerChar(c)) == IsWhitespace(c)
  {
    CharInMeans(c, WhitespaceChars);
    CharInMeans(LowerChar(c), WhitespaceChars);
    if 'A' <= c <= 'Z' {
      forall k | 0 <= k < |WhitespaceChars| ensures !('A' <= WhitespaceChars[k] <= 'z') {
      }
    }
  }

  function Lower(s: string): (r: string)
    ensures |r| == |s|
    ensures forall i :: 0 <= i < |s| ==> r[i] == LowerChar(s[i])
  {
    seq(|s|, i requires 0 <= i < |s| => LowerChar(s[i]))
  }

  /** Lower-casing is idempotent. */
  lemma LowerIdempotent(s: string)
    ensures Lower(Lower(s)) == Lower(s)
  {
  }

  lemma {:induction false} TrimStartLower(s: string)
    ensures TrimStart(Lower(s)) == Lower(TrimStart(s))
    decreases |s|
  {
    if s != [] {
      assert Lower(s)[1..] == Lower(s[1..]);
      LowerCharWhitespace(s[0]);
      if IsWhitespace(s[0]) {
        TrimStartLower(s[1..]);
      }
    }
  }

  lemma {:induction false} TrimEndLower(s: string)
    ensures TrimEnd(Lower(s)) == Lower(TrimEnd(s))
    decreases |s|
  {
    if s != [] {
      assert Lower(s)[..|s| - 1] == Lower(s[..|s| - 1]);
      LowerCharWhitespace(s[|s| - 1]);
      if IsWhitespace(s[|s| - 1]) {
        TrimEndLower(s[..|s| - 1]);
      }
    }
  }

  /** Lower-casing neither creates nor removes whitespace, so it commutes with trimming. */
  lemma TrimLowerCommute(s: string)
    ensures Trim(Lower(s)) == Lower(Trim(s))
  {
    TrimStartLower(s);
    TrimEndLower(TrimStart(s));
  }

  // ---------------------------------------------------------------------------
  // localizedCaseInsensitiveContains

  /** `needle` occurs in `hay` as a contiguous block. */
  predicate ContainsInfix(hay: string, needle: string)
    decreases |hay|
  {
    needle <= hay || (hay != [] && ContainsInfix(hay[1..], needle))
  }

  /** `hay` starts with `needle`, comparing ASCII letters without regard to case. */
  predicate StartsWithIgnoringCase(hay: string, needle: string)
    decreases |needle|
  {
    needle == [] ||
    (hay != [] && LowerChar(hay[0]) == LowerChar(needle[0])
     && StartsWithIgnoringCase(hay[1..], needle[1..]))
  }

  /** Case-insensitive substring test: `needle` starts at some position of `hay`. */
  predicate ContainsIgnoringCase(hay: string, needle: string)
    decreases |hay|
  {
    StartsWithIgnoringCase(hay, needle) || (hay != [] && ContainsIgnoringCase(hay[1..], needle))
  }

  /** Helper: lower-casing commutes with dropping the first character. */
  lemma LowerTail(s: string)
    requires s != []
    ensures Lower(s)[1..] == Lower(s[1..]) && Lower(s)[0] == LowerChar(s[0])
  {
  }

  /** The case-insensitive prefix test is the prefix test on lower-cased strings. */
  lemma {:induction false} StartsWithIgnoringCaseMeans(hay: string, needle: string)
    ensures StartsWithIgnoringCase(hay, needle) <==> Lower(needle) <= Lower(hay)
    decreases |needle|
  {
    if needle != [] && hay != [] {
      StartsWithIgnoringCaseMeans(hay[1..], needle[1..]);
      LowerTail(hay);
      LowerTail(needle);
      var a, b := Lower(needle), Lower(hay);
      assert a <= b <==> a[0] == b[0] && a[1..] <= b[1..] by {
        if a <= b {
          assert a[1..] == b[1..][..|a| - 1];
        }
        if a[0] == b[0] && a[1..] <= b[1..] {
          assert a == [a[0]] + a[1..];
          assert b[..|a|] == [b[0]] + b[1..][..|a| - 1];
        }
      }
    }
  }

  /** The case-insensitive substring test is the substring test on lower-cased
      strings. */
  lemma {:induction false} ContainsIgnoringCaseMeans(hay: string, needle: string)
    ensures ContainsIgnoringCase(hay, needle) <==> ContainsInfix(Lower(hay), Lower(needle))
    decreases |hay|
  {
    StartsWithIgnoringCaseMeans(hay, needle);
    if hay != [] {
      ContainsIgnoringCaseMeans(hay[1..], needle);
      LowerTail(hay);
    }
  }

  /** `ContainsInfix` means: there is a position at which `needle` starts in `hay`. */
  lemma {:induction false} ContainsInfixAt(hay: string, needle: string)
    ensures ContainsInfix(hay, needle) <==> exists i :: OccursAt(hay, needle, i)
    decreases |hay|
  {
    if hay != [] {
      ContainsInfixAt(hay[1..], needle);
      if ContainsInfix(hay[1..], needle) {
        var i :| OccursAt(hay[1..], needle, i);
        assert hay[i + 1..i + 1 + |needle|] == hay[1..][i..i + |needle|];
        assert OccursAt(hay, needle, i + 1);
      }
      if needle <= hay {
        assert OccursAt(hay, needle, 0);
      }
      if exists i :: OccursAt(hay, needle, i) {
        var i :| OccursAt(hay, needle, i);
        if i > 0 {
          assert hay[1..][i - 1..i - 1 + |needle|] == hay[i..i + |needle|];
          assert OccursAt(hay[1..], needle, i - 1);
          assert ContainsInfix(hay[1..], needle);
        } else {
          assert hay[..|needle|] == needle;
          assert needle <= hay;
        }
        assert ContainsInfix(hay, needle);
      }
    } else {
      if needle == [] {
        assert OccursAt(hay, needle, 0);
      }
      if exists i :: OccursAt(hay, needle, i) {
        var i :| OccursAt(hay, needle, i);
        assert needle == [];
      }
    }
  }

  /** The case of the needle does not matter. */
  lemma ContainsIgnoringCaseOfLower(hay: string, needle: string)
    ensures ContainsIgnoringCase(hay, Lower(needle)) == ContainsIgnoringCase(hay, needle)
  {
    ContainsIgnoringCaseMeans(hay, needle);
    ContainsIgnoringCaseMeans(hay, Lower(needle));
    LowerIdempotent(needle);
  }

  // ---------------------------------------------------------------------------
  // TagStore.normalize

  /** Trim, then lower-case. */
  function Normalize(s: string): string {
    Lower(Trim(s))
  }

  /** Normalizing twice is normalizing once. */
  lemma NormalizeIdempotent(s: string)
    ensures Normalize(Normalize(s)) == Normalize(s)
  {
    TrimLowerCommute(Trim(s));
    TrimIdempotent(s);
    LowerIdempotent(Trim(s));
  }

  /** Trimming first does not change the normalized form. */
  lemma NormalizeTrim(s: string)
    ensures Normalize(Trim(s)) == Normalize(s)
  {
    TrimIdempotent(s);
  }

  /** Names differing only in ASCII letter case normalize alike. */
  lemma NormalizeIgnoresCase(s: string)
    ensures Normalize(Lower(s)) == Normalize(s)
  {
    TrimLowerCommute(s);
    LowerIdempotent(Trim(s));
  }

  /** Names differing only in surrounding whitespace normalize alike. */
  lemma NormalizeIgnoresPadding(pre: string, s: string, post: string)
    requires Blank(pre) && Blank(post)
    ensures Normalize(pre + s + post) == Normalize(s)
  {
    PaddedTrim(pre, s, post);
  }
}
