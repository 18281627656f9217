/**
  String operations the orchestrator uses: Python's `str.strip()`, the
  `re.split(r"[,，]", ...)` of search terms, `', '.join(...)`, the `in` test
  for a substring, `str.lower()` on the subtitle-provider name, the decimal
  rendering of an output index and `os.path.join`.
 */
module Text {

  // ---------------------------------------------------------------------
  // str.strip()

  /** Python's `str.isspace()` for one code point. */
  predicate IsSpace(c: char) {
    c == ' ' || '\t' <= c <= '\r' || '\U{1c}' <= c <= '\U{1f}'
    || c == '\U{85}' || c == '\U{a0}' || c == '\U{1680}'
    || '\U{2000}' <= c <= '\U{200a}' || c == '\U{2028}' || c == '\U{2029}'
    || c == '\U{202f}' || c == '\U{205f}' || c == '\U{3000}'
  }

  /** Drops the leading white space. */
  function LStrip(s: string): (r: string)
    ensures |r| <= |s|
  {
    if s != [] && IsSpace(s[0]) then LStrip(s[1..]) else s
  }

  /** What `LStrip` leaves: a suffix of `s`, after only white space, that
      does not start with white space. */
  lemma {:induction false} LStripSpec(s: string)
    ensures var r := LStrip(s);
            r == s[|s| - |r|..] && (forall k :: 0 <= k < |s| - |r| ==> IsSpace(s[k]))
            && (r != [] ==> !IsSpace(r[0]))
  {
    if s != [] && IsSpace(s[0]) {
      LStripSpec(s[1..]);
      var r := LStrip(s);
      assert s[1..][|s| - 1 - |r|..] == s[|s| - |r|..];
      forall k | 0 <= k < |s| - |r| ensures IsSpace(s[k]) {
        if k > 0 {
          assert s[k] == s[1..][k - 1];
        }
      }
    }
  }

  /** Drops the trailing white space. */
  function RStrip(s: string): (r: string)
    ensures |r| <= |s|
  {
    if s != [] && IsSpace(s[|s| - 1]) then RStrip(s[..|s| - 1]) else s
  }

  /** What `RStrip` leaves: a prefix of `s`, before only white space, that
      does not end with white space. */
  lemma {:induction false} RStripSpec(s: string)
    ensures var r := RStrip(s);
            r == s[..|r|] && (forall k :: |r| <= k < |s| ==> IsSpace(s[k]))
            && (r != [] ==> !IsSpace(r[|r| - 1]))
  {
    if s != [] && IsSpace(s[|s| - 1]) {
      RStripSpec(s[..|s| - 1]);
      var r := RStrip(s);
      assert s[..|s| - 1][..|r|] == s[..|r|];
      forall k | |r| <= k < |s| ensures IsSpace(s[k]) {
        if k < |s| - 1 {
          assert s[k] == s[..|s| - 1][k];
        }
      }
    }
  }

  /** `s.strip()`: no white space is left at either end, and the result is
      empty exactly when `s` is all white space. */
  function Strip(s: string): (r: string)
    ensures |r| <= |s|
    ensures r != [] ==> !IsSpace(r[0]) && !IsSpace(r[|r| - 1])
    ensures r == [] <==> forall k :: 0 <= k < |s| ==> IsSpace(s[k])
  {
    LStripSpec(s);
    RStripSpec(LStrip(s));
    var l := LStrip(s);
    var r := RStrip(l);
    r
  }

  lemma {:induction false} LStripAt(s: string, i: nat)
    requires i <= |s|
    requires forall k :: 0 <= k < i ==> IsSpace(s[k])
    requires i < |s| ==> !IsSpace(s[i])
    ensures LStrip(s) == s[i..]
  {
    if i > 0 {
      LStripAt(s[1..], i - 1);
      assert s[1..][i - 1..] == s[i..];
    }
  }

  lemma {:induction false} RStripAt(s: string, j: nat)
    requires j <= |s|
    requires forall k :: j <= k < |s| ==> IsSpace(s[k])
    requires 0 < j ==> !IsSpace(s[j - 1])
    ensures RStrip(s) == s[..j]
  {
    if j < |s| {
      RStripAt(s[..|s| - 1], j);
      assert s[..|s| - 1][..j] == s[..j];
    }
  }

  /** Strip is characterised by where the first and last non-space
      characters are: whatever slice is bounded that way is the result. */
  /** What `Strip` keeps is a slice of `s` with only white space before it
      and only white space after it. */
  lemma StripIsSlice(s: string)
    ensures exists i, j :: 0 <= i <= j <= |s| && Strip(s) == s[i..j]
                           && (forall k :: 0 <= k < i ==> IsSpace(s[k]))
                           && (forall k :: j <= k < |s| ==> IsSpace(s[k]))
  {
    var l := LStrip(s);
    LStripSpec(s);
    var m := RStrip(l);
    RStripSpec(l);
    var i := |s| - |l|;
    var j := i + |m|;
    assert l == s[i..] && m == l[..|m|];
    assert Strip(s) == m == s[i..j];
    forall k | j <= k < |s| ensures IsSpace(s[k]) {
      assert s[k] == l[k - i];
    }
  }

  lemma StripUnique(s: string, i: nat, j: nat)
    requires i <= j <= |s|
    requires forall k :: 0 <= k < i ==> IsSpace(s[k])
    requires forall k :: j <= k < |s| ==> IsSpace(s[k])
    requires i < j ==> !IsSpace(s[i]) && !IsSpace(s[j - 1])
    ensures Strip(s) == s[i..j]
  {
    if i == j {
      StripAllSpace(s, i);
    } else {
      LStripAt(s, i);
      RStripOfSuffix(s, i, j);
    }
  }

  lemma RStripOfSuffix(s: string, i: nat, j: nat)
    requires i < j <= |s|
    requires forall k :: j <= k < |s| ==> IsSpace(s[k])
    requires !IsSpace(s[j - 1])
    ensures RStrip(s[i..]) == s[i..j]
  {
    var l := s[i..];
    forall k | j - i <= k < |l| ensures IsSpace(l[k]) {
      assert l[k] == s[i + k];
    }
    RStripAt(l, j - i);
    assert l[..j - i] == s[i..j];
  }

  lemma StripAllSpace(s: string, i: nat)
    requires i <= |s|
    requires forall k :: 0 <= k < i ==> IsSpace(s[k])
    requires forall k :: i <= k < |s| ==> IsSpace(s[k])
    ensures Strip(s) == []
  {
    assert forall k :: 0 <= k < |s| ==> IsSpace(s[k]) by {
      forall k | 0 <= k < |s| ensures IsSpace(s[k]) {
        if k < i {} else {}
      }
    }
  }

  /** Stripping twice changes nothing more. */
  lemma StripIdempotent(s: string)
    ensures Strip(Strip(s)) == Strip(s)
  {
    var r := Strip(s);
    StripUnique(r, 0, |r|);
  }

  /** Leading white space makes no difference to the stripped value. */
  lemma StripSpacePrefix(x: string)
    ensures Strip(" " + x) == Strip(x)
  {
    assert (" " + x)[1..] == x;
  }

  /** No white space at either end. */
  predicate Trimmed(s: string) {
    s != [] ==> !IsSpace(s[0]) && !IsSpace(s[|s| - 1])
  }

  /** Strips every element of a list: `[t.strip() for t in xs]`. */
  function StripEach(xs: seq<string>): (r: seq<string>)
    ensures |r| == |xs|
    ensures forall k :: 0 <= k < |r| ==> |r[k]| <= |xs[k]| && Trimmed(r[k])
  {
    seq(|xs|, k requires 0 <= k < |xs| => Strip(xs[k]))
  }

  // ---------------------------------------------------------------------
  // re.split(r"[,，]", s)

  /** The two separators of a search-term string: ASCII and full-width comma. */
  predicate IsSep(c: char) {
    c == ',' || c == '\U{ff0c}'
  }

  predicate NoSep(s: string) {
    forall k :: 0 <= k < |s| ==> !IsSep(s[k])
  }

  /** The separators of `s`, in order. */
  function Separators(s: string): (r: string)
    ensures |r| <= |s|
    ensures forall k :: 0 <= k < |r| ==> IsSep(r[k])
  {
    if s == [] then [] else (if IsSep(s[0]) then [s[0]] else []) + Separators(s[1..])
  }

  /** `re.split(r"[,，]", s)`: cuts at every separator, keeping empty pieces;
      there is always one piece more than there are separators, and no piece
      holds a separator. */
  function SplitTerms(s: string): (r: seq<string>)
    ensures |r| == |Separators(s)| + 1
    ensures forall k :: 0 <= k < |r| ==> NoSep(r[k])
  {
    if s == [] then [[]]
    else
      var rest := SplitTerms(s[1..]);
      if IsSep(s[0]) then [[]] + rest
      else [[s[0]] + rest[0]] + rest[1..]
  }

  /** Puts the separators back between the pieces. */
  function Interleave(pieces: seq<string>, seps: string): string
    requires |pieces| == |seps| + 1
  {
    if seps == [] then pieces[0] else pieces[0] + [seps[0]] + Interleave(pieces[1..], seps[1..])
  }

  /** Splitting loses nothing: the pieces and the separators rebuild the input. */
  lemma {:induction false} SplitRoundTrip(s: string)
    ensures Interleave(SplitTerms(s), Separators(s)) == s
  {
    if s != [] {
      var rest := SplitTerms(s[1..]);
      var seps := Separators(s[1..]);
      SplitRoundTrip(s[1..]);
      if !IsSep(s[0]) {
        assert Separators(s) == seps;
        if seps != [] {
          assert SplitTerms(s)[1..] == rest[1..];
        }
      }
    }
  }

  /** A piece without separators followed by a comma splits off as one term. */
  lemma {:induction false} SplitAfterPiece(a: string, b: string)
    requires NoSep(a)
    ensures SplitTerms(a + [','] + b) == [a] + SplitTerms(b)
  {
    if a == [] {
      assert ([] + [','] + b)[1..] == b;
    } else {
      SplitAfterPiece(a[1..], b);
      assert (a + [','] + b)[1..] == a[1..] + [','] + b;
      assert [a[0]] + a[1..] == a;
    }
  }

  /** A string without separators is a single piece. */
  lemma {:induction false} SplitSinglePiece(a: string)
    requires NoSep(a)
    ensures SplitTerms(a) == [a]
  {
    if a != [] {
      SplitSinglePiece(a[1..]);
      assert [a[0]] + a[1..] == a;
    }
  }

  // ---------------------------------------------------------------------
  // sep.join(xs)

  function JoinWith(xs: seq<string>, sep: string): string {
    if xs == [] then [] else if |xs| == 1 then xs[0] else xs[0] + sep + JoinWith(xs[1..], sep)
  }

  // ---------------------------------------------------------------------
  // `sub in s`

  /** Python's `sub in s` on strings. */
  predicate Contains(s: string, sub: string) {
    sub <= s || (s != [] && Contains(s[1..], sub))
  }

  /** `sub` is found wherever it occurs, not only at the start. */
  lemma {:induction false} ContainsAnywhere(a: string, sub: string, b: string)
    ensures Contains(a + sub + b, sub)
  {
    if a != [] {
      ContainsAnywhere(a[1..], sub, b);
      assert (a + sub + b)[1..] == a[1..] + sub + b;
    } else {
      assert a + sub + b == sub + b;
    }
  }

  /** `sub` occurs in `s` starting at index `i`. */
  predicate OccursAt(s: string, sub: string, i: int) {
    0 <= i <= |s| - |sub| && s[i..i + |sub|] == sub
  }

  /** When `sub in s` holds, `sub` occurs at some index of `s`. */
  lemma {:induction false} ContainsWitness(s: string, sub: string)
    requires Contains(s, sub)
    ensures exists i :: OccursAt(s, sub, i)
  {
    if sub <= s {
      assert OccursAt(s, sub, 0);
    } else {
      ContainsWitness(s[1..], sub);
      var i :| OccursAt(s[1..], sub, i);
      assert s[1..][i..i + |sub|] == s[i + 1..i + 1 + |sub|];
      assert OccursAt(s, sub, i + 1);
    }
  }

  // ---------------------------------------------------------------------
  // str.lower() on ASCII letters

  function LowerChar(c: char): (r: char)
    ensures 'A' <= c <= 'Z' ==> 'a' <= r <= 'z' && r as int == c as int + 32
    ensures !('A' <= c <= 'Z') ==> r == c
  {
    if 'A' <= c <= 'Z' then (c as int + 32) as char else c
  }

  function Lower(s: string): (r: string)
    ensures |r| == |s|
    ensures forall k :: 0 <= k < |r| ==> !('A' <= r[k] <= 'Z')
    ensures forall k :: 0 <= k < |s| && 'A' <= s[k] <= 'Z' ==> r[k] as int == s[k] as int + 32
    ensures forall k :: 0 <= k < |s| && !('A' <= s[k] <= 'Z') ==> r[k] == s[k]
  {
    seq(|s|, k requires 0 <= k < |s| => LowerChar(s[k]))
  }

  // ---------------------------------------------------------------------
  // f"{n}" for a natural number

  function Digit(d: nat): (c: char)
    requires d < 10
    ensures '0' <= c <= '9'
  {
    ('0' as int + d) as char
  }

  /** Decimal rendering, most significant digit first, no leading zeros. */
  function NatToString(n: nat): (r: string)
    ensures r != []
    ensures forall k :: 0 <= k < |r| ==> '0' <= r[k] <= '9'
  {
    if n < 10 then [Digit(n)] else NatToString(n / 10) + [Digit(n % 10)]
  }

  /** Reads a string of decimal digits back as a number. */
  function ParseNat(s: string): nat
    requires forall k :: 0 <= k < |s| ==> '0' <= s[k] <= '9'
  {
    if s == [] then 0 else ParseNat(s[..|s| - 1]) * 10 + (s[|s| - 1] as int - '0' as int)
  }

  /** The decimal rendering reads back as the same number. */
  lemma {:induction false} ParseNatToString(n: nat)
    ensures ParseNat(NatToString(n)) == n
  {
    if n >= 10 {
      var r := NatToString(n);
      ParseNatToString(n / 10);
      assert r[..|r| - 1] == NatToString(n / 10);
    } else {
      var r := NatToString(n);
      assert r[..|r| - 1] == [];
    }
  }

  /** Different numbers render differently. */
  lemma NatToStringInjective(m: nat, n: nat)
    requires NatToString(m) == NatToString(n)
    ensures m == n
  {
    ParseNatToString(m);
    ParseNatToString(n);
  }

  // ---------------------------------------------------------------------
  // os.path.join(dir, name) on POSIX

  function JoinPath(dir: string, name: string): string {
    if name != [] && name[0] == '/' then name
    else if dir == [] || dir[|dir| - 1] == '/' then dir + name
    else dir + "/" + name
  }

  /** The joined path ends with the name. */
  lemma JoinPathEndsWithName(dir: string, name: string)
    ensures |name| <= |JoinPath(dir, name)| && JoinPath(dir, name)[|JoinPath(dir, name)| - |name|..] == name
  {
  }
}
