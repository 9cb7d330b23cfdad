/**
  The pieces of Go's standard library that the command loop applies to each
  input line: `bufio.Reader.ReadString('\n')`, `strings.TrimSpace` and
  `strings.Fields`, the last two using `unicode.IsSpace` as their notion of
  white space.
 */
module GoStrings {
  import opened Wrappers

  /** `unicode.IsSpace`: the Latin-1 spaces and the Unicode White_Space code points. */
  predicate IsSpace(c: char) {
    || c == '\t' || c == '\n' || c == '\U{000B}' || c == '\U{000C}' || c == '\r' || c == ' '
    || c == '\U{0085}' || c == '\U{00A0}' || c == '\U{1680}'
    || ('\U{2000}' <= c <= '\U{200A}')
    || c == '\U{2028}' || c == '\U{2029}' || c == '\U{202F}' || c == '\U{205F}' || c == '\U{3000}'
  }

  predicate AllSpace(s: string) {
    forall i :: 0 <= i < |s| ==> IsSpace(s[i])
  }

  predicate NoSpace(s: string) {
    forall i :: 0 <= i < |s| ==> !IsSpace(s[i])
  }

  /** Index of the first occurrence of `c` in `s`. */
  function IndexOf(s: string, c: char): (r: Option<nat>)
    ensures r.Some? ==> r.value < |s| && s[r.value] == c && c !in s[..r.value]
    ensures r.None? <==> c !in s
  {
    if s == [] then None
    else if s[0] == c then Some(0)
    else
      match IndexOf(s[1..], c)
      case None => None
      case Some(i) => assert s[..i + 1] == [s[0]] + s[1..][..i]; Some(i + 1)
  }

  /**
    `ReadString('\n')` on the input not yet consumed: the line up to and
    including the first '\n', and what follows it. When no '\n' is left the
    reader reports an error, which the caller treats as end of input, so a
    final line without '\n' is never returned.
   */
  function ReadLine(input: string): (r: Option<(string, string)>)
    ensures r.None? <==> '\n' !in input
    ensures r.Some? ==> var (line, rest) := r.value;
      && input == line + rest
      && |line| > 0 && line[|line| - 1] == '\n'
      && '\n' !in line[..|line| - 1]
  {
    match IndexOf(input, '\n')
    case None => None
    case Some(i) =>
      assert input == input[..i + 1] + input[i + 1..];
      assert input[..i + 1][..i] == input[..i];
      Some((input[..i + 1], input[i + 1..]))
  }

  lemma ReadLineOf(line: string, rest: string)
    requires '\n' !in line
    ensures ReadLine(line + "\n" + rest) == Some((line + "\n", rest))
  {
    var input := line + "\n" + rest;
    assert input[|line|] == '\n';
    assert input[..|line|] == line;
    var (l, t) := ReadLine(input).value;
    assert input[..|l|] == l;
    assert |l| - 1 == |line|;
    assert l == input[..|line| + 1] == line + "\n";
  }

  /** `strings.TrimLeftFunc(s, unicode.IsSpace)`. */
  function TrimLeft(s: string): (r: string)
    ensures |r| <= |s| && r == s[|s| - |r|..]
    ensures r == [] || !IsSpace(r[0])
  {
    if s != [] && IsSpace(s[0]) then TrimLeft(s[1..]) else s
  }

  /** What `TrimLeft` cuts is white space. */
  lemma {:induction false} TrimLeftCutsSpace(s: string)
    ensures AllSpace(s[..|s| - |TrimLeft(s)|])
    decreases |s|
  {
    if s != [] && IsSpace(s[0]) {
      TrimLeftCutsSpace(s[1..]);
      SpaceThenSpaces(s, |s| - |TrimLeft(s)|);
    }
  }

  lemma SpaceThenSpaces(s: string, n: nat)
    requires 0 < n <= |s| && IsSpace(s[0]) && AllSpace(s[1..][..n - 1])
    ensures AllSpace(s[..n])
  {
    forall i | 0 <= i < n ensures IsSpace(s[i]) {
      if i > 0 { assert s[i] == s[1..][..n - 1][i - 1]; }
    }
  }

  /** `strings.TrimRightFunc(s, unicode.IsSpace)`. */
  function TrimRight(s: string): (r: string)
    ensures |r| <= |s| && r == s[..|r|]
    ensures r == [] || !IsSpace(r[|r| - 1])
  {
    if s != [] && IsSpace(s[|s| - 1]) then TrimRight(s[..|s| - 1]) else s
  }

  /** What `TrimRight` cuts is white space. */
  lemma {:induction false} TrimRightCutsSpace(s: string)
    ensures AllSpace(s[|TrimRight(s)|..])
    decreases |s|
  {
    if s != [] && IsSpace(s[|s| - 1]) {
      var n := |TrimRight(s)|;
      TrimRightCutsSpace(s[..|s| - 1]);
      forall i | n <= i < |s| ensures IsSpace(s[i]) {
        if i < |s| - 1 { assert s[i] == s[..|s| - 1][n..][i - n]; }
      }
    }
  }

  /** `strings.TrimSpace`: `s` without its leading and trailing white space. */
  function TrimSpace(s: string): (r: string)
    ensures |r| <= |s|
    ensures r == [] || (!IsSpace(r[0]) && !IsSpace(r[|r| - 1]))
  {
    var t := TrimLeft(s);
    var r := TrimRight(t);
    assert r != [] ==> r[0] == t[0];
    r
  }

  /**
    `TrimSpace` cuts only white space, from both ends, and leaves no white
    space at either end; `a` is where the result starts in `s`.
   */
  lemma TrimSpaceSlice(s: string) returns (a: nat, r: string)
    ensures r == TrimSpace(s)
    ensures a + |r| <= |s| && r == s[a..a + |r|] && AllSpace(s[..a]) && AllSpace(s[a + |r|..])
    ensures r == [] || (!IsSpace(r[0]) && !IsSpace(r[|r| - 1]))
  {
    var t := TrimLeft(s);
    r := TrimRight(t);
    a := |s| - |t|;
    TrimLeftCutsSpace(s);
    TrimRightCutsSpace(t);
    TrimBounds(s, t, r, a);
  }

  lemma TrimBounds(s: string, t: string, r: string, a: nat)
    requires a <= |s| && t == s[a..] && AllSpace(s[..a]) && (t == [] || !IsSpace(t[0]))
    requires |r| <= |t| && r == t[..|r|] && AllSpace(t[|r|..]) && (r == [] || !IsSpace(r[|r| - 1]))
    ensures a + |r| <= |s| && r == s[a..a + |r|] && AllSpace(s[..a]) && AllSpace(s[a + |r|..])
    ensures r == [] || (!IsSpace(r[0]) && !IsSpace(r[|r| - 1]))
  {
    assert s[a + |r|..] == t[|r|..];
    if r != [] {
      assert r[0] == t[0];
    }
  }

  /** The longest prefix of `s` holding no white space. */
  function Word(s: string): (w: string)
    ensures w <= s && NoSpace(w)
    ensures |w| == |s| || IsSpace(s[|w|])
  {
    if s == [] || IsSpace(s[0]) then [] else [s[0]] + Word(s[1..])
  }

  /**
    `strings.Fields`: the maximal runs of non-space characters of `s`, in
    order.
   */
  function Fields(s: string): (r: seq<string>)
    ensures |r| <= |s|
    decreases |s|
  {
    if s == [] then []
    else if IsSpace(s[0]) then Fields(s[1..])
    else
      var w := Word(s);
      [w] + Fields(s[|w|..])
  }

  /** Every field is non-empty and holds no white space. */
  lemma {:induction false} FieldsAreWords(s: string)
    ensures forall i :: 0 <= i < |Fields(s)| ==> |Fields(s)[i]| > 0 && NoSpace(Fields(s)[i])
    decreases |s|
  {
    if s != [] {
      if IsSpace(s[0]) {
        FieldsAreWords(s[1..]);
      } else {
        var w := Word(s);
        FieldsAreWords(s[|w|..]);
        var f := Fields(s);
        assert f == [w] + Fields(s[|w|..]);
        forall i | 0 <= i < |f| ensures |f[i]| > 0 && NoSpace(f[i]) {
          if i > 0 { assert f[i] == Fields(s[|w|..])[i - 1]; }
        }
      }
    }
  }

  /** A line has no fields exactly when it is all white space. */
  lemma {:induction false} FieldsEmptyIffBlank(s: string)
    ensures Fields(s) == [] <==> AllSpace(s)
    decreases |s|
  {
    if s != [] {
      if IsSpace(s[0]) {
        FieldsEmptyIffBlank(s[1..]);
        if AllSpace(s[1..]) {
          forall i | 0 <= i < |s| ensures IsSpace(s[i]) {
            if i > 0 { assert s[i] == s[1..][i - 1]; }
          }
        }
      } else {
        assert |Word(s)| > 0;
      }
    }
  }

  lemma {:induction false} FieldsSpacePrefix(p: string, t: string)
    requires AllSpace(p)
    ensures Fields(p + t) == Fields(t)
    decreases |p|
  {
    if p != [] {
      assert (p + t)[0] == p[0] && IsSpace(p[0]);
      assert (p + t)[1..] == p[1..] + t;
      FieldsSpacePrefix(p[1..], t);
      assert Fields(p + t) == Fields((p + t)[1..]);
    } else {
      assert p + t == t;
    }
  }

  lemma {:induction false} WordSpaceSuffix(t: string, p: string)
    requires p == [] || IsSpace(p[0])
    ensures Word(t + p) == Word(t)
    decreases |t|
  {
    if t == [] {
    } else {
      assert (t + p)[0] == t[0];
      assert (t + p)[1..] == t[1..] + p;
      WordSpaceSuffix(t[1..], p);
    }
  }

  lemma {:induction false} FieldsSpaceSuffix(t: string, p: string)
    requires AllSpace(p)
    ensures Fields(t + p) == Fields(t)
    decreases |t|
  {
    if t == [] {
      assert t + p == p;
      FieldsEmptyIffBlank(p);
    } else {
      assert (t + p)[0] == t[0];
      if IsSpace(t[0]) {
        assert (t + p)[1..] == t[1..] + p;
        FieldsSpaceSuffix(t[1..], p);
      } else {
        WordSpaceSuffix(t, p);
        var w := Word(t);
        assert (t + p)[|w|..] == t[|w|..] + p;
        FieldsSpaceSuffix(t[|w|..], p);
      }
    }
  }

  /** Trimming before splitting, as the command loop does, changes nothing. */
  lemma FieldsOfTrimSpace(s: string)
    ensures Fields(TrimSpace(s)) == Fields(s)
  {
    FieldsOfTrimLeft(s);
    FieldsOfTrimRight(TrimLeft(s));
  }

  lemma {:induction false} FieldsOfTrimLeft(s: string)
    ensures Fields(TrimLeft(s)) == Fields(s)
    decreases |s|
  {
    if s != [] && IsSpace(s[0]) {
      FieldsOfTrimLeft(s[1..]);
    }
  }

  lemma {:induction false} FieldsOfTrimRight(s: string)
    ensures Fields(TrimRight(s)) == Fields(s)
    decreases |s|
  {
    if s != [] && IsSpace(s[|s| - 1]) {
      var u := s[..|s| - 1];
      FieldsOfTrimRight(u);
      assert s == u + [s[|s| - 1]];
      FieldsSpaceSuffix(u, [s[|s| - 1]]);
    }
  }


  lemma {:induction false} WordBeforeSpace(w: string, rest: string)
    requires NoSpace(w)
    requires rest == [] || IsSpace(rest[0])
    ensures Word(w + rest) == w
    decreases |w|
  {
    if w == [] {
      assert w + rest == rest;
    } else {
      assert (w + rest)[0] == w[0];
      assert (w + rest)[1..] == w[1..] + rest;
      WordBeforeSpace(w[1..], rest);
    }
  }

  /** A word followed by white space and more text splits off as the first field. */
  lemma FieldsCons(w: string, rest: string)
    requires |w| > 0 && NoSpace(w)
    requires rest == [] || IsSpace(rest[0])
    ensures Fields(w + rest) == [w] + Fields(rest)
  {
    WordBeforeSpace(w, rest);
    assert (w + rest)[0] == w[0];
    assert (w + rest)[|w|..] == rest;
  }
}
