/**
  Repository addressing of the remote helper: the `repository` record, its
  `String` method, and the match of the unanchored pattern
  `joystream://(.+)/(.+)/(.+)` that `cmdRoot` applies to the invocation URL.

  The pattern is modelled by what Go's leftmost-first regular-expression
  semantics make of it, not by a matcher: the match starts at the first
  occurrence of `joystream://` that can be completed; `.` never matches
  '\n', so the three groups lie on the line that follows the scheme; the
  first group is as long as possible, then the second, and the third runs to
  the end of that line. So `joystream://a/b/c/d` gives the chain ID `a/b`.
 */
module JoystreamUrl {
  import opened Wrappers

  datatype Repository = Repository(chainID: string, owner: string, name: string) {
    /** `repository.String()`: the three fields joined by '/'. */
    function String(): (s: string)
      ensures |s| == |chainID| + |owner| + |name| + 2
      ensures s[..|chainID|] == chainID && s[|chainID|] == '/'
      ensures s[|chainID| + 1..|chainID| + 1 + |owner|] == owner && s[|chainID| + 1 + |owner|] == '/'
      ensures s[|chainID| + |owner| + 2..] == name
    {
      chainID + "/" + owner + "/" + name
    }
  }

  const Scheme: string := "joystream://"

  /** What one `(.+)` group can capture. */
  predicate Group(s: string) {
    |s| > 0 && '\n' !in s
  }

  /** `joystream://` followed by the three groups occurs in `url` at index `k`. */
  ghost predicate MatchesAt(url: string, k: nat, r: Repository) {
    && Group(r.chainID) && Group(r.owner) && Group(r.name)
    && k <= |url|
    && Scheme + r.String() <= url[k..]
  }

  /** The largest index below `n` holding `c`. */
  function LastIndexBelow(s: string, c: char, n: nat): (r: Option<nat>)
    requires n <= |s|
    ensures r.Some? ==> r.value < n && s[r.value] == c
    ensures r.Some? ==> forall j :: r.value < j < n ==> s[j] != c
    ensures r.None? ==> forall j :: 0 <= j < n ==> s[j] != c
  {
    if n == 0 then None
    else if s[n - 1] == c then Some(n - 1)
    else LastIndexBelow(s, c, n - 1)
  }

  /** The text of `s` before its first '\n'. */
  function LineOf(s: string): (l: string)
    ensures l <= s && '\n' !in l
    ensures |l| == |s| || s[|l|] == '\n'
  {
    if s == [] || s[0] == '\n' then [] else [s[0]] + LineOf(s[1..])
  }

  /**
    The three groups matched on `line` (which holds no '\n'): the owner ends
    at the last '/' that leaves a non-empty name, and the chain ID ends at the
    last '/' before that which leaves a non-empty owner and chain ID.
   */
  function SplitGroups(line: string): (r: Option<Repository>)
    requires '\n' !in line
    ensures r.Some? ==> Group(r.value.chainID) && Group(r.value.owner) && Group(r.value.name)
    ensures r.Some? ==> line == r.value.String()
  {
    if |line| < 1 then None
    else
      match LastIndexBelow(line, '/', |line| - 1)
      case None => None
      case Some(j) =>
        if j < 2 then None
        else
          match LastIndexBelow(line, '/', j - 1)
          case None => None
          case Some(i) =>
            if i == 0 then None
            else
              var r := Cut(line, i, j);
              assert line == r.String();
              Some(r)
  }

  /** The three groups of `line` around the '/' at `i` and the '/' at `j`. */
  function Cut(line: string, i: nat, j: nat): Repository
    requires i < j < |line|
  {
    Repository(line[..i], line[i + 1..j], line[j + 1..])
  }

  /** The leftmost match starting at `k` or later, with its start. */
  function FindFrom(url: string, k: nat): (r: Option<(nat, Repository)>)
    requires k <= |url|
    ensures r.Some? ==> k <= r.value.0 && MatchesAt(url, r.value.0, r.value.1)
    decreases |url| - k
  {
    if |url| - k < |Scheme| then None
    else if url[k..k + |Scheme|] == Scheme then
      var line := LineOf(url[k + |Scheme|..]);
      match SplitGroups(line)
      case Some(r) =>
        SchemeThenLine(url, k, line);
        Some((k, r))
      case None => FindFrom(url, k + 1)
    else FindFrom(url, k + 1)
  }

  lemma SchemeThenLine(url: string, k: nat, line: string)
    requires k + |Scheme| <= |url| && url[k..k + |Scheme|] == Scheme
    requires line <= url[k + |Scheme|..]
    ensures Scheme + line <= url[k..]
  {
    assert url[k..] == Scheme + url[k + |Scheme|..];
  }

  /** `reJoystreamURL.FindStringSubmatch(url)`, with the groups as a repository. */
  function ParseURL(url: string): (r: Option<Repository>)
    ensures r.Some? ==> exists k :: MatchesAt(url, k, r.value)
  {
    match FindFrom(url, 0)
    case None => None
    case Some((_, repo)) => Some(repo)
  }

  /**
    Any way of cutting the three groups from the start of `line` is no
    longer, group by group in priority order, than the one `SplitGroups`
    picks; in particular `SplitGroups` finds one whenever one exists.
   */
  lemma SplitGroupsGreedy(line: string, q: Repository)
    requires '\n' !in line
    requires Group(q.chainID) && Group(q.owner) && Group(q.name)
    requires q.String() <= line
    ensures SplitGroups(line).Some?
    ensures var r := SplitGroups(line).value;
      && |q.chainID| <= |r.chainID|
      && (q.chainID == r.chainID ==> |q.owner| <= |r.owner|)
      && (q.chainID == r.chainID && q.owner == r.owner ==> |q.name| <= |r.name|)
  {
    var a, b := |q.chainID|, |q.chainID| + 1 + |q.owner|;
    assert line[a] == q.String()[a] == '/';
    assert line[b] == q.String()[b] == '/';
    assert b < |line| - 1;
    var j := LastIndexBelow(line, '/', |line| - 1);
    assert j.Some? && j.value >= b;
    var i := LastIndexBelow(line, '/', j.value - 1);
    assert i.Some? && i.value >= a;
    var r := SplitGroups(line).value;
    assert |r.chainID| == i.value;
    if q.chainID == r.chainID {
      assert |r.owner| == j.value - i.value - 1;
      if q.owner == r.owner {
        assert |r.name| == |line| - j.value - 1;
      }
    }
  }

  /**
    `SplitGroups` yields nothing on `line` only when the pattern cannot be
    completed there.
   */
  lemma SplitGroupsNone(line: string, q: Repository)
    requires '\n' !in line && SplitGroups(line).None?
    ensures !(Group(q.chainID) && Group(q.owner) && Group(q.name) && q.String() <= line)
  {
    if Group(q.chainID) && Group(q.owner) && Group(q.name) && q.String() <= line {
      SplitGroupsGreedy(line, q);
    }
  }

  /** Three groups that fit on the line after `k` can be cut from that line. */
  lemma MatchOnLine(url: string, k: nat, q: Repository)
    requires MatchesAt(url, k, q)
    ensures k + |Scheme| <= |url| && url[k..k + |Scheme|] == Scheme
    ensures q.String() <= LineOf(url[k + |Scheme|..])
  {
    AfterScheme(url[k..], q.String());
    assert url[k..][..|Scheme|] == url[k..k + |Scheme|];
    assert url[k..][|Scheme|..] == url[k + |Scheme|..];
    RenderedNoNewline(q);
    PrefixOfLine(url[k + |Scheme|..], q.String());
  }

  lemma AfterScheme(u: string, p: string)
    requires Scheme + p <= u
    ensures |Scheme| <= |u| && u[..|Scheme|] == Scheme && p <= u[|Scheme|..]
  {
    assert (Scheme + p)[..|Scheme|] == Scheme;
    forall t | 0 <= t < |p| ensures p[t] == u[|Scheme|..][t] {
      assert (Scheme + p)[|Scheme| + t] == p[t];
    }
  }

  /** A prefix without '\n' lies within the first line. */
  lemma PrefixOfLine(s: string, p: string)
    requires p <= s && '\n' !in p
    ensures p <= LineOf(s)
  {
    assert forall t :: 0 <= t < |p| ==> s[t] == p[t] && s[t] != '\n';
  }

  lemma {:induction false} FindFromLeftmostGreedy(url: string, from: nat, k: nat, q: Repository)
    requires from <= k && MatchesAt(url, k, q)
    ensures FindFrom(url, from).Some?
    ensures var (start, r) := FindFrom(url, from).value;
      && start <= k
      && (start == k ==>
          && |q.chainID| <= |r.chainID|
          && (q.chainID == r.chainID ==> |q.owner| <= |r.owner|)
          && (q.chainID == r.chainID && q.owner == r.owner ==> |q.name| <= |r.name|))
    decreases k - from
  {
    MatchOnLine(url, k, q);
    var found := url[from..from + |Scheme|] == Scheme
      && SplitGroups(LineOf(url[from + |Scheme|..])).Some?;
    if from == k {
      SplitGroupsGreedy(LineOf(url[k + |Scheme|..]), q);
    } else if !found {
      FindFromLeftmostGreedy(url, from + 1, k, q);
    }
  }

  /**
    The parsed repository comes from the leftmost match of the URL, and its
    groups are the greedy choice among all matches starting there: group one
    as long as possible, then group two, then group three.
   */
  lemma ParseURLLeftmostGreedy(url: string, k: nat, q: Repository)
    requires MatchesAt(url, k, q)
    ensures ParseURL(url).Some?
    ensures FindFrom(url, 0).value.0 <= k
    ensures FindFrom(url, 0).value.0 == k ==>
      var r := ParseURL(url).value;
      && |q.chainID| <= |r.chainID|
      && (q.chainID == r.chainID ==> |q.owner| <= |r.owner|)
      && (q.chainID == r.chainID && q.owner == r.owner ==> |q.name| <= |r.name|)
  {
    FindFromLeftmostGreedy(url, 0, k, q);
  }

  /** A URL holding no match parses to nothing. */
  lemma ParseURLNone(url: string)
    requires ParseURL(url).None?
    ensures forall k: nat, q :: !MatchesAt(url, k, q)
  {
    forall k: nat, q | MatchesAt(url, k, q) ensures false {
      ParseURLLeftmostGreedy(url, k, q);
    }
  }

  lemma RenderedNoNewline(r: Repository)
    requires Group(r.chainID) && Group(r.owner) && Group(r.name)
    ensures '\n' !in r.String()
  {
    var s := r.String();
    var c, o := |r.chainID|, |r.owner|;
    forall t | 0 <= t < |s| ensures s[t] != '\n' {
      if t < c { assert s[t] == s[..c][t] == r.chainID[t]; }
      else if c < t < c + 1 + o { assert s[t] == s[c + 1..c + 1 + o][t - c - 1] == r.owner[t - c - 1]; }
      else if t > c + 1 + o { assert s[t] == s[c + o + 2..][t - c - o - 2] == r.name[t - c - o - 2]; }
    }
  }

  lemma LastIndexIs(s: string, c: char, n: nat, v: nat)
    requires v < n <= |s| && s[v] == c
    requires forall t :: v < t < n ==> s[t] != c
    ensures LastIndexBelow(s, c, n) == Some(v)
  {
    var r := LastIndexBelow(s, c, n);
    assert r.Some?;
  }

  lemma SplitGroupsAt(line: string, i: nat, j: nat)
    requires '\n' !in line && 0 < i && i + 2 <= j < |line| - 1
    requires LastIndexBelow(line, '/', |line| - 1) == Some(j)
    requires LastIndexBelow(line, '/', j - 1) == Some(i)
    ensures SplitGroups(line) == Some(Cut(line, i, j))
  {
    var r := SplitGroups(line);
    assert r.Some?;
  }

  /** In the rendering, the '/' before the name is the last one before the final character. */
  lemma LastSlashBeforeName(r: Repository)
    requires Group(r.name) && '/' !in r.name
    ensures LastIndexBelow(r.String(), '/', |r.String()| - 1) == Some(|r.chainID| + 1 + |r.owner|)
  {
    var s := r.String();
    var j := |r.chainID| + 1 + |r.owner|;
    forall t | j < t < |s| - 1 ensures s[t] != '/' {
      assert s[t] == s[j + 1..][t - j - 1] == r.name[t - j - 1];
    }
    LastIndexIs(s, '/', |s| - 1, j);
  }

  /** In the rendering, the '/' after the chain ID is the last one before the owner's last character. */
  lemma LastSlashBeforeOwner(r: Repository)
    requires Group(r.owner) && '/' !in r.owner
    ensures LastIndexBelow(r.String(), '/', |r.chainID| + |r.owner|) == Some(|r.chainID|)
  {
    var s := r.String();
    var c := |r.chainID|;
    forall t | c < t < c + |r.owner| ensures s[t] != '/' {
      assert s[t] == s[c + 1..c + 1 + |r.owner|][t - c - 1] == r.owner[t - c - 1];
    }
    LastIndexIs(s, '/', c + |r.owner|, c);
  }

  /** A rendered repository without '/' in owner or name splits back into its groups. */
  lemma SplitRendered(r: Repository)
    requires Group(r.chainID) && Group(r.owner) && Group(r.name)
    requires '/' !in r.owner && '/' !in r.name
    ensures '\n' !in r.String()
    ensures SplitGroups(r.String()) == Some(r)
  {
    RenderedNoNewline(r);
    LastSlashBeforeName(r);
    LastSlashBeforeOwner(r);
    SplitGroupsAt(r.String(), |r.chainID|, |r.chainID| + 1 + |r.owner|);
  }

  /** A '\n'-free line is its own first line. */
  lemma {:induction false} LineOfNoNewline(s: string)
    requires '\n' !in s
    ensures LineOf(s) == s
  {
    if s != [] {
      assert s[1..] == s[1..];
      LineOfNoNewline(s[1..]);
    }
  }

  /**
    Round trip: rendering a repository after the scheme parses back to it
    whenever its owner and name hold no '/' (the chain ID may hold any).
   */
  lemma ParseRendered(r: Repository)
    requires Group(r.chainID) && Group(r.owner) && Group(r.name)
    requires '/' !in r.owner && '/' !in r.name
    ensures ParseURL(Scheme + r.String()) == Some(r)
  {
    var url := Scheme + r.String();
    SplitRendered(r);
    assert url[0..|Scheme|] == Scheme;
    assert url[|Scheme|..] == r.String();
    LineOfNoNewline(r.String());
    assert FindFrom(url, 0) == Some((0, r));
  }

  /** The pattern's groups and their rendering for `joystream://c1/o1/r1`. */
  lemma ParseExample()
    ensures ParseURL("joystream://c1/o1/r1") == Some(Repository("c1", "o1", "r1"))
    ensures Repository("c1", "o1", "r1").String() == "c1/o1/r1"
  {
    var r := Repository("c1", "o1", "r1");
    assert Scheme + r.String() == "joystream://c1/o1/r1";
    ParseRendered(r);
  }

  /** Extra path segments are not rejected: they go to the chain ID. */
  lemma ParseFourSegments()
    ensures ParseURL("joystream://a/b/c/d") == Some(Repository("a/b", "c", "d"))
  {
    var r := Repository("a/b", "c", "d");
    assert Scheme + r.String() == "joystream://a/b/c/d";
    ParseRendered(r);
  }
}
