/** `slugify`: the normaliser that turns a battery's display name into the
    identifier used in topics and unique ids. It lower-cases the name, replaces
    every maximal run of characters other than `a`-`z` and `0`-`9` by one `_`,
    and strips `_` from both ends. */
module Slug {
  import opened Common

  /** The characters the replacement keeps: `[a-z0-9]`. */
  predicate IsAlnum(c: char) {
    'a' <= c <= 'z' || '0' <= c <= '9'
  }

  /** The characters a slug may contain: `[a-z0-9_]`. */
  predicate IsSlugChar(c: char) {
    IsAlnum(c) || c == '_'
  }

  predicate AllSlugChars(s: string) {
    forall i :: 0 <= i < |s| ==> IsSlugChar(s[i])
  }

  /** No two `_` stand next to each other. */
  predicate NoDoubleUnderscore(s: string) {
    forall i :: 0 < i < |s| ==> NoUnderscorePairAt(s, i)
  }

  /** The characters at `i - 1` and `i` are not both `_`. */
  predicate NoUnderscorePairAt(s: string, i: int)
    requires 0 < i < |s|
  {
    !(s[i - 1] == '_' && s[i] == '_')
  }

  /** Putting a character in front keeps a string free of `__`, unless both the
      character and the string's first character are `_`. */
  lemma NoDoubleUnderscoreCons(c: char, t: string)
    requires NoDoubleUnderscore(t)
    requires c == '_' && t != [] ==> t[0] != '_'
    ensures NoDoubleUnderscore([c] + t)
  {
    var u := [c] + t;
    forall i | 0 < i < |u| ensures NoUnderscorePairAt(u, i) {
      if i > 1 {
        assert NoUnderscorePairAt(t, i - 1);
      }
    }
  }

  /** What a slug looks like: only `[a-z0-9_]`, no `__`, and no `_` at either end. */
  predicate IsSlug(s: string) {
    AllSlugChars(s) && NoDoubleUnderscore(s) && (s != [] ==> s[0] != '_' && s[|s| - 1] != '_')
  }

  /** The letters and digits of `s`, in order. */
  function Alnums(s: string): (r: string)
    ensures forall i :: 0 <= i < |r| ==> IsAlnum(r[i])
  {
    if s == [] then []
    else if IsAlnum(s[0]) then [s[0]] + Alnums(s[1..])
    else Alnums(s[1..])
  }

  /** `re.sub(r'[^a-z0-9]+', '_', s)`. `inRun` says that the character
      before `s` was already part of a replaced run, so the run continues. */
  function ReplaceRuns(s: string, inRun: bool): (r: string)
    ensures AllSlugChars(r)
    ensures NoDoubleUnderscore(r)
    ensures inRun && r != [] ==> r[0] != '_'
    ensures Alnums(r) == Alnums(s)
  {
    if s == [] then []
    else if IsAlnum(s[0]) then
      var t := ReplaceRuns(s[1..], false);
      NoDoubleUnderscoreCons(s[0], t);
      [s[0]] + t
    else if inRun then ReplaceRuns(s[1..], true)
    else
      var t := ReplaceRuns(s[1..], true);
      NoDoubleUnderscoreCons('_', t);
      "_" + t
  }

  /** `s.lstrip('_')`: the suffix left after removing every leading `_`. */
  function StripLeading(s: string): (r: string)
    ensures |r| <= |s| && r == s[|s| - |r|..]
    ensures forall i :: 0 <= i < |s| - |r| ==> s[i] == '_'
    ensures r != [] ==> r[0] != '_'
  {
    if s != [] && s[0] == '_' then StripLeading(s[1..]) else s
  }

  /** `s.rstrip('_')`: the prefix left after removing every trailing `_`. */
  function StripTrailing(s: string): (r: string)
    ensures |r| <= |s| && r == s[..|r|]
    ensures forall i :: |r| <= i < |s| ==> s[i] == '_'
    ensures r != [] ==> r[|r| - 1] != '_'
  {
    if s != [] && s[|s| - 1] == '_' then StripTrailing(s[..|s| - 1]) else s
  }

  /** Removing `_` never removes a letter or a digit. */
  lemma {:induction false} AlnumsOfUnderscoreSplit(a: string, b: string)
    requires forall i :: 0 <= i < |a| ==> a[i] == '_'
    ensures Alnums(a + b) == Alnums(b)
  {
    if a != [] {
      assert (a + b)[0] == a[0] && (a + b)[1..] == a[1..] + b;
      AlnumsOfUnderscoreSplit(a[1..], b);
    } else {
      assert a + b == b;
    }
  }

  lemma {:induction false} AlnumsOfConcat(a: string, b: string)
    ensures Alnums(a + b) == Alnums(a) + Alnums(b)
  {
    if a != [] {
      assert (a + b)[0] == a[0] && (a + b)[1..] == a[1..] + b;
      AlnumsOfConcat(a[1..], b);
      assert Alnums(a + b) == (if IsAlnum(a[0]) then [a[0]] else []) + Alnums(a[1..] + b);
    } else {
      assert a + b == b;
    }
  }

  /** Removing leading `_` keeps every letter and digit, in order. */
  lemma StripLeadingKeepsAlnums(s: string)
    ensures Alnums(StripLeading(s)) == Alnums(s)
  {
    var l := StripLeading(s);
    var k := |s| - |l|;
    assert s == s[..k] + l;
    AlnumsOfUnderscoreSplit(s[..k], l);
  }

  /** Removing trailing `_` keeps every letter and digit, in order. */
  lemma StripTrailingKeepsAlnums(s: string)
    ensures Alnums(StripTrailing(s)) == Alnums(s)
  {
    var r := StripTrailing(s);
    var u := s[|r|..];
    assert s == r + u;
    AlnumsOfConcat(r, u);
    AlnumsOfUnderscoreSplit(u, []);
    assert u + [] == u;
  }

  /** A slice of a string of slug characters without `__` is again one. */
  lemma SliceKeepsShape(s: string, i: nat, j: nat)
    requires i <= j <= |s|
    requires AllSlugChars(s) && NoDoubleUnderscore(s)
    ensures AllSlugChars(s[i..j]) && NoDoubleUnderscore(s[i..j])
  {
    var t := s[i..j];
    forall k | 0 <= k < |t| ensures IsSlugChar(t[k]) {
      assert t[k] == s[i + k];
    }
    forall k | 0 < k < |t| ensures NoUnderscorePairAt(t, k) {
      assert t[k - 1] == s[i + k - 1] && t[k] == s[i + k];
      assert NoUnderscorePairAt(s, i + k);
    }
  }

  /** Stripping a string of slug characters without `__` leaves a slug. */
  lemma StripIsSlug(t: string)
    requires AllSlugChars(t) && NoDoubleUnderscore(t)
    ensures IsSlug(Strip(t))
  {
    var l := StripLeading(t);
    var r := StripTrailing(l);
    assert Strip(t) == r;
    SliceKeepsShape(t, |t| - |l|, |t|);
    assert t[|t| - |l|..|t|] == l;
    SliceKeepsShape(l, 0, |r|);
    assert l[0..|r|] == r;
    assert AllSlugChars(r) && NoDoubleUnderscore(r);
    if r != [] {
      assert r[0] == l[0];
    }
  }

  /** `s.strip('_')`: the middle of `s` between its leading and its trailing `_`;
      no `_` is left at either end, and every letter and digit is kept. */
  function Strip(s: string): (r: string)
    ensures r != [] ==> r[0] != '_' && r[|r| - 1] != '_'
    ensures Alnums(r) == Alnums(s)
  {
    var l := StripLeading(s);
    StripLeadingKeepsAlnums(s);
    StripTrailingKeepsAlnums(l);
    var r := StripTrailing(l);
    assert r != [] ==> r[0] == l[0];
    r
  }

  /** What the two strips leave is the slice of `s` between its leading and its
      trailing `_`. */
  lemma StripKeepsMiddle(s: string)
    ensures var i := |s| - |StripLeading(s)|; var r := Strip(s);
      && i + |r| <= |s| && r == s[i..i + |r|]
      && (forall k :: 0 <= k < i ==> s[k] == '_')
      && (forall k :: i + |r| <= k < |s| ==> s[k] == '_')
  {
    var l := StripLeading(s);
    var i := |s| - |l|;
    var r := StripTrailing(l);
    assert Strip(s) == r;
    PrefixOfSuffix(s, i, |r|);
    forall k | i + |r| <= k < |s| ensures s[k] == '_' {
      assert s[k] == l[k - i];
    }
  }

  /** A prefix of a suffix is a slice. */
  lemma PrefixOfSuffix(s: string, i: nat, n: nat)
    requires i + n <= |s|
    ensures s[i..][..n] == s[i..i + n]
  {
  }

  /** `slugify(name)`: the slug has only `[a-z0-9_]`, no `__` and no `_` at either
      end, and it holds exactly the letters and digits of the lower-cased name, in order. */
  function Slugify(name: string): (r: string)
    ensures IsSlug(r)
    ensures Alnums(r) == Alnums(Lower(name))
  {
    var t := ReplaceRuns(Lower(name), false);
    StripIsSlug(t);
    Strip(t)
  }

  /** Replacing runs leaves a string of slug characters without `__` unchanged,
      provided it does not start with a `_` that continues a run. */
  lemma {:induction false} ReplaceRunsOfSlugChars(s: string, inRun: bool)
    requires AllSlugChars(s) && NoDoubleUnderscore(s)
    requires inRun && s != [] ==> s[0] != '_'
    ensures ReplaceRuns(s, inRun) == s
  {
    if s != [] {
      SliceKeepsShape(s, 1, |s|);
      assert s[1..|s|] == s[1..];
      if IsAlnum(s[0]) {
        ReplaceRunsOfSlugChars(s[1..], false);
      } else {
        assert s[0] == '_';
        assert |s| > 1 ==> NoUnderscorePairAt(s, 1);
        ReplaceRunsOfSlugChars(s[1..], true);
      }
    }
  }

  /** A word of letters and digits is copied, and what follows it starts afresh. */
  lemma {:induction false} ReplaceRunsKeepsWord(w: string, rest: string, inRun: bool)
    requires w != [] && forall k :: 0 <= k < |w| ==> IsAlnum(w[k])
    ensures ReplaceRuns(w + rest, inRun) == w + ReplaceRuns(rest, false)
  {
    ConsOfConcat(w, rest);
    ReplaceRunsOfAlnumCons(w[0], w[1..] + rest, inRun);
    if |w| > 1 {
      ReplaceRunsKeepsWord(w[1..], rest, false);
    } else {
      assert w[1..] + rest == rest;
    }
    ConsOfConcat(w, ReplaceRuns(rest, false));
  }

  /** Splitting off the head of the left operand of a concatenation. */
  lemma ConsOfConcat(w: string, rest: string)
    requires w != []
    ensures w + rest == [w[0]] + (w[1..] + rest)
  {
  }

  /** A letter or digit is copied, and ends any run in progress. */
  lemma ReplaceRunsOfAlnumCons(c: char, t: string, inRun: bool)
    requires IsAlnum(c)
    ensures ReplaceRuns([c] + t, inRun) == [c] + ReplaceRuns(t, false)
  {
    assert ([c] + t)[0] == c && ([c] + t)[1..] == t;
  }

  /** A maximal run of characters outside `[a-z0-9]` becomes exactly one `_`, or
      nothing when it continues a run that was already replaced. */
  lemma {:induction false} ReplaceRunsOfSeparators(sep: string, rest: string, inRun: bool)
    requires sep != [] && forall k :: 0 <= k < |sep| ==> !IsAlnum(sep[k])
    requires rest == [] || IsAlnum(rest[0])
    ensures ReplaceRuns(sep + rest, inRun) == (if inRun then [] else "_") + ReplaceRuns(rest, false)
  {
    assert (sep + rest)[0] == sep[0] && (sep + rest)[1..] == sep[1..] + rest;
    if |sep| == 1 {
      assert sep[1..] + rest == rest;
      assert ReplaceRuns(rest, true) == ReplaceRuns(rest, false);
    } else {
      ReplaceRunsOfSeparators(sep[1..], rest, true);
    }
  }

  /** A prefix of slug characters without `__` that ends in a letter or digit is
      copied, and what follows it starts afresh. */
  lemma {:induction false} ReplaceRunsKeepsSlugPrefix(x: string, rest: string)
    requires x != [] && AllSlugChars(x) && NoDoubleUnderscore(x) && IsAlnum(x[|x| - 1])
    ensures ReplaceRuns(x + rest, false) == x + ReplaceRuns(rest, false)
  {
    var t := x[1..];
    ConsOfConcat(x, rest);
    if |x| == 1 {
      assert t + rest == rest;
      ReplaceRunsOfAlnumCons(x[0], t + rest, false);
    } else {
      SliceKeepsShape(x, 1, |x|);
      assert x[1..|x|] == t;
      assert t[|t| - 1] == x[|x| - 1];
      ReplaceRunsKeepsSlugPrefix(t, rest);
      if IsAlnum(x[0]) {
        ReplaceRunsOfAlnumCons(x[0], t + rest, false);
      } else {
        assert NoUnderscorePairAt(x, 1);
        ReplaceRunsOfSeparatorCons(x[0], t + rest);
        assert (t + rest)[0] == t[0];
        ReplaceRunsAtWord(t + rest);
      }
    }
    ConsOfConcat(x, ReplaceRuns(rest, false));
  }

  /** Outside a run, any other character starts one and becomes `_`. */
  lemma ReplaceRunsOfSeparatorCons(c: char, t: string)
    requires !IsAlnum(c)
    ensures ReplaceRuns([c] + t, false) == "_" + ReplaceRuns(t, true)
  {
    assert ([c] + t)[0] == c && ([c] + t)[1..] == t;
  }

  /** At a letter or digit, replacement goes on the same way whether or not a run
      was in progress. */
  lemma ReplaceRunsAtWord(s: string)
    requires s != [] && IsAlnum(s[0])
    ensures ReplaceRuns(s, true) == ReplaceRuns(s, false)
  {
  }

  /** A string with no `_` at either end is left as it is by `strip('_')`. */
  lemma StripOfTrimmed(t: string)
    requires t != [] && t[0] != '_' && t[|t| - 1] != '_'
    ensures Strip(t) == t
  {
    assert StripLeading(t) == t;
    assert StripTrailing(t) == t;
  }

  /** Run replacement turns the separator between two slugs into one `_`. */
  lemma ReplaceRunsJoin(x: string, sep: string, y: string)
    requires IsSlug(x) && IsSlug(y) && x != [] && y != []
    requires sep != [] && forall k :: 0 <= k < |sep| ==> !IsAlnum(sep[k])
    ensures ReplaceRuns(x + sep + y, false) == x + "_" + y
  {
    assert x + sep + y == x + (sep + y);
    ReplaceRunsKeepsSlugPrefix(x, sep + y);
    ReplaceRunsOfSeparators(sep, y, false);
    ReplaceRunsOfSlugChars(y, false);
  }

  /** Two slugs separated by a run of other characters come out joined by one `_`:
      `slugify("a b") == "a_b"`. */
  lemma SlugifyJoin(x: string, sep: string, y: string)
    requires IsSlug(x) && IsSlug(y) && x != [] && y != []
    requires sep != [] && forall k :: 0 <= k < |sep| ==> !IsAlnum(sep[k]) && !IsAsciiUpper(sep[k])
    ensures Slugify(x + sep + y) == x + "_" + y
  {
    var n := x + sep + y;
    forall k | 0 <= k < |n| ensures !IsAsciiUpper(n[k]) {
      if k < |x| {
        assert n[k] == x[k];
      } else if k < |x| + |sep| {
        assert n[k] == sep[k - |x|];
      } else {
        assert n[k] == y[k - |x| - |sep|];
      }
    }
    LowerOfLower(n);
    ReplaceRunsJoin(x, sep, y);
    var t := x + "_" + y;
    assert t[0] == x[0] && t[|t| - 1] == y[|y| - 1];
    StripOfTrimmed(t);
  }

  /** The separator case at its smallest: `slugify("a b") == "a_b"`. */
  lemma SlugifyOfTwoWords()
    ensures Slugify("a b") == "a_b"
  {
    var x, sep, y := "a", " ", "b";
    assert IsSlug(x) && IsSlug(y) && !IsAlnum(sep[0]);
    SlugifyJoin(x, sep, y);
    assert x + sep + y == "a b" && x + "_" + y == "a_b";
  }

  /** A slug is its own slug. */
  lemma SlugifyOfSlug(s: string)
    requires IsSlug(s)
    ensures Slugify(s) == s
  {
    LowerOfLower(s);
    ReplaceRunsOfSlugChars(s, false);
  }

  /** `slugify` is idempotent. */
  lemma SlugifyIdempotent(name: string)
    ensures Slugify(Slugify(name)) == Slugify(name)
  {
    SlugifyOfSlug(Slugify(name));
  }
}
