/**
 * The string operations the calibration script applies to its file names:
 * os.path.basename, os.path.dirname and os.path.splitext on POSIX paths, and
 * str.replace.
 */
module Paths {

  /** str.rfind of one character: the last position of c, or -1. */
  function RFind(s: string, c: char): (r: int)
    ensures -1 <= r < |s|
    ensures r >= 0 ==> s[r] == c
    ensures forall i :: r < i < |s| ==> s[i] != c
  {
    if |s| == 0 then -1
    else if s[|s| - 1] == c then |s| - 1
    else RFind(s[..|s| - 1], c)
  }

  /** os.path.basename: everything after the last '/'. */
  function Basename(p: string): (r: string)
    ensures '/' !in r
    ensures |r| <= |p| && p[|p| - |r|..] == r
    ensures |r| == |p| || p[|p| - |r| - 1] == '/'
  {
    p[RFind(p, '/') + 1..]
  }

  /** s with every trailing c removed (str.rstrip of one character). */
  function RStrip(s: string, c: char): (r: string)
    ensures |r| <= |s| && s[..|r|] == r
    ensures |r| > 0 ==> r[|r| - 1] != c
    ensures forall i :: |r| <= i < |s| ==> s[i] == c
  {
    if |s| == 0 || s[|s| - 1] != c then s
    else RStrip(s[..|s| - 1], c)
  }

  predicate AllSlashes(s: string)
  {
    forall i :: 0 <= i < |s| ==> s[i] == '/'
  }

  /**
   * os.path.dirname: everything up to and including the last '/', with the
   * trailing slashes removed unless it is made of slashes only.
   */
  function Dirname(p: string): (r: string)
    ensures |r| <= |p| && p[..|r|] == r
    ensures r == "" <==> '/' !in p
    ensures |r| <= RFind(p, '/') + 1 && forall i :: |r| <= i <= RFind(p, '/') ==> p[i] == '/'
    ensures AllSlashes(r) ==> |r| == RFind(p, '/') + 1
    ensures |r| > 0 && !AllSlashes(r) ==> r[|r| - 1] != '/'
  {
    var head := p[..RFind(p, '/') + 1];
    if |head| > 0 && !AllSlashes(head) then
      var r := RStrip(head, '/');
      assert !AllSlashes(r) by {
        var j :| 0 <= j < |head| && head[j] != '/';
        assert j < |r| && r[j] == head[j];
      }
      r
    else
      assert '/' in p ==> p[RFind(p, '/')] == '/';
      head
  }

  /**
   * A path is its directory, a slash and its base name, when it has a
   * directory whose last character before that slash is not a slash too;
   * a path without a slash has an empty directory and is its own base name.
   */
  lemma {:induction false} DirnameBasename(p: string)
    ensures '/' !in p ==> Dirname(p) == "" && Basename(p) == p
    ensures (var k := RFind(p, '/'); k >= 1 && p[k - 1] != '/' ==>
      Dirname(p) + "/" + Basename(p) == p)
  {
    var k := RFind(p, '/');
    if '/' !in p {
      assert k == -1;
      assert p[0..] == p;
    } else if k >= 1 && p[k - 1] != '/' {
      var head := p[..k + 1];
      assert !AllSlashes(head) by {
        assert head[k - 1] == p[k - 1];
      }
      assert RStrip(head, '/') == p[..k] by {
        assert head[..k] == p[..k];
      }
      assert p[..k] + "/" + p[k + 1..] == p;
    }
  }

  /** A character other than '.' at some position in [lo, hi). */
  predicate HasNonDot(p: string, lo: int, hi: int)
    requires 0 <= lo && hi <= |p|
  {
    exists i :: lo <= i < hi && p[i] != '.'
  }

  /**
   * os.path.splitext: the extension is the part from the last '.' of the
   * last path component, unless every character before that dot in the
   * component is a dot too (".bashrc" has no extension).
   */
  function SplitExt(p: string): (r: (string, string))
    ensures r.0 + r.1 == p
    ensures r.1 == "" || (r.1[0] == '.' && '.' !in r.1[1..] && '/' !in r.1)
    ensures r.1 != "" ==> HasNonDot(p, RFind(p, '/') + 1, |r.0|)
    ensures r.1 == "" ==> forall i :: RFind(p, '/') < i < |p| && p[i] == '.' ==> !HasNonDot(p, RFind(p, '/') + 1, i)
  {
    var sep := RFind(p, '/');
    var dot := RFind(p, '.');
    if dot > sep && HasNonDot(p, sep + 1, dot) then
      assert p[..dot] + p[dot..] == p;
      (p[..dot], p[dot..])
    else
      assert p + "" == p;
      (p, "")
  }

  /** os.path.splitext(p)[1]. */
  function Extension(p: string): string
  {
    SplitExt(p).1
  }

  /**
   * A name that does not end in '.' or '/', followed by a dot and tail free
   * of dots and slashes, splits into exactly that name and that extension.
   */
  lemma {:induction false} SplitExtOfName(name: string, ext: string)
    requires |name| > 0 && name[|name| - 1] != '.' && name[|name| - 1] != '/'
    requires |ext| > 0 && ext[0] == '.' && '.' !in ext[1..] && '/' !in ext
    ensures SplitExt(name + ext) == (name, ext)
  {
    var p := name + ext;
    var n := |name|;
    assert p[n] == '.';
    forall i | n < i < |p| ensures p[i] != '.' && p[i] != '/' {
      assert p[i] == ext[i - n] == ext[1..][i - n - 1];
    }
    var dot := RFind(p, '.');
    assert dot == n;
    var sep := RFind(p, '/');
    assert p[n - 1] == name[n - 1];
    assert sep < n - 1;
    assert HasNonDot(p, sep + 1, dot) by {
      assert p[n - 1] != '.';
    }
    assert p[..n] == name && p[n..] == ext;
  }

  /** A pattern occurrence starting at position i. */
  predicate OccursAt(s: string, pat: string, i: int)
  {
    0 <= i && i + |pat| <= |s| && s[i..i + |pat|] == pat
  }

  predicate Occurs(s: string, pat: string)
  {
    exists i :: 0 <= i <= |s| && OccursAt(s, pat, i)
  }

  /** str.replace: every non-overlapping occurrence, scanning from the left. */
  function ReplaceAll(s: string, pat: string, rep: string): string
    requires |pat| > 0
    decreases |s|
  {
    if |s| < |pat| then s
    else if s[..|pat|] == pat then rep + ReplaceAll(s[|pat|..], pat, rep)
    else [s[0]] + ReplaceAll(s[1..], pat, rep)
  }

  /** Occurrences in a tail are occurrences in the whole, one position on. */
  lemma {:induction false} OccursInTail(s: string, pat: string, i: int)
    requires |s| > 0 && OccursAt(s[1..], pat, i)
    ensures OccursAt(s, pat, i + 1)
  {
    assert s[1..][i..i + |pat|] == s[i + 1..i + 1 + |pat|];
  }

  /** Without an occurrence, replacing changes nothing. */
  lemma {:induction false} ReplaceAbsent(s: string, pat: string, rep: string)
    requires |pat| > 0 && !Occurs(s, pat)
    ensures ReplaceAll(s, pat, rep) == s
    decreases |s|
  {
    if |s| >= |pat| {
      assert !OccursAt(s, pat, 0);
      assert s[0..|pat|] == s[..|pat|];
      assert !Occurs(s[1..], pat) by {
        forall i | OccursAt(s[1..], pat, i) ensures false {
          OccursInTail(s, pat, i);
        }
      }
      ReplaceAbsent(s[1..], pat, rep);
      assert [s[0]] + s[1..] == s;
    }
  }

  /**
   * str.replace scans from the left: the first occurrence, after a prefix in
   * which none starts, is replaced, and the scan goes on after it.
   */
  lemma {:induction false} ReplaceFirst(a: string, pat: string, b: string, rep: string)
    requires |pat| > 0
    requires forall i :: 0 <= i < |a| ==> !OccursAt(a + pat + b, pat, i)
    ensures ReplaceAll(a + pat + b, pat, rep) == a + rep + ReplaceAll(b, pat, rep)
    decreases |a|
  {
    var t := a + pat + b;
    if |a| == 0 {
      assert t == pat + b && t[..|pat|] == pat && t[|pat|..] == b;
      assert a + rep == rep;
    } else {
      assert !OccursAt(t, pat, 0);
      assert t[0..|pat|] == t[..|pat|];
      assert t[1..] == a[1..] + pat + b;
      forall i | 0 <= i < |a[1..]| ensures !OccursAt(a[1..] + pat + b, pat, i) {
        if OccursAt(a[1..] + pat + b, pat, i) {
          OccursInTail(t, pat, i);
        }
      }
      ReplaceFirst(a[1..], pat, b, rep);
      assert t[0] == a[0];
      assert [a[0]] + (a[1..] + rep + ReplaceAll(b, pat, rep)) == a + rep + ReplaceAll(b, pat, rep);
    }
  }
}
