/**
 * Output file names (src/core/filename.js): a path slug, a file-system-safe
 * domain, an optional timestamp, and the assembled name
 * `domain_slug_{width}px_{scale}x_{mode}[_timestamp].{extension}`.
 * The URL is taken already parsed (its host name and path name), and the
 * ISO time string of the timestamp is a parameter.
 */
module Filename {
  import opened Text

  /** Characters a slug or a safe domain may contain: [a-z0-9-]. */
  predicate IsSlugChar(c: char) {
    'a' <= c <= 'z' || '0' <= c <= '9' || c == '-'
  }

  predicate SlugChars(s: string) {
    forall i :: 0 <= i < |s| ==> IsSlugChar(s[i])
  }

  /** Letters, digits and '-' only, in either case. */
  predicate DashedAlnum(s: string) {
    forall i :: 0 <= i < |s| ==> IsAlnum(s[i]) || s[i] == '-'
  }

  predicate NoDoubleDash(s: string) {
    forall i :: 0 <= i < |s| - 1 ==> !(s[i] == '-' && s[i + 1] == '-')
  }

  /** The letters and digits of `s`, in order. */
  function Alnums(s: string): string {
    if s == [] then []
    else if IsAlnum(s[0]) then [s[0]] + Alnums(s[1..])
    else Alnums(s[1..])
  }

  /** Every character of `s` is `c`. */
  predicate AllChar(s: string, c: char) {
    forall i :: 0 <= i < |s| ==> s[i] == c
  }

  /** Drop every leading occurrence of `c` (a `^c+` replacement). */
  function DropLeading(s: string, c: char): (r: string)
    ensures |r| <= |s| && r == s[|s| - |r|..]
    ensures r == [] || r[0] != c
    ensures forall k :: 0 <= k < |s| - |r| ==> s[k] == c
  {
    if s != [] && s[0] == c then DropLeading(s[1..], c) else s
  }

  /** Drop every trailing occurrence of `c` (a `c+$` replacement). */
  function DropTrailing(s: string, c: char): (r: string)
    ensures |r| <= |s| && r == s[..|r|]
    ensures r == [] || r[|r| - 1] != c
    ensures forall k :: |r| <= k < |s| ==> s[k] == c
  {
    if s != [] && s[|s| - 1] == c then DropTrailing(s[..|s| - 1], c) else s
  }

  /** The `/^c+|c+$/g` replacement by the empty string: `s` is the result with runs of `c` around it. */
  function StripEdges(s: string, c: char): (r: string)
    ensures |r| <= |s|
    ensures r == [] || (r[0] != c && r[|r| - 1] != c)
    ensures exists i, j :: 0 <= i <= j <= |s| && r == s[i..j] &&
              (forall k :: 0 <= k < i ==> s[k] == c) && (forall k :: j <= k < |s| ==> s[k] == c)
  {
    var a := DropLeading(s, c);
    var b := DropTrailing(a, c);
    var i, j := |s| - |a|, |s| - |a| + |b|;
    assert b == s[i..j];
    assert forall k :: j <= k < |s| ==> s[k] == a[k - i];
    b
  }

  /** Drop the rest of a run of characters outside [a-zA-Z0-9]. */
  function DropNonAlnum(s: string): (r: string)
    ensures |r| <= |s| && r == s[|s| - |r|..]
    ensures r == [] || IsAlnum(r[0])
    ensures Alnums(r) == Alnums(s)
  {
    if s != [] && !IsAlnum(s[0]) then DropNonAlnum(s[1..]) else s
  }

  /**
   * The `/[^a-zA-Z0-9]+/g` replacement by '-': every maximal run of other
   * characters becomes a single '-'.
   */
  function CollapseRuns(s: string): (r: string)
    ensures (s == [] || IsAlnum(s[0])) ==> (r == [] || IsAlnum(r[0]))
    ensures s != [] ==> r != []
    decreases |s|
  {
    if s == [] then []
    else if IsAlnum(s[0]) then [s[0]] + CollapseRuns(s[1..])
    else "-" + CollapseRuns(DropNonAlnum(s[1..]))
  }

  /** The collapsed string holds only letters, digits and single dashes. */
  lemma {:induction false} CollapseRunsShape(s: string)
    ensures DashedAlnum(CollapseRuns(s)) && NoDoubleDash(CollapseRuns(s))
    decreases |s|
  {
    if s != [] && IsAlnum(s[0]) {
      CollapseRunsShape(s[1..]);
      var r := CollapseRuns(s[1..]);
      var z := [s[0]] + r;
      ConsShape(s[0], r);
      assert CollapseRuns(s) == z;
    } else if s != [] {
      var d := DropNonAlnum(s[1..]);
      CollapseRunsShape(d);
      var r := CollapseRuns(d);
      assert r == [] || IsAlnum(r[0]);
      ConsShape('-', r);
      assert CollapseRuns(s) == "-" + r;
    }
  }

  /** A letter, digit or dash in front of a dash-separated string that does not start with a dash. */
  lemma ConsShape(c: char, r: string)
    requires IsAlnum(c) || c == '-'
    requires DashedAlnum(r) && NoDoubleDash(r)
    requires c == '-' ==> r == [] || r[0] != '-'
    ensures DashedAlnum([c] + r) && NoDoubleDash([c] + r)
  {
    var z := [c] + r;
    assert forall i :: 1 <= i < |z| ==> z[i] == r[i - 1];
  }

  /** `slugifyPathname`. */
  function SlugifyPathname(pathname: string): (r: string)
  {
    if pathname == "" || pathname == "/" then "home"
    else
      var cleaned := Lower(StripEdges(CollapseRuns(StripEdges(pathname, '/')), '-'));
      if cleaned == "" then "home" else cleaned
  }

  /** `toSafeDomain`. */
  function ToSafeDomain(hostname: string): (r: string)
  {
    Lower(CollapseRuns(hostname))
  }

  /** `timestampPart`: the ISO time with ':' and '.' replaced by '-'. */
  function TimestampPart(iso: string): (r: string)
    ensures |r| == |iso| && ':' !in r && '.' !in r
    ensures forall i :: 0 <= i < |iso| && (iso[i] == ':' || iso[i] == '.') ==> r[i] == '-'
    ensures forall i :: 0 <= i < |iso| && iso[i] != ':' && iso[i] != '.' ==> r[i] == iso[i]
  {
    seq(|iso|, i requires 0 <= i < |iso| => if iso[i] == ':' || iso[i] == '.' then '-' else iso[i])
  }

  /** The fields of the name's stem, which the template joins with '_'. */
  function StemFields(hostname: string, pathname: string, width: int, scale: int, mode: string): seq<string> {
    [ToSafeDomain(hostname), SlugifyPathname(pathname), IntToString(width) + "px",
     IntToString(scale) + "x", mode]
  }

  /** The name without its timestamp and extension: `${domain}_${pathSlug}_${width}px_${scale}x_${mode}`. */
  function Stem(hostname: string, pathname: string, width: int, scale: int, mode: string): string {
    Join(StemFields(hostname, pathname, width, scale, mode), '_')
  }

  /** `buildOutputFilename`, with the URL already split into host name and path name. */
  function BuildOutputFilename(hostname: string, pathname: string, width: int, scale: int,
                               mode: string, extension: string, appendTimestamp: bool,
                               isoTime: string): (r: string)
    ensures !appendTimestamp ==> r == Stem(hostname, pathname, width, scale, mode) + "." + extension
    ensures appendTimestamp ==>
              r == Stem(hostname, pathname, width, scale, mode) + "_" + TimestampPart(isoTime) + "." + extension
  {
    var stem := Stem(hostname, pathname, width, scale, mode);
    if appendTimestamp then stem + "_" + TimestampPart(isoTime) + "." + extension
    else stem + "." + extension
  }

  // ------------------------------------------------------------------ lemmas

  lemma LowerSlugChars(s: string)
    requires DashedAlnum(s) && NoDoubleDash(s)
    ensures SlugChars(Lower(s)) && NoDoubleDash(Lower(s))
    ensures forall i :: 0 <= i < |s| ==> (Lower(s)[i] == '-' <==> s[i] == '-')
  {
  }

  lemma SliceKeepsShape(s: string, i: nat, j: nat)
    requires i <= j <= |s|
    requires DashedAlnum(s) && NoDoubleDash(s)
    ensures DashedAlnum(s[i..j]) && NoDoubleDash(s[i..j])
  {
    assert forall k :: 0 <= k < j - i ==> s[i..j][k] == s[i + k];
  }

  /**
   * A slug is never empty, uses only [a-z0-9-], has no '-' at either end and
   * never two '-' in a row.
   */
  lemma SlugWellFormed(pathname: string)
    ensures WellFormedSlug(SlugifyPathname(pathname))
  {
    if pathname != "" && pathname != "/" {
      var c := CollapseRuns(StripEdges(pathname, '/'));
      CollapseRunsShape(StripEdges(pathname, '/'));
      var e := StripEdges(c, '-');
      var i, j :| 0 <= i <= j <= |c| && e == c[i..j];
      SliceKeepsShape(c, i, j);
      LowerSlugChars(e);
    }
  }

  predicate WellFormedSlug(s: string) {
    s != [] && SlugChars(s) && NoDoubleDash(s) && s[0] != '-' && s[|s| - 1] != '-'
  }

  /** The slug cleaning leaves a string of letters, digits and single inner dashes alone. */
  lemma {:induction false} CollapseRunsFixed(s: string)
    requires DashedAlnum(s) && NoDoubleDash(s)
    ensures CollapseRuns(s) == s
    decreases |s|
  {
    if s != [] {
      var v := s[1..];
      SliceKeepsShape(s, 1, |s|);
      CollapseRunsFixed(v);
      assert s == [s[0]] + v;
      if IsAlnum(s[0]) {
        CollapseCons(s[0], v);
      } else {
        assert s[0] == '-' && (v == [] || v[0] == s[1]);
        assert NoAlnum("-");
        CollapseRun("-", v);
      }
    }
  }

  lemma LowerFixed(s: string)
    requires SlugChars(s)
    ensures Lower(s) == s
  {
  }

  lemma DropLeadingFixed(s: string, c: char)
    requires s == [] || s[0] != c
    ensures DropLeading(s, c) == s
  {
  }

  lemma DropTrailingFixed(s: string, c: char)
    requires s == [] || s[|s| - 1] != c
    ensures DropTrailing(s, c) == s
  {
  }

  /** Slugifying a slug changes nothing. */
  lemma SlugIdempotent(pathname: string)
    ensures SlugifyPathname(SlugifyPathname(pathname)) == SlugifyPathname(pathname)
  {
    var s := SlugifyPathname(pathname);
    SlugWellFormed(pathname);
    assert s != "/" by { assert s[0] != '/'; }
    assert '/' !in s;
    DropLeadingFixed(s, '/');
    DropTrailingFixed(s, '/');
    assert StripEdges(s, '/') == s;
    assert DashedAlnum(s);
    CollapseRunsFixed(s);
    DropLeadingFixed(s, '-');
    DropTrailingFixed(s, '-');
    assert StripEdges(s, '-') == s;
    LowerFixed(s);
  }

  /** The letters and digits of the input all survive the run collapsing, in order. */
  lemma {:induction false} CollapseKeepsAlnums(s: string)
    ensures Alnums(CollapseRuns(s)) == Alnums(s)
    decreases |s|
  {
    if s != [] {
      if IsAlnum(s[0]) {
        CollapseKeepsAlnums(s[1..]);
        assert ([s[0]] + CollapseRuns(s[1..]))[1..] == CollapseRuns(s[1..]);
      } else {
        var d := DropNonAlnum(s[1..]);
        CollapseKeepsAlnums(d);
        assert ("-" + CollapseRuns(d))[1..] == CollapseRuns(d);
      }
    }
  }

  lemma {:induction false} AlnumsAppend(a: string, b: string)
    ensures Alnums(a + b) == Alnums(a) + Alnums(b)
    decreases |a|
  {
    if a != [] {
      assert (a + b)[0] == a[0] && (a + b)[1..] == a[1..] + b;
      AlnumsAppend(a[1..], b);
    } else {
      assert a + b == b;
    }
  }

  lemma {:induction false} AlnumsNone(s: string, c: char)
    requires AllChar(s, c) && !IsAlnum(c)
    ensures Alnums(s) == []
    decreases |s|
  {
    if s != [] {
      assert AllChar(s[1..], c) by { assert forall i :: 0 <= i < |s| - 1 ==> s[1..][i] == s[i + 1]; }
      AlnumsNone(s[1..], c);
    }
  }

  lemma AlnumsSlices(s: string, i: nat, j: nat)
    requires i <= j <= |s|
    ensures Alnums(s) == Alnums(s[..i]) + Alnums(s[i..j]) + Alnums(s[j..])
  {
    var a, b, c := s[..i], s[i..j], s[j..];
    assert s[..j] == a + b;
    assert s == s[..j] + c;
    AlnumsAppend(s[..j], c);
    AlnumsAppend(a, b);
  }

  /** Stripping a character other than a letter or digit from the edges keeps every letter and digit. */
  lemma StripEdgesKeepsAlnums(s: string, c: char)
    requires !IsAlnum(c)
    ensures Alnums(StripEdges(s, c)) == Alnums(s)
  {
    var r := StripEdges(s, c);
    var i, j :| 0 <= i <= j <= |s| && r == s[i..j] &&
                (forall k :: 0 <= k < i ==> s[k] == c) && (forall k :: j <= k < |s| ==> s[k] == c);
    AlnumsBetweenEdges(s, c, i, j);
  }

  lemma AlnumsBetweenEdges(s: string, c: char, i: nat, j: nat)
    requires !IsAlnum(c) && i <= j <= |s|
    requires forall k :: 0 <= k < i ==> s[k] == c
    requires forall k :: j <= k < |s| ==> s[k] == c
    ensures Alnums(s) == Alnums(s[i..j])
  {
    AlnumsSlices(s, i, j);
    AlnumsNone(s[..i], c);
    assert AllChar(s[j..], c) by { assert forall k :: 0 <= k < |s| - j ==> s[j..][k] == s[j + k]; }
    AlnumsNone(s[j..], c);
  }

  /** Letters, digits and dashes without a letter or digit are dashes only. */
  lemma {:induction false} DashesOnly(s: string)
    requires DashedAlnum(s) && Alnums(s) == []
    ensures AllChar(s, '-')
    decreases |s|
  {
    if s != [] {
      assert DashedAlnum(s[1..]) by { assert forall i :: 0 <= i < |s| - 1 ==> s[1..][i] == s[i + 1]; }
      DashesOnly(s[1..]);
      assert forall i :: 1 <= i < |s| ==> s[i] == s[1..][i - 1];
    }
  }

  /**
   * The slug holds exactly the letters and digits of the path name,
   * lowercased and in order, and is "home" when the path name has none.
   */
  lemma SlugContent(pathname: string)
    ensures Alnums(pathname) == [] ==> SlugifyPathname(pathname) == "home"
    ensures Alnums(pathname) != [] ==> Alnums(SlugifyPathname(pathname)) == Lower(Alnums(pathname))
  {
    if pathname != "" && pathname != "/" {
      var a := StripEdges(pathname, '/');
      StripEdgesKeepsAlnums(pathname, '/');
      var b := CollapseRuns(a);
      CollapseRunsShape(a);
      CollapseKeepsAlnums(a);
      var e := StripEdges(b, '-');
      StripEdgesKeepsAlnums(b, '-');
      LowerAlnums(e);
      if Alnums(pathname) == [] {
        var i, j :| 0 <= i <= j <= |b| && e == b[i..j];
        SliceKeepsShape(b, i, j);
        DashesOnly(e);
      } else {
        assert Lower(e) != "";
      }
    }
  }

  predicate AllAlnum(s: string) {
    forall i :: 0 <= i < |s| ==> IsAlnum(s[i])
  }

  predicate NoAlnum(s: string) {
    forall i :: 0 <= i < |s| ==> !IsAlnum(s[i])
  }

  lemma {:induction false} DropNonAlnumRun(sep: string, t: string)
    requires NoAlnum(sep) && (t == [] || IsAlnum(t[0]))
    ensures DropNonAlnum(sep + t) == t
    decreases |sep|
  {
    if sep == [] {
      assert sep + t == t;
    } else {
      assert (sep + t)[1..] == sep[1..] + t;
      assert NoAlnum(sep[1..]) by { assert forall i :: 0 <= i < |sep| - 1 ==> sep[1..][i] == sep[i + 1]; }
      DropNonAlnumRun(sep[1..], t);
    }
  }

  lemma {:induction false} CollapseWord(w: string, t: string)
    requires AllAlnum(w)
    ensures CollapseRuns(w + t) == w + CollapseRuns(t)
    decreases |w|
  {
    if w == [] {
      assert w + t == t;
      assert w + CollapseRuns(t) == CollapseRuns(t);
    } else {
      var v := w[1..];
      AllAlnumTail(w);
      ConsSplit(w, t);
      CollapseCons(w[0], v + t);
      CollapseWord(v, t);
      ConsSplit(w, CollapseRuns(t));
    }
  }

  lemma AllAlnumTail(w: string)
    requires w != [] && AllAlnum(w)
    ensures IsAlnum(w[0]) && AllAlnum(w[1..])
  {
    assert forall i :: 0 <= i < |w| - 1 ==> w[1..][i] == w[i + 1];
  }

  lemma ConsSplit(w: string, t: string)
    requires w != []
    ensures w + t == [w[0]] + (w[1..] + t)
  {
  }

  lemma CollapseCons(c: char, t: string)
    requires IsAlnum(c)
    ensures CollapseRuns([c] + t) == [c] + CollapseRuns(t)
  {
    var x := [c] + t;
    assert x[0] == c && x[1..] == t;
  }

  /**
   * The run collapsing puts a single '-' exactly where a run of other
   * characters separates a word of letters and digits from what follows.
   */
  lemma CollapseSeparator(w: string, sep: string, t: string)
    requires AllAlnum(w) && sep != [] && NoAlnum(sep) && (t == [] || IsAlnum(t[0]))
    ensures CollapseRuns(w + sep + t) == w + "-" + CollapseRuns(t)
  {
    CollapseWord(w, sep + t);
    CollapseRun(sep, t);
    AppendAssoc(w, sep, t);
    AppendAssoc(w, "-", CollapseRuns(t));
  }

  lemma AppendAssoc(a: string, b: string, c: string)
    ensures a + b + c == a + (b + c)
  {
  }

  lemma CollapseRun(sep: string, t: string)
    requires sep != [] && NoAlnum(sep) && (t == [] || IsAlnum(t[0]))
    ensures CollapseRuns(sep + t) == "-" + CollapseRuns(t)
  {
    var x := sep + t;
    assert x[0] == sep[0] && x[1..] == sep[1..] + t;
    assert NoAlnum(sep[1..]) by { assert forall i :: 0 <= i < |sep| - 1 ==> sep[1..][i] == sep[i + 1]; }
    DropNonAlnumRun(sep[1..], t);
  }

  /**
   * A path of two words of letters and digits, such as "/Pricing/Enterprise/",
   * gives the two words lowercased and joined by one '-' ("pricing-enterprise").
   */
  lemma SlugTwoSegments(a: string, b: string)
    requires a != [] && b != [] && AllAlnum(a) && AllAlnum(b)
    ensures SlugifyPathname("/" + a + "/" + b + "/") == Lower(a) + "-" + Lower(b)
  {
    TwoSegmentsStripped(a, b);
    TwoSegmentsCollapsed(a, b);
    TwoSegmentsCleaned(a, b);
  }

  lemma TwoSegmentsCleaned(a: string, b: string)
    requires a != [] && b != [] && AllAlnum(a) && AllAlnum(b)
    ensures Lower(StripEdges(a + "-" + b, '-')) == Lower(a) + "-" + Lower(b)
  {
    var c := a + "-" + b;
    assert c[0] == a[0] && c[|c| - 1] == b[|b| - 1];
    assert IsAlnum(a[0]) && IsAlnum(b[|b| - 1]);
    DropLeadingFixed(c, '-');
    DropTrailingFixed(c, '-');
    assert StripEdges(c, '-') == c;
    LowerAroundDash(a, b);
  }

  lemma LowerAroundDash(a: string, b: string)
    ensures Lower(a + "-" + b) == Lower(a) + "-" + Lower(b)
  {
    LowerAppend(a + "-", b);
    LowerAppend(a, "-");
    assert Lower("-") == "-" by { assert LowerChar('-') == '-'; }
  }

  lemma TwoSegmentsStripped(a: string, b: string)
    requires a != [] && b != [] && AllAlnum(a) && AllAlnum(b)
    ensures StripEdges("/" + a + "/" + b + "/", '/') == a + "/" + b
  {
    var inner := a + "/" + b;
    assert "/" + a + "/" + b + "/" == ['/'] + inner + ['/'];
    assert inner[0] == a[0] && inner[|inner| - 1] == b[|b| - 1];
    StripEdgesAround(inner, '/');
  }

  /** Stripping `c` from `c + inner + c`, where `inner` neither starts nor ends with `c`, gives `inner`. */
  lemma StripEdgesAround(inner: string, c: char)
    requires inner != [] && inner[0] != c && inner[|inner| - 1] != c
    ensures StripEdges([c] + inner + [c], c) == inner
  {
    var p := [c] + inner + [c];
    assert p[1..] == inner + [c];
    assert (inner + [c])[0] == inner[0];
    DropLeadingFixed(inner + [c], c);
    assert (inner + [c])[..|inner|] == inner;
    DropTrailingFixed(inner, c);
  }

  lemma TwoSegmentsCollapsed(a: string, b: string)
    requires a != [] && b != [] && AllAlnum(a) && AllAlnum(b)
    ensures CollapseRuns(a + "/" + b) == a + "-" + b
  {
    assert NoAlnum("/");
    CollapseSeparator(a, "/", b);
    CollapseWord(b, []);
    assert b + [] == b;
  }

  /**
   * A safe domain uses only [a-z0-9-], never has two '-' in a row, and keeps
   * every letter and digit of the host name, lowercased and in order.
   */
  lemma SafeDomainShape(hostname: string)
    ensures SlugChars(ToSafeDomain(hostname)) && NoDoubleDash(ToSafeDomain(hostname))
    ensures Alnums(ToSafeDomain(hostname)) == Lower(Alnums(hostname))
  {
    var c := CollapseRuns(hostname);
    CollapseRunsShape(hostname);
    LowerSlugChars(c);
    CollapseKeepsAlnums(hostname);
    LowerAlnums(c);
  }

  lemma {:induction false} LowerAlnums(s: string)
    ensures Alnums(Lower(s)) == Lower(Alnums(s))
    decreases |s|
  {
    if s != [] {
      assert Lower(s)[1..] == Lower(s[1..]);
      LowerAlnums(s[1..]);
      if IsAlnum(s[0]) {
        LowerAppend([s[0]], Alnums(s[1..]));
      }
    }
  }

  /**
   * A timestamped name is the plain name with '_' and the timestamp inserted
   * before the extension.
   */
  lemma TimestampInsertedBeforeExtension(hostname: string, pathname: string, width: int, scale: int,
                                         mode: string, extension: string, isoTime: string, other: string)
    ensures var plain := BuildOutputFilename(hostname, pathname, width, scale, mode, extension, false, other);
            var stamped := BuildOutputFilename(hostname, pathname, width, scale, mode, extension, true, isoTime);
            |plain| > |extension| &&
            stamped == plain[..|plain| - |extension| - 1] + "_" + TimestampPart(isoTime) + "." + extension
  {
    var stem := Stem(hostname, pathname, width, scale, mode);
    var plain := BuildOutputFilename(hostname, pathname, width, scale, mode, extension, false, other);
    assert plain == stem + "." + extension;
    assert plain[..|plain| - |extension| - 1] == stem;
  }

  /**
   * The name's stem splits at '_' into exactly the safe domain, the slug, the
   * width, the scale and the mode, so names built from different fields differ.
   */
  lemma StemSplits(hostname: string, pathname: string, width: int, scale: int, mode: string)
    requires '_' !in mode
    ensures Split(Stem(hostname, pathname, width, scale, mode), '_')
         == [ToSafeDomain(hostname), SlugifyPathname(pathname), IntToString(width) + "px",
             IntToString(scale) + "x", mode]
  {
    var parts := StemFields(hostname, pathname, width, scale, mode);
    var domain := ToSafeDomain(hostname);
    var slug := SlugifyPathname(pathname);
    SafeDomainShape(hostname);
    SlugWellFormed(pathname);
    assert '_' !in domain by {
      assert forall i :: 0 <= i < |domain| ==> IsSlugChar(domain[i]);
    }
    assert '_' !in slug by {
      assert forall i :: 0 <= i < |slug| ==> IsSlugChar(slug[i]);
    }
    IntToStringNoChar(width, '_');
    IntToStringNoChar(scale, '_');
    assert forall i :: 0 <= i < |parts| ==> '_' !in parts[i];
    SplitJoin(parts, '_');
  }

  /** Different slug, domain, width, scale or mode give different stems. */
  lemma StemInjective(h1: string, p1: string, w1: int, s1: int, m1: string,
                      h2: string, p2: string, w2: int, s2: int, m2: string)
    requires '_' !in m1 && '_' !in m2
    requires Stem(h1, p1, w1, s1, m1) == Stem(h2, p2, w2, s2, m2)
    ensures ToSafeDomain(h1) == ToSafeDomain(h2) && SlugifyPathname(p1) == SlugifyPathname(p2)
    ensures w1 == w2 && s1 == s2 && m1 == m2
  {
    StemSplits(h1, p1, w1, s1, m1);
    StemSplits(h2, p2, w2, s2, m2);
    var a := IntToString(w1) + "px";
    var b := IntToString(w2) + "px";
    assert IntToString(w1) == a[..|a| - 2];
    assert IntToString(w2) == b[..|b| - 2];
    IntToStringInjective(w1, w2);
    var c := IntToString(s1) + "x";
    var d := IntToString(s2) + "x";
    assert IntToString(s1) == c[..|c| - 1];
    assert IntToString(s2) == d[..|d| - 1];
    IntToStringInjective(s1, s2);
  }

  /** A file name never contains a path separator when its mode and extension do not. */
  lemma NoPathSeparator(hostname: string, pathname: string, width: int, scale: int, mode: string,
                        extension: string, appendTimestamp: bool, isoTime: string)
    requires '/' !in mode && '/' !in extension && '/' !in isoTime
    ensures '/' !in BuildOutputFilename(hostname, pathname, width, scale, mode, extension,
                                        appendTimestamp, isoTime)
  {
    var domain := ToSafeDomain(hostname);
    var slug := SlugifyPathname(pathname);
    SafeDomainShape(hostname);
    SlugWellFormed(pathname);
    assert '/' !in domain by {
      assert forall i :: 0 <= i < |domain| ==> IsSlugChar(domain[i]);
    }
    assert '/' !in slug by {
      assert forall i :: 0 <= i < |slug| ==> IsSlugChar(slug[i]);
    }
    IntToStringNoChar(width, '/');
    IntToStringNoChar(scale, '/');
    var parts := StemFields(hostname, pathname, width, scale, mode);
    assert forall i :: 0 <= i < |parts| ==> '/' !in parts[i];
    JoinAvoids(parts, '_', '/');
    var t := TimestampPart(isoTime);
    assert '/' !in t by {
      forall i | 0 <= i < |t| ensures t[i] != '/' {
        if isoTime[i] != ':' && isoTime[i] != '.' {
          assert t[i] == isoTime[i];
        }
      }
    }
  }

}
