// The Markdown section of the README that shows the documentation screenshots:
// a fixed header, then one block per view with every screenshot whose file name
// starts with one of the view's prefixes.

module Screenshots {
  import opened Util

  /** One captured screenshot: its file name and its caption. */
  datatype Shot = Shot(filename: string, caption: string)

  /** A view of the frontend and the file-name prefixes of its screenshots. */
  datatype View = View(name: string, prefixes: seq<string>)

  /** The lines that open the section. */
  const Header: seq<string> := [
    "## Screenshots",
    "",
    "The unified web frontend provides a complete activity browsing experience.",
    "Screenshots are auto-generated from the demo dataset.",
    ""
  ]

  /** The views, in the order the section lists them. */
  const Views: seq<View> := [
    View("Map View", ["01-", "02-", "03-"]),
    View("Sessions View", ["04-", "05-", "06-"]),
    View("Session Detail", ["07-"]),
    View("Statistics", ["08-", "09-"])
  ]

  /** `s.startswith(p)`. */
  predicate StartsWith(s: string, p: string)
    decreases |p|
  {
    |p| == 0 || (|s| > 0 && s[0] == p[0] && StartsWith(s[1..], p[1..]))
  }

  /** A string starts with `p` exactly when `p` is a prefix of it. */
  lemma {:induction false} StartsWithPrefix(s: string, p: string)
    ensures StartsWith(s, p) <==> p <= s
    decreases |p|
  {
    if |p| > 0 && |s| > 0 {
      StartsWithPrefix(s[1..], p[1..]);
      assert p == [p[0]] + p[1..] && s == [s[0]] + s[1..];
    }
  }

  /** `any(filename.startswith(p) for p in prefixes)`. */
  predicate AnyPrefix(prefixes: seq<string>, filename: string)
    decreases |prefixes|
  {
    |prefixes| > 0 && (StartsWith(filename, prefixes[0]) || AnyPrefix(prefixes[1..], filename))
  }

  /** Some prefix of the list starts the file name. */
  lemma {:induction false} AnyPrefixMeaning(prefixes: seq<string>, filename: string)
    ensures AnyPrefix(prefixes, filename) <==> exists k :: 0 <= k < |prefixes| && StartsWith(filename, prefixes[k])
    decreases |prefixes|
  {
    if |prefixes| > 0 {
      AnyPrefixMeaning(prefixes[1..], filename);
      assert forall k :: 1 <= k < |prefixes| ==> prefixes[k] == prefixes[1..][k - 1];
    }
  }

  /** The screenshot belongs to the view: its file name starts with one of the view's prefixes. */
  predicate InView(v: View, filename: string)
  {
    AnyPrefix(v.prefixes, filename)
  }

  /** The screenshots of a view, in input order. */
  function Matching(shots: seq<Shot>, v: View): seq<Shot>
    decreases |shots|
  {
    if |shots| == 0 then []
    else
      var last := shots[|shots| - 1];
      Matching(shots[..|shots| - 1], v) + (if InView(v, last.filename) then [last] else [])
  }

  /** The three lines of one screenshot: the image, its caption in italics, a blank line. */
  function ShotLines(s: Shot): seq<string>
  {
    ["![" + s.caption + "](docs/screenshots/" + s.filename + ")", "*" + s.caption + "*", ""]
  }

  /** The lines of a run of screenshots, three per screenshot. */
  function ShotsLines(shots: seq<Shot>): seq<string>
    decreases |shots|
  {
    if |shots| == 0 then [] else ShotsLines(shots[..|shots| - 1]) + ShotLines(shots[|shots| - 1])
  }

  /** The block of one view: nothing when no screenshot belongs to it. */
  function ViewLines(v: View, shots: seq<Shot>): seq<string>
  {
    var m := Matching(shots, v);
    if |m| == 0 then [] else ["### " + v.name, ""] + ShotsLines(m)
  }

  /** The first `n` sequences of `xss`, one after another. */
  function Concat<T>(xss: seq<seq<T>>, n: nat): seq<T>
    requires n <= |xss|
    decreases n
  {
    if n == 0 then [] else Concat(xss, n - 1) + xss[n - 1]
  }

  /** The block of each view, in the order of the views. */
  function Blocks(views: seq<View>, shots: seq<Shot>): (bs: seq<seq<string>>)
    ensures |bs| == |views|
  {
    seq(|views|, i requires 0 <= i < |views| => ViewLines(views[i], shots))
  }

  /** Every line of the section. */
  function Lines(shots: seq<Shot>): (r: seq<string>)
    ensures |r| >= |Header| && r[..|Header|] == Header
  {
    Header + Concat(Blocks(Views, shots), |Views|)
  }

  /** `generate_readme_section`: the lines joined by newlines. */
  function ReadmeSection(shots: seq<Shot>): string
  {
    Join(Lines(shots), "\n")
  }

  /** The screenshots of each view. */
  function Lists(views: seq<View>, shots: seq<Shot>): (ls: seq<seq<Shot>>)
    ensures |ls| == |views|
  {
    seq(|views|, i requires 0 <= i < |views| => Matching(shots, views[i]))
  }

  /** The screenshots the section shows, view by view. */
  function Shown(shots: seq<Shot>): seq<Shot>
  {
    Concat(Lists(Views, shots), |Views|)
  }

  // ---------------------------------------------------------------- the generator

  /** The inner loop: the lines of the screenshots of one view. */
  method AddShotLines(lines0: seq<string>, shots: seq<Shot>) returns (lines: seq<string>)
    ensures lines == lines0 + ShotsLines(shots)
  {
    lines := lines0;
    var k := 0;
    while k < |shots|
      invariant 0 <= k <= |shots|
      invariant lines == lines0 + ShotsLines(shots[..k])
      decreases |shots| - k
    {
      var s := shots[k];
      assert shots[..k + 1][..k] == shots[..k];
      lines := lines + ["![" + s.caption + "](docs/screenshots/" + s.filename + ")"];
      lines := lines + ["*" + s.caption + "*"];
      lines := lines + [""];
      k := k + 1;
    }
    assert shots[..k] == shots;
  }

  /** The body of the outer loop: the heading of a view that has screenshots, then their lines. */
  method AddViewBlock(lines0: seq<string>, view: View, shots: seq<Shot>) returns (lines: seq<string>)
    ensures lines == lines0 + ViewLines(view, shots)
  {
    lines := lines0;
    var viewShots := Matching(shots, view);
    if |viewShots| > 0 {
      lines := lines + ["### " + view.name];
      lines := lines + [""];
      assert lines == lines0 + ["### " + view.name, ""];
      lines := AddShotLines(lines, viewShots);
    }
  }

  /** The outer loop: the block of each view, in order. */
  method AddViewLines(lines0: seq<string>, views: seq<View>, shots: seq<Shot>) returns (lines: seq<string>)
    ensures lines == lines0 + Concat(Blocks(views, shots), |views|)
  {
    lines := lines0;
    var i := 0;
    while i < |views|
      invariant 0 <= i <= |views|
      invariant lines == lines0 + Concat(Blocks(views, shots), i)
      decreases |views| - i
    {
      lines := AddViewBlock(lines, views[i], shots);
      ConcatStep(lines0, Blocks(views, shots), i);
      i := i + 1;
    }
  }

  /** The Markdown section: the header, then the blocks of the views, joined by newlines. */
  method GenerateReadmeSection(shots: seq<Shot>) returns (r: string)
    ensures r == ReadmeSection(shots)
  {
    var lines := AddViewLines(Header, Views, shots);
    r := Join(lines, "\n");
  }

  // ---------------------------------------------------------------- properties

  /** One more part, after a fixed start. */
  lemma ConcatStep<T>(start: seq<T>, xss: seq<seq<T>>, n: nat)
    requires n < |xss|
    ensures start + Concat(xss, n + 1) == start + Concat(xss, n) + xss[n]
  {
  }

  /** Concatenating four parts, after a fixed start. */
  lemma ConcatFour<T>(start: seq<T>, xss: seq<seq<T>>)
    requires |xss| == 4
    ensures start + Concat(xss, 4) == start + xss[0] + xss[1] + xss[2] + xss[3]
  {
    calc {
      start + Concat(xss, 4);
    == { ConcatStep(start, xss, 3); }
      start + Concat(xss, 3) + xss[3];
    == { ConcatStep(start, xss, 2); }
      start + Concat(xss, 2) + xss[2] + xss[3];
    == { ConcatStep(start, xss, 1); }
      start + Concat(xss, 1) + xss[1] + xss[2] + xss[3];
    == { ConcatStep(start, xss, 0); }
      start + xss[0] + xss[1] + xss[2] + xss[3];
    }
  }

  /** An element of a concatenation comes from one of its parts, and each part's elements are in it. */
  lemma {:induction false} ConcatMembers<T>(xss: seq<seq<T>>, n: nat, x: T)
    requires n <= |xss|
    ensures x in Concat(xss, n) <==> exists w :: 0 <= w < n && x in xss[w]
    decreases n
  {
    if n > 0 {
      ConcatMembers(xss, n - 1, x);
    }
  }

  /** A non-empty part starts right after the parts before it. */
  lemma {:induction false} ConcatAt<T>(xss: seq<seq<T>>, n: nat, w: nat)
    requires w < n <= |xss| && |xss[w]| > 0
    ensures |Concat(xss, w)| < |Concat(xss, n)| && Concat(xss, n)[|Concat(xss, w)|] == xss[w][0]
    decreases n
  {
    if w < n - 1 {
      ConcatAt(xss, n - 1, w);
    }
  }

  /** The blocks come in the fixed order Map View, Sessions View, Session Detail, Statistics. */
  lemma ViewsInOrder(shots: seq<Shot>)
    ensures Lines(shots) == Header + ViewLines(Views[0], shots) + ViewLines(Views[1], shots)
                                   + ViewLines(Views[2], shots) + ViewLines(Views[3], shots)
    ensures Views[0].name == "Map View" && Views[1].name == "Sessions View"
            && Views[2].name == "Session Detail" && Views[3].name == "Statistics"
  {
    ConcatFour(Header, Blocks(Views, shots));
  }

  /** A screenshot is in a view's list exactly when it is one of the input and belongs to the view. */
  lemma {:induction false} MatchingMembers(shots: seq<Shot>, v: View, x: Shot)
    ensures x in Matching(shots, v) <==> x in shots && InView(v, x.filename)
    decreases |shots|
  {
    if |shots| > 0 {
      var n := |shots| - 1;
      MatchingMembers(shots[..n], v, x);
      assert shots == shots[..n] + [shots[n]];
    }
  }

  /** A view's list is empty exactly when no screenshot belongs to the view. */
  lemma MatchingEmpty(shots: seq<Shot>, v: View)
    ensures |Matching(shots, v)| == 0 <==> forall i :: 0 <= i < |shots| ==> !InView(v, shots[i].filename)
  {
    if |Matching(shots, v)| == 0 {
      forall i | 0 <= i < |shots| ensures !InView(v, shots[i].filename) {
        MatchingMembers(shots, v, shots[i]);
      }
    } else {
      var x := Matching(shots, v)[0];
      MatchingMembers(shots, v, x);
      var i :| 0 <= i < |shots| && shots[i] == x;
    }
  }

  /** A view's list keeps input order: it is the input with the other screenshots dropped. */
  lemma {:induction false} MatchingOrder(shots: seq<Shot>, v: View, i: nat, j: nat)
    requires i < j < |shots| && InView(v, shots[i].filename) && InView(v, shots[j].filename)
    ensures exists a, b :: 0 <= a < b < |Matching(shots, v)|
                           && Matching(shots, v)[a] == shots[i] && Matching(shots, v)[b] == shots[j]
    decreases |shots|
  {
    var n := |shots| - 1;
    var prefix := shots[..n];
    assert shots[..n][i] == shots[i];
    if j == n {
      MatchingMembers(prefix, v, shots[i]);
      var a :| 0 <= a < |Matching(prefix, v)| && Matching(prefix, v)[a] == shots[i];
      var b := |Matching(prefix, v)|;
      assert Matching(shots, v) == Matching(prefix, v) + [shots[n]];
      assert Matching(shots, v)[a] == shots[i] && Matching(shots, v)[b] == shots[j];
    } else {
      assert shots[..n][j] == shots[j];
      MatchingOrder(prefix, v, i, j);
      var a, b :| 0 <= a < b < |Matching(prefix, v)|
                  && Matching(prefix, v)[a] == shots[i] && Matching(prefix, v)[b] == shots[j];
      var m := Matching(shots, v);
      assert m[..|Matching(prefix, v)|] == Matching(prefix, v);
      assert m[a] == shots[i] && m[b] == shots[j];
    }
  }

  /** Each screenshot gives three lines, in input order. */
  lemma {:induction false} ShotsLinesAt(shots: seq<Shot>, k: nat)
    requires k < |shots|
    ensures |ShotsLines(shots)| == 3 * |shots|
    ensures ShotsLines(shots)[3 * k..3 * k + 3] == ShotLines(shots[k])
    decreases |shots|
  {
    var n := |shots| - 1;
    var prefix := ShotsLines(shots[..n]);
    if n > 0 {
      ShotsLinesAt(shots[..n], if k < n then k else 0);
    }
    assert |prefix| == 3 * n;
    if k < n {
      assert shots[..n][k] == shots[k];
      assert ShotsLines(shots)[3 * k..3 * k + 3] == prefix[3 * k..3 * k + 3];
    } else {
      assert ShotsLines(shots)[3 * k..3 * k + 3] == ShotLines(shots[n]);
    }
  }

  /** No line of a screenshot starts with `#`. */
  lemma {:induction false} ShotsLinesNoHeading(shots: seq<Shot>, e: string)
    requires e in ShotsLines(shots)
    ensures |e| == 0 || e[0] != '#'
    decreases |shots|
  {
    var n := |shots| - 1;
    if e !in ShotLines(shots[n]) {
      ShotsLinesNoHeading(shots[..n], e);
    }
  }

  /** The block of a view opens with its heading exactly when a screenshot belongs to it. */
  lemma ViewLinesMeaning(v: View, shots: seq<Shot>)
    ensures |ViewLines(v, shots)| == 0 <==> forall i :: 0 <= i < |shots| ==> !InView(v, shots[i].filename)
    ensures |ViewLines(v, shots)| > 0 ==> (&& ViewLines(v, shots)[..2] == ["### " + v.name, ""]
                                           && ViewLines(v, shots)[2..] == ShotsLines(Matching(shots, v)))
  {
    MatchingEmpty(shots, v);
  }

  /** The only lines of a block that start with `#` are its heading. */
  lemma ViewHeadings(v: View, shots: seq<Shot>, e: string)
    requires e in ViewLines(v, shots) && |e| > 0 && e[0] == '#'
    ensures e == "### " + v.name && |Matching(shots, v)| > 0
  {
    var m := Matching(shots, v);
    var lines := ["### " + v.name, ""] + ShotsLines(m);
    if e !in ["### " + v.name, ""] {
      ShotsLinesNoHeading(m, e);
    }
  }

  /** The heading of a view that has screenshots opens its block. */
  lemma ViewHead(v: View, shots: seq<Shot>)
    requires |Matching(shots, v)| > 0
    ensures |ViewLines(v, shots)| > 0 && ViewLines(v, shots)[0] == "### " + v.name
  {
  }

  /** Views are told apart by their headings. */
  lemma HeadingNames(a: nat, b: nat)
    requires a < |Views| && b < |Views| && "### " + Views[a].name == "### " + Views[b].name
    ensures a == b
  {
    assert ("### " + Views[a].name)[4..] == Views[a].name;
    assert ("### " + Views[b].name)[4..] == Views[b].name;
  }

  /**
   * A view's heading is among the lines after the header exactly when at
   * least one screenshot belongs to the view.
   */
  lemma HeadingIffMatch(shots: seq<Shot>, i: nat)
    requires i < |Views|
    ensures "### " + Views[i].name in Lines(shots)[|Header|..]
            <==> exists j :: 0 <= j < |shots| && InView(Views[i], shots[j].filename)
  {
    var e := "### " + Views[i].name;
    var bs := Blocks(Views, shots);
    assert Lines(shots)[|Header|..] == Concat(bs, |Views|);
    MatchingEmpty(shots, Views[i]);
    if |Matching(shots, Views[i])| > 0 {
      ViewHead(Views[i], shots);
      ConcatAt(bs, |Views|, i);
      assert Concat(bs, |Views|)[|Concat(bs, i)|] == e;
    }
    if e in Concat(bs, |Views|) {
      ConcatMembers(bs, |Views|, e);
      var w :| 0 <= w < |Views| && e in bs[w];
      ViewHeadings(Views[w], shots, e);
      HeadingNames(i, w);
    }
  }

  /** A screenshot is shown exactly when it is one of the input and belongs to one of the views. */
  lemma ShownMembers(shots: seq<Shot>, x: Shot)
    ensures x in Shown(shots) <==> x in shots && exists w :: 0 <= w < |Views| && InView(Views[w], x.filename)
  {
    var ls := Lists(Views, shots);
    ConcatMembers(ls, |Views|, x);
    forall w | 0 <= w < |Views| ensures x in ls[w] <==> x in shots && InView(Views[w], x.filename) {
      MatchingMembers(shots, Views[w], x);
    }
  }

  /** Every line of a run of screenshots is one of the lines of one of them. */
  lemma {:induction false} ShotsLinesFrom(shots: seq<Shot>, e: string)
    requires e in ShotsLines(shots)
    ensures exists j :: 0 <= j < |shots| && e in ShotLines(shots[j])
    decreases |shots|
  {
    var n := |shots| - 1;
    if e !in ShotLines(shots[n]) {
      ShotsLinesFrom(shots[..n], e);
      var j :| 0 <= j < n && e in ShotLines(shots[..n][j]);
      assert shots[..n][j] == shots[j];
    }
  }

  /** Each line of a block other than its heading or a blank line belongs to one of the view's screenshots. */
  lemma BlockLineFrom(v: View, shots: seq<Shot>, e: string) returns (j: nat)
    requires e in ViewLines(v, shots) && |e| > 0 && e[0] != '#'
    ensures j < |Matching(shots, v)| && e in ShotLines(Matching(shots, v)[j])
  {
    var m := Matching(shots, v);
    assert e in ShotsLines(m);
    ShotsLinesFrom(m, e);
    j :| 0 <= j < |m| && e in ShotLines(m[j]);
  }

  /** Each line after the header other than a heading or a blank line belongs to a shown screenshot. */
  lemma LineFrom(shots: seq<Shot>, e: string)
    requires e in Lines(shots)[|Header|..] && |e| > 0 && e[0] != '#'
    ensures exists x :: x in Shown(shots) && e in ShotLines(x)
  {
    var bs := Blocks(Views, shots);
    assert Lines(shots)[|Header|..] == Concat(bs, |Views|);
    ConcatMembers(bs, |Views|, e);
    var w :| 0 <= w < |Views| && e in bs[w];
    var j := BlockLineFrom(Views[w], shots, e);
    var x := Matching(shots, Views[w])[j];
    ConcatMembers(Lists(Views, shots), |Views|, x);
    assert x in Lists(Views, shots)[w];
  }

  /** Two prefixes of the same length that both start a name are equal. */
  lemma SharedPrefix(filename: string, ps: seq<string>, qs: seq<string>, len: nat) returns (k: nat, l: nat)
    requires forall k :: 0 <= k < |ps| ==> |ps[k]| == len
    requires forall k :: 0 <= k < |qs| ==> |qs[k]| == len
    requires AnyPrefix(ps, filename) && AnyPrefix(qs, filename)
    ensures k < |ps| && l < |qs| && ps[k] == qs[l]
  {
    AnyPrefixMeaning(ps, filename);
    AnyPrefixMeaning(qs, filename);
    k :| 0 <= k < |ps| && StartsWith(filename, ps[k]);
    l :| 0 <= l < |qs| && StartsWith(filename, qs[l]);
    StartsWithPrefix(filename, ps[k]);
    StartsWithPrefix(filename, qs[l]);
    assert ps[k] == filename[..len] == qs[l];
  }

  /** The view a prefix's second character names. */
  function ViewOfDigit(c: char): int
  {
    if '1' <= c <= '3' then 0 else if '4' <= c <= '6' then 1 else if c == '7' then 2 else 3
  }

  /** Every prefix has three characters, and its second one names its view. */
  lemma PrefixesOfView(w: nat)
    requires w < |Views|
    ensures forall k :: 0 <= k < |Views[w].prefixes| ==>
              |Views[w].prefixes[k]| == 3 && ViewOfDigit(Views[w].prefixes[k][1]) == w
  {
  }

  /** The prefixes of different views never share a file name, so no screenshot is shown twice. */
  lemma OneView(filename: string, a: nat, b: nat)
    requires a < b < |Views|
    ensures !(InView(Views[a], filename) && InView(Views[b], filename))
  {
    PrefixesOfView(a);
    PrefixesOfView(b);
    if InView(Views[a], filename) && InView(Views[b], filename) {
      var k, l := SharedPrefix(filename, Views[a].prefixes, Views[b].prefixes, 3);
      assert false;
    }
  }
}
