/**
 * The breadcrumb bar (`BreadcrumbTrail`): the crumbs built from the
 * location's path, one per non-empty segment after the home crumb, each
 * pointing at the path up to its segment; the rule that hides the bar on
 * the home page; and the active-filter badge.
 */
module BreadcrumbTrail {
  import opened Wrappers
  import opened Text
  import opened Seqs

  datatype Crumb = Crumb(title: string, path: string, isHome: bool, isLast: bool)

  const HomeCrumb := Crumb("Dashboard", "/", true, false)

  /** The fixed labels of the four top-level sections. */
  const RouteLabels: map<string, string> := map[
    "/executive-overview" := "Resumen Ejecutivo",
    "/operations-command-center" := "Centro de Operaciones",
    "/performance-analytics" := "Análisis de Rendimiento",
    "/team-performance-hub" := "Rendimiento del Equipo"]

  /**
   * `pathname.split('/').filter(Boolean)`: the pieces between slashes, the
   * empty ones dropped, each other piece as often as it occurs; the order is
   * kept (see `SegmentsOfPath`).
   */
  function Segments(pathname: string): (segs: seq<string>)
    ensures forall k :: 0 <= k < |segs| ==> segs[k] != "" && '/' !in segs[k]
    ensures multiset(segs) == multiset(Split(pathname, '/'))["" := 0]
  {
    var parts := Split(pathname, '/');
    var r := RemoveAll(parts, "");
    assert forall k :: 0 <= k < |r| ==> r[k] in multiset(r);
    r
  }

  /** The path of the crumb for the last of `segs`: `"/" + segment` for each, in order. */
  function PathOf(segs: seq<string>): string
    decreases |segs|
  {
    if |segs| == 0 then "" else PathOf(segs[..|segs| - 1]) + "/" + segs[|segs| - 1]
  }

  /** Segments that could stand in a path: non-empty and free of slashes. */
  predicate PathSegments(segs: seq<string>) {
    forall k :: 0 <= k < |segs| ==> segs[k] != "" && '/' !in segs[k]
  }

  /** The path built from segments splits back into an empty piece and those segments. */
  lemma {:induction false} SplitPathOf(segs: seq<string>)
    requires PathSegments(segs)
    ensures Split(PathOf(segs), '/') == [""] + segs
    decreases |segs|
  {
    if |segs| > 0 {
      var init := segs[..|segs| - 1];
      var last := segs[|segs| - 1];
      SplitPathOf(init);
      SplitAround(PathOf(init), last, '/');
      assert PathOf(segs) == PathOf(init) + ['/'] + last;
      SplitWithoutSeparator(last, '/');
      assert segs == init + [last];
    }
  }

  /** Dropping a value that does not occur changes nothing. */
  lemma {:induction false} RemoveAbsent(s: seq<string>, v: string)
    requires v !in s
    ensures RemoveAll(s, v) == s
    decreases |s|
  {
    if |s| > 0 {
      RemoveAbsent(s[1..], v);
    }
  }

  /** A crumb's path reads back as the segments it was built from, in their order. */
  lemma SegmentsOfPath(segs: seq<string>)
    requires PathSegments(segs)
    ensures Segments(PathOf(segs)) == segs
  {
    SplitPathOf(segs);
    assert ([""] + segs)[1..] == segs;
    RemoveAbsent(segs, "");
  }

  /** Extending the prefix by one segment extends its path by a slash and that segment. */
  lemma PathOfStep(segs: seq<string>, i: nat)
    requires i < |segs|
    ensures PathOf(segs[..i + 1]) == PathOf(segs[..i]) + "/" + segs[i]
  {
    assert segs[..i + 1][..i] == segs[..i];
  }

  /** `replace(/-/g, ' ')`: every hyphen becomes a space, every other character is kept. */
  function Dehyphen(s: string): (r: string)
    ensures |r| == |s| && '-' !in r
    ensures forall i :: 0 <= i < |s| && s[i] == '-' ==> r[i] == ' '
    ensures forall i :: 0 <= i < |s| && s[i] != '-' ==> r[i] == s[i]
  {
    seq(|s|, i requires 0 <= i < |s| => if s[i] == '-' then ' ' else s[i])
  }

  /** Position `i` starts a word: `\b\w` matches there. */
  predicate AtWordStart(s: string, i: int)
    requires 0 <= i < |s|
  {
    IsWordChar(s[i]) && (i == 0 || !IsWordChar(s[i - 1]))
  }

  /**
   * `replace(/\b\w/g, l => l.toUpperCase())`: the first character of every
   * word is upper-cased and every other character kept, so no word starts
   * with a lower-case letter and the words stay where they were.
   */
  function TitleCase(s: string): (r: string)
    ensures |r| == |s|
    ensures forall i :: 0 <= i < |s| && AtWordStart(s, i) ==> r[i] == UpperChar(s[i])
    ensures forall i :: 0 <= i < |s| ==> IsWordChar(r[i]) == IsWordChar(s[i])
    ensures forall i :: 0 <= i < |r| && AtWordStart(r, i) ==> !IsAsciiLower(r[i])
    ensures forall i :: 0 <= i < |s| && !AtWordStart(s, i) ==> r[i] == s[i]
  {
    seq(|s|, i requires 0 <= i < |s| => if AtWordStart(s, i) then UpperChar(s[i]) else s[i])
  }

  /** Title-casing a title-cased string changes nothing. */
  lemma TitleCaseIdempotent(s: string)
    ensures TitleCase(TitleCase(s)) == TitleCase(s)
  {
    var t := TitleCase(s);
    forall i | 0 <= i < |t|
      ensures TitleCase(t)[i] == t[i]
    {
      if AtWordStart(t, i) {
        assert AtWordStart(s, i);
      }
    }
  }

  /** The label of a crumb: the section's fixed label, or its segment title-cased with hyphens as spaces. */
  function LabelFor(path: string, segment: string): (name: string)
    ensures path in RouteLabels ==> name == RouteLabels[path]
    ensures path !in RouteLabels ==> name == TitleCase(Dehyphen(segment))
    ensures path !in RouteLabels ==> |name| == |segment| && '-' !in name
  {
    if path in RouteLabels then RouteLabels[path]
    else
      var d := Dehyphen(segment);
      var t := TitleCase(d);
      assert forall i :: 0 <= i < |t| ==> t[i] != '-' by {
        forall i | 0 <= i < |t| ensures t[i] != '-' {
          assert d[i] != '-';
          if AtWordStart(d, i) {
            assert IsWordChar(t[i]);
          }
        }
      }
      t
  }

  function SegmentCrumb(segs: seq<string>, j: int): Crumb
    requires 0 <= j < |segs|
  {
    var path := PathOf(segs[..j + 1]);
    Crumb(LabelFor(path, segs[j]), path, false, j == |segs| - 1)
  }

  /** The crumbs of the first `n` segments. */
  function SegmentCrumbs(segs: seq<string>, n: nat): seq<Crumb>
    requires n <= |segs|
  {
    seq(n, j requires 0 <= j < n => SegmentCrumb(segs, j))
  }

  lemma SegmentCrumbsStep(segs: seq<string>, n: nat)
    requires n < |segs|
    ensures SegmentCrumbs(segs, n + 1) == SegmentCrumbs(segs, n) + [SegmentCrumb(segs, n)]
  {
  }

  /** What `generateBreadcrumbs` returns: the home crumb, then one crumb per segment. */
  function Breadcrumbs(pathname: string): (r: seq<Crumb>)
    ensures |r| == |Segments(pathname)| + 1 && r[0] == HomeCrumb
  {
    var segs := Segments(pathname);
    [HomeCrumb] + SegmentCrumbs(segs, |segs|)
  }

  /** Only the crumb of the final segment is marked last, and only the first crumb is home. */
  lemma OnlyFinalCrumbIsLast(pathname: string)
    ensures var r := Breadcrumbs(pathname);
            forall j :: 0 <= j < |r| ==> (r[j].isLast <==> j > 0 && j == |r| - 1)
    ensures var r := Breadcrumbs(pathname);
            forall j :: 0 <= j < |r| ==> (r[j].isHome <==> j == 0)
  {
  }

  /** Each segment crumb's path is the one before it, then a slash and its own segment. */
  lemma {:induction false} PathsExtend(pathname: string)
    ensures var r := Breadcrumbs(pathname);
            var segs := Segments(pathname);
            |r| > 1 ==> r[1].path == "/" + segs[0]
    ensures var r := Breadcrumbs(pathname);
            var segs := Segments(pathname);
            forall j :: 1 <= j < |r| - 1 ==> r[j + 1].path == r[j].path + "/" + segs[j]
  {
    var r := Breadcrumbs(pathname);
    var segs := Segments(pathname);
    if |segs| > 0 {
      CrumbAt(pathname, 0);
      PathOfStep(segs, 0);
      assert segs[..0] == [];
    }
    forall j | 1 <= j < |r| - 1
      ensures r[j + 1].path == r[j].path + "/" + segs[j]
    {
      CrumbAt(pathname, j - 1);
      CrumbAt(pathname, j);
      CrumbPathStep(segs, j);
    }
  }

  /** The crumb after home for segment `j`. */
  lemma CrumbAt(pathname: string, j: nat)
    requires j < |Segments(pathname)|
    ensures Breadcrumbs(pathname)[j + 1] == SegmentCrumb(Segments(pathname), j)
  {
  }

  lemma CrumbPathStep(segs: seq<string>, j: nat)
    requires 1 <= j < |segs|
    ensures SegmentCrumb(segs, j).path == SegmentCrumb(segs, j - 1).path + "/" + segs[j]
  {
    PathOfStep(segs, j);
  }

  /** A crumb path holds one slash per segment it covers, since segments hold none. */
  lemma {:induction false} PathSlashCount(segs: seq<string>)
    requires forall k :: 0 <= k < |segs| ==> '/' !in segs[k]
    ensures Occurrences(PathOf(segs), '/') == |segs|
    decreases |segs|
  {
    if |segs| > 0 {
      var init := segs[..|segs| - 1];
      PathSlashCount(init);
      OccurrencesAppend(PathOf(init) + "/", segs[|segs| - 1], '/');
      OccurrencesAppend(PathOf(init), "/", '/');
      OccurrencesNone(segs[|segs| - 1], '/');
    }
  }

  lemma {:induction false} OccurrencesAppend(a: string, b: string, c: char)
    ensures Occurrences(a + b, c) == Occurrences(a, c) + Occurrences(b, c)
    decreases |a|
  {
    if |a| > 0 {
      assert (a + b)[1..] == a[1..] + b;
      OccurrencesAppend(a[1..], b, c);
    } else {
      assert a + b == b;
    }
  }

  lemma {:induction false} OccurrencesNone(s: string, c: char)
    requires c !in s
    ensures Occurrences(s, c) == 0
    decreases |s|
  {
    if |s| > 0 {
      assert s[0] != c;
      OccurrencesNone(s[1..], c);
    }
  }

  /**
   * `generateBreadcrumbs`: walks the segments, extending the running path by
   * one segment at a time and pushing a crumb for each.
   */
  method GenerateBreadcrumbs(pathname: string) returns (breadcrumbs: seq<Crumb>)
    ensures breadcrumbs == Breadcrumbs(pathname)
  {
    var pathSegments := Segments(pathname);
    breadcrumbs := [HomeCrumb];
    var currentPath := "";
    var index := 0;
    while index < |pathSegments|
      invariant 0 <= index <= |pathSegments|
      invariant currentPath == PathOf(pathSegments[..index])
      invariant breadcrumbs == [HomeCrumb] + SegmentCrumbs(pathSegments, index)
    {
      PathOfStep(pathSegments, index);
      SegmentCrumbsStep(pathSegments, index);
      currentPath := currentPath + "/" + pathSegments[index];
      var title := LabelFor(currentPath, pathSegments[index]);
      var crumb := Crumb(title, currentPath, false, index == |pathSegments| - 1);
      breadcrumbs := breadcrumbs + [crumb];
      index := index + 1;
    }
  }

  /** The bar: nothing on the home page, the crumbs everywhere else. */
  method Render(pathname: string) returns (view: Option<seq<Crumb>>)
    ensures view.None? <==> pathname == "/"
    ensures view.Some? ==> view.value == Breadcrumbs(pathname)
  {
    var breadcrumbs := GenerateBreadcrumbs(pathname);
    if pathname == "/" {
      view := None;
    } else {
      view := Some(breadcrumbs);
    }
  }

  /** The active-filter badge for an object with `n` keys: none for zero keys, singular words for exactly one. */
  function FilterBadge(n: nat): (r: Option<string>)
    ensures r.None? <==> n == 0
    ensures n == 1 ==> r == Some("1 filtro activo")
    ensures n > 1 ==> r == Some(Decimal(n) + " filtros activos")
  {
    if n == 0 then None
    else
      var s := if n != 1 then "s" else "";
      assert n == 1 ==> Decimal(n) + " filtro" + "" + " activo" + "" == "1 filtro activo";
      assert Decimal(n) + " filtro" + "s" + " activo" + "s" == Decimal(n) + " filtros activos";
      Some(Decimal(n) + " filtro" + s + " activo" + s)
  }
}
