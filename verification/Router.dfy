// File-system routes: building the table, and choosing a route for a path.
module Router {
  import opened Basics
  import opened Json
  import opened CanonicalJson
  import Utf8

  datatype Kind = Api | Page

  datatype Segment = Static(value: string) | Param(name: string)

  datatype Route = Route(segments: seq<Segment>, file: string, kind: Kind, pattern: string)

  /** A file below the routes directory: its path, stem and extension, and its relative path without extension. */
  datatype Entry = Entry(path: string, stem: string, extension: Option<string>, components: seq<string>)

  // ------------------------------------------------------------------ routes

  predicate EndsWith(s: string, suffix: string) {
    |s| >= |suffix| && s[|s| - |suffix|..] == suffix
  }

  function KindOf(extension: Option<string>): Option<Kind> {
    match extension
    case Some("ts") => Some(Api)
    case Some("js") => Some(Api)
    case Some("mjs") => Some(Api)
    case Some("tsx") => Some(Page)
    case Some("jsx") => Some(Page)
    case _ => None
  }

  function SegmentOf(component: string): Segment {
    if |component| >= 2 && component[0] == '[' && component[|component| - 1] == ']' then Param(component[1..|component| - 1])
    else Static(component)
  }

  /** A trailing `index` stands for its directory. */
  function RoutedComponents(components: seq<string>): seq<string> {
    if components != [] && components[|components| - 1] == "index" then components[..|components| - 1] else components
  }

  function Segments(components: seq<string>): (r: seq<Segment>)
    ensures |r| == |components|
  {
    seq(|components|, i requires 0 <= i < |components| => SegmentOf(components[i]))
  }

  function Slashed(components: seq<string>): string {
    if components == [] then "" else Slashed(components[..|components| - 1]) + "/" + components[|components| - 1]
  }

  function PatternOf(components: seq<string>): string {
    if Slashed(components) == "" then "/" else Slashed(components)
  }

  function RouteOf(e: Entry): Option<Route> {
    if EndsWith(e.stem, ".client") || EndsWith(e.stem, ".server") then None
    else
      match KindOf(e.extension)
      case None => None
      case Some(kind) =>
        var components := RoutedComponents(e.components);
        Some(Route(Segments(components), e.path, kind, PatternOf(components)))
  }

  function RoutesOf(entries: seq<Entry>): seq<Route> {
    if entries == [] then []
    else
      var last := RouteOf(entries[|entries| - 1]);
      RoutesOf(entries[..|entries| - 1]) + if last.Some? then [last.value] else []
  }

  /** The segments decide the pattern. */
  function TextOf(s: Segment): string {
    match s
    case Static(value) => value
    case Param(name) => "[" + name + "]"
  }

  ghost predicate Scanned(r: Route) {
    exists components :: r.segments == Segments(components) && r.pattern == PatternOf(components)
  }

  lemma SegmentTextIsComponent(component: string)
    ensures TextOf(SegmentOf(component)) == component
  {
    if SegmentOf(component).Param? {
      assert component == "[" + component[1..|component| - 1] + "]";
    }
  }

  lemma SegmentsDecidePattern(a: seq<string>, b: seq<string>)
    requires Segments(a) == Segments(b)
    ensures a == b
  {
    forall i | 0 <= i < |a|
      ensures a[i] == b[i]
    {
      SegmentTextIsComponent(a[i]);
      SegmentTextIsComponent(b[i]);
      assert Segments(a)[i] == Segments(b)[i];
    }
  }

  // ------------------------------------------------------------------- order

  /** Static before parameter, then by name. */
  predicate SegmentBefore(a: Segment, b: Segment) {
    match (a, b)
    case (Static(x), Static(y)) => Before(x, y)
    case (Static(_), Param(_)) => true
    case (Param(_), Static(_)) => false
    case (Param(x), Param(y)) => Before(x, y)
  }

  lemma SegmentTotal(a: Segment, b: Segment)
    ensures a == b || SegmentBefore(a, b) || SegmentBefore(b, a)
    ensures !(SegmentBefore(a, b) && SegmentBefore(b, a)) && !SegmentBefore(a, a)
  {
    match (a, b)
    case (Static(x), Static(y)) => BeforeTrichotomy(x, y); BeforeTrichotomy(x, x);
    case (Param(x), Param(y)) => BeforeTrichotomy(x, y); BeforeTrichotomy(x, x);
    case (Static(x), _) => BeforeTrichotomy(x, x);
    case (Param(x), _) => BeforeTrichotomy(x, x);
  }

  lemma SegmentTransitive(a: Segment, b: Segment, c: Segment)
    requires SegmentBefore(a, b) && SegmentBefore(b, c)
    ensures SegmentBefore(a, c)
  {
    match (a, b, c)
    case (Static(x), Static(y), Static(z)) => BeforeTransitive(x, y, z);
    case (Param(x), Param(y), Param(z)) => BeforeTransitive(x, y, z);
    case _ =>
  }

  /** The first differing segment decides; otherwise the shorter list comes first. */
  predicate SegmentsBefore(a: seq<Segment>, b: seq<Segment>) {
    b != [] && (a == [] || SegmentBefore(a[0], b[0]) || (a[0] == b[0] && SegmentsBefore(a[1..], b[1..])))
  }

  lemma {:induction false} SegmentsTotal(a: seq<Segment>, b: seq<Segment>)
    ensures a == b || SegmentsBefore(a, b) || SegmentsBefore(b, a)
    ensures !(SegmentsBefore(a, b) && SegmentsBefore(b, a)) && !SegmentsBefore(a, a)
  {
    hide SegmentBefore;
    if a != [] {
      SegmentTotal(a[0], a[0]);
      SegmentsTotal(a[1..], a[1..]);
      if b != [] {
        SegmentTotal(a[0], b[0]);
        SegmentsTotal(a[1..], b[1..]);
        assert a[0] == b[0] && a[1..] == b[1..] ==> a == [a[0]] + a[1..] == b;
      }
    }
  }

  lemma {:induction false} SegmentsTransitive(a: seq<Segment>, b: seq<Segment>, c: seq<Segment>)
    requires SegmentsBefore(a, b) && SegmentsBefore(b, c)
    ensures SegmentsBefore(a, c)
  {
    hide SegmentBefore;
    if a != [] {
      if SegmentBefore(a[0], b[0]) && SegmentBefore(b[0], c[0]) {
        SegmentTransitive(a[0], b[0], c[0]);
      }
      if a[0] == b[0] == c[0] && !SegmentBefore(a[0], b[0]) && !SegmentBefore(b[0], c[0]) {
        SegmentsTransitive(a[1..], b[1..], c[1..]);
      }
    }
  }

  /** The order of the table: segments, then pattern, then file. */
  predicate RouteBefore(a: Route, b: Route) {
    SegmentsBefore(a.segments, b.segments)
    || (a.segments == b.segments
        && (Before(a.pattern, b.pattern) || (a.pattern == b.pattern && Before(a.file, b.file))))
  }

  /** Only routes with the same place in the order are indistinguishable. */
  predicate Tied(a: Route, b: Route) {
    a.segments == b.segments && a.pattern == b.pattern && a.file == b.file
  }

  lemma RouteTotal(a: Route, b: Route)
    ensures Tied(a, b) || RouteBefore(a, b) || RouteBefore(b, a)
    ensures !(RouteBefore(a, b) && RouteBefore(b, a)) && !RouteBefore(a, a)
  {
    hide SegmentsBefore, Before;
    SegmentsTotal(a.segments, b.segments);
    SegmentsTotal(a.segments, a.segments);
    BeforeTrichotomy(a.pattern, b.pattern);
    BeforeTrichotomy(a.file, b.file);
    BeforeTrichotomy(a.pattern, a.pattern);
    BeforeTrichotomy(a.file, a.file);
  }

  lemma RouteTransitive(a: Route, b: Route, c: Route)
    requires RouteBefore(a, b) && RouteBefore(b, c)
    ensures RouteBefore(a, c)
  {
    hide SegmentsBefore, Before;
    if SegmentsBefore(a.segments, b.segments) && SegmentsBefore(b.segments, c.segments) {
      SegmentsTransitive(a.segments, b.segments, c.segments);
    } else if a.segments == b.segments == c.segments && !SegmentsBefore(a.segments, c.segments) {
      if Before(a.pattern, b.pattern) && Before(b.pattern, c.pattern) {
        BeforeTransitive(a.pattern, b.pattern, c.pattern);
      } else if a.pattern == b.pattern == c.pattern && !Before(a.pattern, c.pattern) {
        BeforeTransitive(a.file, b.file, c.file);
      }
    }
  }

  // ----------------------------------------------------------------- sorting

  predicate Sorted(routes: seq<Route>) {
    forall i, j :: 0 <= i < j < |routes| ==> !RouteBefore(routes[j], routes[i])
  }

  function InsertRoute(r: Route, routes: seq<Route>): (s: seq<Route>)
    ensures multiset(s) == multiset(routes) + multiset{r}
  {
    if routes == [] || !RouteBefore(routes[0], r) then [r] + routes
    else
      assert routes == [routes[0]] + routes[1..];
      [routes[0]] + InsertRoute(r, routes[1..])
  }

  function SortRoutes(routes: seq<Route>): (s: seq<Route>)
    ensures multiset(s) == multiset(routes)
  {
    if routes == [] then []
    else
      assert routes == [routes[0]] + routes[1..];
      InsertRoute(routes[0], SortRoutes(routes[1..]))
  }

  lemma NotAfterTransitive(a: Route, b: Route, c: Route)
    requires !RouteBefore(b, a) && !RouteBefore(c, b)
    ensures !RouteBefore(c, a)
  {
    hide RouteBefore;
    RouteTotal(a, b);
    RouteTotal(b, c);
    if RouteBefore(c, a) {
      RouteTotal(a, c);
      if RouteBefore(a, b) {
        RouteTransitive(c, a, b);
      } else if RouteBefore(b, c) {
        RouteTransitive(b, c, a);
      } else {
        TiedOrder(a, b, c);
      }
    }
  }

  lemma TiedOrder(a: Route, b: Route, c: Route)
    requires Tied(a, b) && Tied(b, c)
    ensures !RouteBefore(c, a)
  {
    RouteTotal(a, a);
  }

  lemma {:induction false} InsertSorted(r: Route, routes: seq<Route>)
    requires Sorted(routes)
    ensures Sorted(InsertRoute(r, routes))
  {
    hide RouteBefore;
    var s := InsertRoute(r, routes);
    if routes != [] {
      if !RouteBefore(routes[0], r) {
        forall j | 1 < j < |s|
          ensures !RouteBefore(s[j], r)
        {
          NotAfterTransitive(r, routes[0], routes[j - 1]);
        }
      } else {
        InsertSorted(r, routes[1..]);
        var rest := InsertRoute(r, routes[1..]);
        RouteTotal(routes[0], r);
        forall j | 1 <= j < |s|
          ensures !RouteBefore(s[j], s[0])
        {
          assert s[j] in multiset(rest);
          assert s[j] == r || s[j] in routes[1..];
        }
      }
    }
  }

  lemma {:induction false} SortRoutesSorts(routes: seq<Route>)
    ensures Sorted(SortRoutes(routes))
  {
    if routes != [] {
      SortRoutesSorts(routes[1..]);
      InsertSorted(routes[0], SortRoutes(routes[1..]));
    }
  }

  /** No two routes share a pattern. */
  predicate Distinct(routes: seq<Route>) {
    forall i, j :: 0 <= i < j < |routes| ==> routes[i].pattern != routes[j].pattern
  }

  lemma DistinctByMultiset(a: seq<Route>, b: seq<Route>)
    requires multiset(a) == multiset(b) && Distinct(a)
    ensures Distinct(b)
  {
    forall i, j | 0 <= i < j < |b|
      ensures b[i].pattern != b[j].pattern
    {
      if b[i].pattern == b[j].pattern {
        assert b[i] in multiset(b) && b[j] in multiset(b);
        var x :| 0 <= x < |a| && a[x] == b[i];
        var y :| 0 <= y < |a| && a[y] == b[j];
        if x == y {
          TwiceInSequence(b, i, j);
          OnceInDistinct(a, x);
        }
      }
    }
  }

  lemma TwiceInSequence(s: seq<Route>, i: nat, j: nat)
    requires i < j < |s| && s[i] == s[j]
    ensures multiset(s)[s[i]] >= 2
  {
    assert s == s[..i] + [s[i]] + s[i + 1..j] + [s[j]] + s[j + 1..];
  }

  lemma OnceInDistinct(s: seq<Route>, i: nat)
    requires Distinct(s) && i < |s|
    ensures multiset(s)[s[i]] == 1
  {
    var before, after := s[..i], s[i + 1..];
    assert s == before + [s[i]] + after;
    assert s[i] !in before && s[i] !in after;
  }

  lemma SameFirst(a: seq<Route>, b: seq<Route>)
    requires a != [] && b != [] && Sorted(a) && Sorted(b) && Distinct(a) && multiset(a) == multiset(b)
    ensures a[0] == b[0]
  {
    hide RouteBefore;
    var x, y := a[0], b[0];
    assert x in multiset(b) && y in multiset(a);
    var i :| 0 <= i < |b| && b[i] == x;
    var j :| 0 <= j < |a| && a[j] == y;
    RouteTotal(x, x);
    RouteTotal(x, y);
    assert !RouteBefore(x, y) && !RouteBefore(y, x);
    assert Tied(x, y);
  }

  /** Sorted lists of distinct routes with the same members are the same list. */
  lemma {:induction false} SortedIsUnique(a: seq<Route>, b: seq<Route>)
    requires Sorted(a) && Sorted(b) && Distinct(a) && multiset(a) == multiset(b)
    ensures a == b
  {
    hide RouteBefore;
    assert |multiset(a)| == |a| && |multiset(b)| == |b|;
    if a != [] {
      SameFirst(a, b);
      assert a == [a[0]] + a[1..] && b == [b[0]] + b[1..];
      assert multiset(a[1..]) == multiset(a) - multiset{a[0]} == multiset(b[1..]);
      SortedIsUnique(a[1..], b[1..]);
    }
  }

  // -------------------------------------------------------------------- scan

  /** Adjacent equal patterns, once sorted by pattern, are all equal patterns. */
  function ByPattern(routes: seq<Route>): (s: seq<Route>)
    ensures multiset(s) == multiset(routes)
  {
    if routes == [] then []
    else
      assert routes == [routes[0]] + routes[1..];
      InsertByPattern(routes[0], ByPattern(routes[1..]))
  }

  function InsertByPattern(r: Route, routes: seq<Route>): (s: seq<Route>)
    ensures multiset(s) == multiset(routes) + multiset{r}
  {
    if routes == [] || !Before(routes[0].pattern, r.pattern) then [r] + routes
    else
      assert routes == [routes[0]] + routes[1..];
      [routes[0]] + InsertByPattern(r, routes[1..])
  }

  predicate PatternSorted(routes: seq<Route>) {
    forall i, j :: 0 <= i < j < |routes| ==> !Before(routes[j].pattern, routes[i].pattern)
  }

  lemma {:induction false} ByPatternSorts(routes: seq<Route>)
    ensures PatternSorted(ByPattern(routes))
  {
    if routes != [] {
      ByPatternSorts(routes[1..]);
      InsertByPatternSorts(routes[0], ByPattern(routes[1..]));
    }
  }

  lemma {:induction false} InsertByPatternSorts(r: Route, routes: seq<Route>)
    requires PatternSorted(routes)
    ensures PatternSorted(InsertByPattern(r, routes))
  {
    hide Before;
    var s := InsertByPattern(r, routes);
    if routes != [] {
      if !Before(routes[0].pattern, r.pattern) {
        forall j | 1 < j < |s|
          ensures !Before(s[j].pattern, r.pattern)
        {
          NotBeforeTransitive(r.pattern, routes[0].pattern, routes[j - 1].pattern);
        }
      } else {
        InsertByPatternSorts(r, routes[1..]);
        var rest := InsertByPattern(r, routes[1..]);
        BeforeTrichotomy(routes[0].pattern, r.pattern);
        forall j | 1 <= j < |s|
          ensures !Before(s[j].pattern, s[0].pattern)
        {
          assert s[j] in multiset(rest);
          assert s[j] == r || s[j] in routes[1..];
        }
      }
    }
  }

  /** Looks only at neighbours of the list sorted by pattern. */
  method HasDuplicate(routes: seq<Route>) returns (found: bool)
    ensures found <==> !Distinct(routes)
  {
    hide Before;
    var sorted := ByPattern(routes);
    ByPatternSorts(routes);
    found := false;
    var i := 0;
    while i + 1 < |sorted|
      invariant 0 <= i && (sorted == [] || i < |sorted|)
      invariant forall a, b :: 0 <= a < b <= i && b < |sorted| ==> sorted[a].pattern != sorted[b].pattern
    {
      if sorted[i].pattern == sorted[i + 1].pattern {
        assert !Distinct(sorted);
        if Distinct(routes) {
          DistinctByMultiset(routes, sorted);
        }
        return true;
      }
      forall a | 0 <= a < i + 1
        ensures sorted[a].pattern != sorted[i + 1].pattern
      {
        if a < i {
          Middle(sorted[a].pattern, sorted[i].pattern, sorted[i + 1].pattern);
        }
      }
      i := i + 1;
    }
    assert Distinct(sorted);
    DistinctByMultiset(sorted, routes);
  }

  lemma Middle(x: string, y: string, z: string)
    requires !Before(y, x) && !Before(z, y) && x != y
    ensures x != z
  {
    BeforeTrichotomy(x, y);
  }

  /** Builds the table from the files in whatever order they are found. */
  method Scan(entries: seq<Entry>) returns (r: Result<seq<Route>>)
    ensures r.Ok? <==> Distinct(RoutesOf(entries))
    ensures r.Ok? ==> r.value == SortRoutes(RoutesOf(entries))
  {
    hide RouteOf;
    var routes: seq<Route> := [];
    for i := 0 to |entries|
      invariant routes == RoutesOf(entries[..i])
    {
      assert entries[..i + 1][..i] == entries[..i];
      var route := RouteOf(entries[i]);
      if route.Some? {
        routes := routes + [route.value];
      }
    }
    assert entries[..|entries|] == entries;
    var duplicate := HasDuplicate(routes);
    if duplicate {
      return Err(ConstraintViolation);
    }
    return Ok(SortRoutes(routes));
  }

  lemma {:induction false} RoutesByMultiset(a: seq<Entry>, b: seq<Entry>)
    requires multiset(a) == multiset(b)
    ensures multiset(RoutesOf(a)) == multiset(RoutesOf(b))
    decreases |a|
  {
    hide RouteOf, RoutesOf;
    if a == [] {
      assert |multiset(b)| == 0;
      assert b == [];
    } else {
      var e := a[|a| - 1];
      assert e in multiset(b);
      var i :| 0 <= i < |b| && b[i] == e;
      var front, before, after := a[..|a| - 1], b[..i], b[i + 1..];
      assert b == before + [e] + after && a == front + [e];
      WithoutOne(front, before, after, e);
      RoutesByMultiset(front, before + after);
      RoutesConcat(front, [e]);
      RoutesAround(before, e, after);
    }
  }

  /** Taking one file out takes out its routes. */
  lemma RoutesAround(before: seq<Entry>, e: Entry, after: seq<Entry>)
    ensures multiset(RoutesOf(before + [e] + after)) == multiset(RoutesOf(before + after)) + multiset(RoutesOf([e]))
  {
    hide RoutesOf;
    RoutesConcat(before + [e], after);
    RoutesConcat(before, [e]);
    RoutesConcat(before, after);
  }

  lemma WithoutOne(front: seq<Entry>, before: seq<Entry>, after: seq<Entry>, e: Entry)
    requires multiset(front + [e]) == multiset(before + [e] + after)
    ensures multiset(front) == multiset(before + after)
  {
    assert multiset(front) == multiset(front + [e]) - multiset{e};
    assert multiset(before + after) == multiset(before + [e] + after) - multiset{e};
  }

  lemma {:induction false} RoutesConcat(a: seq<Entry>, b: seq<Entry>)
    ensures RoutesOf(a + b) == RoutesOf(a) + RoutesOf(b)
    decreases |b|
  {
    hide RouteOf;
    if b == [] {
      assert a + b == a;
    } else {
      assert (a + b)[..|a + b| - 1] == a + b[..|b| - 1];
      RoutesConcat(a, b[..|b| - 1]);
    }
  }

  /** The table does not depend on the order in which the files are enumerated. */
  lemma ScanIsOrderIndependent(a: seq<Entry>, b: seq<Entry>)
    requires multiset(a) == multiset(b)
    ensures Distinct(RoutesOf(a)) <==> Distinct(RoutesOf(b))
    ensures Distinct(RoutesOf(a)) ==> SortRoutes(RoutesOf(a)) == SortRoutes(RoutesOf(b))
  {
    hide Distinct, Sorted, RoutesOf, SortRoutes;
    RoutesByMultiset(a, b);
    var x, y := RoutesOf(a), RoutesOf(b);
    if Distinct(x) {
      DistinctByMultiset(x, y);
      DistinctByMultiset(x, SortRoutes(x));
      SortRoutesSorts(x);
      SortRoutesSorts(y);
      SortedIsUnique(SortRoutes(x), SortRoutes(y));
    }
    if Distinct(y) {
      DistinctByMultiset(y, x);
    }
  }

  // ---------------------------------------------------------------- decoding

  const PERCENT: Byte := 37
  const SLASH: Byte := 47

  function HexDigitOf(b: Byte): (d: Option<int>)
    ensures d.Some? ==> 0 <= d.value < 16
  {
    if 48 <= b <= 57 then Some(b as int - 48)
    else if 97 <= b <= 102 then Some(b as int - 87)
    else if 65 <= b <= 70 then Some(b as int - 55)
    else None
  }

  function HexByte(high: Byte, low: Byte): (b: Option<Byte>) {
    match (HexDigitOf(high), HexDigitOf(low))
    case (Some(x), Some(y)) => Some(16 * x + y)
    case _ => None
  }

  /** Escapes are decoded; a malformed one, or one that hides a slash or a zero byte, is refused. */
  function Unescaped(bytes: seq<Byte>): Option<seq<Byte>>
    decreases |bytes|
  {
    if bytes == [] then Some([])
    else if bytes[0] == PERCENT then
      if |bytes| < 3 then None
      else
        match HexByte(bytes[1], bytes[2])
        case None => None
        case Some(b) =>
          if b == SLASH || b == 0 then None
          else
            match Unescaped(bytes[3..])
            case None => None
            case Some(rest) => Some([b] + rest)
    else
      match Unescaped(bytes[1..])
      case None => None
      case Some(rest) => Some([bytes[0]] + rest)
  }

  function DecodedSegment(segment: string): Option<string> {
    match Unescaped(Utf8.OfString(segment))
    case None => None
    case Some(bytes) => Utf8.StringOf(bytes)
  }

  method PercentDecodeSegment(segment: string) returns (r: Option<string>)
    ensures r == DecodedSegment(segment)
  {
    hide HexByte, Utf8.OfString;
    var bytes := Utf8.OfString(segment);
    var out: seq<Byte> := [];
    var index := 0;
    assert bytes[0..] == bytes && forall rest: seq<Byte> :: [] + rest == rest;
    while index < |bytes|
      invariant 0 <= index <= |bytes|
      invariant Unescaped(bytes) == match Unescaped(bytes[index..]) case None => None case Some(rest) => Some(out + rest)
      decreases |bytes| - index
    {
      ghost var here := bytes[index..];
      assert here[0] == bytes[index];
      if bytes[index] == PERCENT {
        if index + 2 >= |bytes| {
          return None;
        }
        assert here[1] == bytes[index + 1] && here[2] == bytes[index + 2] && here[3..] == bytes[index + 3..];
        var byte := HexByte(bytes[index + 1], bytes[index + 2]);
        if byte.None? || byte.value == SLASH || byte.value == 0 {
          return None;
        }
        assert forall rest: seq<Byte> :: out + ([byte.value] + rest) == (out + [byte.value]) + rest;
        out := out + [byte.value];
        index := index + 3;
      } else {
        assert here[1..] == bytes[index + 1..];
        assert forall rest: seq<Byte> :: out + ([bytes[index]] + rest) == (out + [bytes[index]]) + rest;
        out := out + [bytes[index]];
        index := index + 1;
      }
    }
    assert out + [] == out;
    return Utf8.StringOf(out);
  }

  function HexChar(d: int): Byte
    requires 0 <= d < 16
  {
    if d < 10 then 48 + d else 87 + d
  }

  function Escaped(bytes: seq<Byte>): seq<Byte> {
    if bytes == [] then [] else [PERCENT, HexChar(bytes[0] / 16), HexChar(bytes[0] % 16)] + Escaped(bytes[1..])
  }

  /** Escaping every byte survives exactly when no byte is a slash or zero. */
  lemma {:induction false} EscapesDecode(bytes: seq<Byte>)
    ensures Unescaped(Escaped(bytes)) == if SLASH in bytes || 0 in bytes then None else Some(bytes)
  {
    if bytes != [] {
      EscapesDecode(bytes[1..]);
      var e := Escaped(bytes);
      assert e[3..] == Escaped(bytes[1..]);
      HexRoundTrip(bytes[0]);
      assert HexByte(e[1], e[2]) == Some(bytes[0]);
      assert bytes == [bytes[0]] + bytes[1..];
    }
  }

  lemma HexRoundTrip(b: Byte)
    ensures HexByte(HexChar(b / 16), HexChar(b % 16)) == Some(b)
  {
  }

  /** A decoded segment never smuggles in a separator. */
  lemma {:induction false} NoHiddenSlash(bytes: seq<Byte>)
    requires Unescaped(bytes).Some? && SLASH !in bytes
    ensures SLASH !in Unescaped(bytes).value
    decreases |bytes|
  {
    if bytes != [] {
      if bytes[0] == PERCENT {
        NoHiddenSlash(bytes[3..]);
      } else {
        NoHiddenSlash(bytes[1..]);
      }
    }
  }

  /** A segment without escapes stands for itself. */
  lemma PlainSegment(segment: string)
    requires '%' !in segment
    ensures DecodedSegment(segment) == Some(segment)
  {
    PlainBytes(segment);
    PlainUnescaped(Utf8.OfString(segment));
    Utf8.StringOfBytes(segment);
  }

  lemma {:induction false} PlainBytes(segment: string)
    requires '%' !in segment
    ensures PERCENT !in Utf8.OfString(segment)
  {
    if segment != "" {
      assert segment[0] as int != PERCENT;
      PlainBytes(segment[1..]);
    }
  }

  lemma {:induction false} PlainUnescaped(bytes: seq<Byte>)
    requires PERCENT !in bytes
    ensures Unescaped(bytes) == Some(bytes)
  {
    if bytes != [] {
      PlainUnescaped(bytes[1..]);
      assert [bytes[0]] + bytes[1..] == bytes;
    }
  }

  /** The non-empty parts between slashes. */
  function PartsOf(path: string, current: string): seq<string> {
    var done := if current == "" then [] else [current];
    if path == "" then done
    else if path[0] == '/' then done + PartsOf(path[1..], "")
    else PartsOf(path[1..], current + [path[0]])
  }

  function DecodedAll(parts: seq<string>): Option<seq<string>> {
    if parts == [] then Some([])
    else
      match (DecodedAll(parts[..|parts| - 1]), DecodedSegment(parts[|parts| - 1]))
      case (Some(front), Some(last)) => Some(front + [last])
      case _ => None
  }

  function DecodedParts(path: string): Option<seq<string>> {
    DecodedAll(PartsOf(path, ""))
  }

  // ---------------------------------------------------------------- matching

  predicate SegmentMatches(s: Segment, part: string) {
    s.Param? || s.value == part
  }

  predicate Matches(route: Route, parts: seq<string>) {
    |route.segments| == |parts| && forall i :: 0 <= i < |parts| ==> SegmentMatches(route.segments[i], parts[i])
  }

  /** The named parts; a repeated name keeps its last part. */
  function ParamsOf(segments: seq<Segment>, parts: seq<string>): map<string, string>
    requires |segments| == |parts|
  {
    if segments == [] then map[]
    else
      var last := |segments| - 1;
      var front := ParamsOf(segments[..last], parts[..last]);
      if segments[last].Param? then front[segments[last].name := parts[last]] else front
  }

  /** Exactly the parameters of the route are named, each with the part at its last occurrence. */
  lemma {:induction false} ParamsNameParts(segments: seq<Segment>, parts: seq<string>, k: nat)
    requires |segments| == |parts|
    ensures forall name :: name in ParamsOf(segments, parts) <==> Param(name) in segments
    ensures k < |segments| && segments[k].Param? && segments[k] !in segments[k + 1..] ==>
              ParamsOf(segments, parts)[segments[k].name] == parts[k]
    decreases |segments|
  {
    if segments != [] {
      var last := |segments| - 1;
      ParamsNameParts(segments[..last], parts[..last], k);
      assert forall x :: x in segments <==> x in segments[..last] || x == segments[last];
      if k < last && segments[k] !in segments[k + 1..] {
        assert segments[..last][k + 1..] == segments[k + 1..][..last - k - 1];
        assert segments[last] == segments[k + 1..][last - k - 1];
      }
    }
  }

  /** At the first depth where they differ, `a` is the one that wins. */
  predicate WinsAt(a: Route, b: Route, d: nat) {
    d < |a.segments| && d < |b.segments| && a.segments[..d] == b.segments[..d]
    && match (a.segments[d], b.segments[d])
       case (Static(_), Param(_)) => true
       case (Param(x), Param(y)) => Before(x, y)
       case _ => false
  }

  /** The table's routes in order; the first match is the answer. */
  method MatchParts(routes: seq<Route>, parts: seq<string>) returns (r: Option<(Route, map<string, string>)>)
    ensures r.None? <==> forall i :: 0 <= i < |routes| ==> !Matches(routes[i], parts)
    ensures r.Some? ==> exists i :: 0 <= i < |routes| && routes[i] == r.value.0 && Matches(routes[i], parts)
                                    && (forall j :: 0 <= j < i ==> !Matches(routes[j], parts))
                                    && r.value.1 == ParamsOf(routes[i].segments, parts)
  {
    for i := 0 to |routes|
      invariant forall j :: 0 <= j < i ==> !Matches(routes[j], parts)
    {
      var route := routes[i];
      if |route.segments| == |parts| {
        var matched, params := MatchSegments(route.segments, parts);
        if matched {
          return Some((route, params));
        }
      }
    }
    return None;
  }

  method MatchSegments(segments: seq<Segment>, parts: seq<string>) returns (matched: bool, params: map<string, string>)
    requires |segments| == |parts|
    ensures matched <==> forall i :: 0 <= i < |parts| ==> SegmentMatches(segments[i], parts[i])
    ensures matched ==> params == ParamsOf(segments, parts)
  {
    params := map[];
    for i := 0 to |segments|
      invariant forall k :: 0 <= k < i ==> SegmentMatches(segments[k], parts[k])
      invariant params == ParamsOf(segments[..i], parts[..i])
    {
      assert segments[..i + 1][..i] == segments[..i] && parts[..i + 1][..i] == parts[..i];
      match segments[i]
      case Static(value) =>
        if value != parts[i] {
          return false, params;
        }
      case Param(name) => params := params[name := parts[i]];
    }
    assert segments[..|segments|] == segments && parts[..|parts|] == parts;
    matched := true;
  }

  /** Both routes match the same parts and one is before the other: it wins at their first difference. */
  lemma {:induction false} EarlierWins(a: Route, b: Route, parts: seq<string>)
    requires Matches(a, parts) && Matches(b, parts) && SegmentsBefore(a.segments, b.segments)
    ensures exists d :: WinsAt(a, b, d)
  {
    var d := FirstDifference(a.segments, b.segments);
    assert SegmentMatches(a.segments[d], parts[d]) && SegmentMatches(b.segments[d], parts[d]);
    assert WinsAt(a, b, d) by {
      if a.segments[d].Static? && b.segments[d].Static? {
        BeforeTrichotomy(parts[d], parts[d]);
      }
    }
  }

  lemma {:induction false} FirstDifference(a: seq<Segment>, b: seq<Segment>) returns (d: nat)
    requires SegmentsBefore(a, b) && |a| == |b|
    ensures d < |a| && a[..d] == b[..d] && SegmentBefore(a[d], b[d])
    decreases |a|
  {
    if SegmentBefore(a[0], b[0]) {
      d := 0;
    } else {
      var rest := FirstDifference(a[1..], b[1..]);
      d := rest + 1;
      assert a[..d] == [a[0]] + a[1..][..rest] && b[..d] == [b[0]] + b[1..][..rest];
    }
  }

  /** Every route of a scanned table got its segments and its pattern from one list of components. */
  lemma {:induction false} AllScanned(entries: seq<Entry>)
    ensures forall i :: 0 <= i < |RoutesOf(entries)| ==> Scanned(RoutesOf(entries)[i])
    decreases |entries|
  {
    if entries != [] {
      AllScanned(entries[..|entries| - 1]);
      var last := entries[|entries| - 1];
      if RouteOf(last).Some? {
        var components := RoutedComponents(last.components);
        assert RouteOf(last).value.segments == Segments(components) && RouteOf(last).value.pattern == PatternOf(components);
      }
    }
  }

  lemma DistinctSegments(a: Route, b: Route)
    requires Scanned(a) && Scanned(b) && a.pattern != b.pattern
    ensures a.segments != b.segments
  {
    var x :| a.segments == Segments(x) && a.pattern == PatternOf(x);
    var y :| b.segments == Segments(y) && b.pattern == PatternOf(y);
    if a.segments == b.segments {
      SegmentsDecidePattern(x, y);
    }
  }

  /** A table as a successful scan returns it. */
  ghost predicate IsTable(routes: seq<Route>) {
    Sorted(routes) && Distinct(routes) && forall i :: 0 <= i < |routes| ==> Scanned(routes[i])
  }

  lemma ScanMakesTable(entries: seq<Entry>)
    requires Distinct(RoutesOf(entries))
    ensures IsTable(SortRoutes(RoutesOf(entries)))
  {
    hide Distinct, Scanned, RoutesOf, SortRoutes;
    var routes := RoutesOf(entries);
    var table := SortRoutes(routes);
    SortRoutesSorts(routes);
    DistinctByMultiset(routes, table);
    AllScanned(entries);
    forall i | 0 <= i < |table|
      ensures Scanned(table[i])
    {
      assert table[i] in multiset(table);
      assert table[i] in routes;
    }
  }

  /** Of two matching routes of a table, the earlier one wins at their first difference. */
  lemma EarlierRouteWins(routes: seq<Route>, parts: seq<string>, i: nat, j: nat)
    requires IsTable(routes) && i < j < |routes|
    requires Matches(routes[i], parts) && Matches(routes[j], parts)
    ensures exists d :: WinsAt(routes[i], routes[j], d)
  {
    hide SegmentsBefore, Scanned, Before;
    var a, b := routes[i], routes[j];
    assert !RouteBefore(b, a) && a.pattern != b.pattern;
    DistinctSegments(a, b);
    SegmentsTotal(a.segments, b.segments);
    EarlierWins(a, b, parts);
  }

  /** The chosen route wins, at their first difference, against every other route that matches. */
  lemma ChoiceIsMinimal(routes: seq<Route>, parts: seq<string>, i: nat, j: nat)
    requires IsTable(routes) && i < |routes| && j < |routes| && i != j
    requires Matches(routes[i], parts) && Matches(routes[j], parts)
    requires forall k :: 0 <= k < i ==> !Matches(routes[k], parts)
    ensures exists d :: WinsAt(routes[i], routes[j], d)
  {
    hide IsTable, Matches, WinsAt;
    EarlierRouteWins(routes, parts, i, j);
  }

  // ------------------------------------------------- when a static part wins

  /** `k` is the first depth where the kinds differ: `s` is static there and `p` is a parameter. */
  ghost predicate KindsPartAt(s: Route, p: Route, k: nat) {
    k < |s.segments| && k < |p.segments| && s.segments[k].Static? && p.segments[k].Param?
    && forall d :: 0 <= d < k ==> (s.segments[d].Static? <==> p.segments[d].Static?)
  }

  /** Up to depth `d` the routes agree, and there `a` has the parameter whose name comes first. */
  ghost predicate NamedFirst(a: Route, b: Route, d: nat) {
    d < |a.segments| && d < |b.segments| && a.segments[..d] == b.segments[..d]
    && a.segments[d].Param? && b.segments[d].Param? && Before(a.segments[d].name, b.segments[d].name)
  }

  /** Nothing above depth `k` tells the routes apart, or what does is a parameter name that favours `s`. */
  ghost predicate StaticFirst(s: Route, p: Route, k: nat)
    requires KindsPartAt(s, p, k)
  {
    s.segments[..k] == p.segments[..k] || exists d :: 0 <= d < k && NamedFirst(s, p, d)
  }

  /** The depth of the first difference is unique, so only one of two routes wins. */
  lemma OneWinner(a: Route, b: Route, d: nat, e: nat)
    requires WinsAt(a, b, d)
    ensures !WinsAt(b, a, e)
    ensures e < |a.segments| && e < |b.segments| && a.segments[..e] == b.segments[..e] ==> e <= d
  {
    if d < e && e < |a.segments| && e < |b.segments| && a.segments[..e] == b.segments[..e] {
      assert a.segments[d] == a.segments[..e][d] == b.segments[d];
      BeforeIrreflexive(a.segments[d]);
    }
    if WinsAt(b, a, e) {
      if e < d {
        assert a.segments[e] == a.segments[..d][e] == b.segments[e];
        BeforeIrreflexive(a.segments[e]);
      } else {
        SegmentTotal(a.segments[d], b.segments[d]);
      }
    }
  }

  lemma BeforeIrreflexive(s: Segment)
    ensures !SegmentBefore(s, s)
  {
    SegmentTotal(s, s);
  }

  /** At the first difference of two routes, which of them wins says whether the static one is favoured. */
  lemma WinnerDecides(s: Route, p: Route, k: nat, d: nat)
    requires KindsPartAt(s, p, k)
    ensures WinsAt(s, p, d) ==> StaticFirst(s, p, k)
    ensures WinsAt(p, s, d) ==> !StaticFirst(s, p, k)
  {
    hide Before;
    if WinsAt(s, p, d) {
      OneWinner(s, p, d, k);
      if d < k {
        assert NamedFirst(s, p, d);
      }
    }
    if WinsAt(p, s, d) {
      OneWinner(p, s, d, k);
      forall e: nat | e < k && NamedFirst(s, p, e)
        ensures false
      {
        OneWinner(s, p, e, d);
      }
    }
  }

  /**
   * Of two routes of a table that match the same path, the one with the static part at the
   * first depth of different kinds comes first exactly when no parameter name decides earlier
   * against it.
   */
  lemma StaticWinsExactly(routes: seq<Route>, parts: seq<string>, i: nat, j: nat, k: nat)
    requires IsTable(routes) && i < |routes| && j < |routes|
    requires Matches(routes[i], parts) && Matches(routes[j], parts)
    requires KindsPartAt(routes[i], routes[j], k)
    ensures i < j <==> StaticFirst(routes[i], routes[j], k)
  {
    hide IsTable, Matches, WinsAt, StaticFirst;
    if i < j {
      EarlierRouteWins(routes, parts, i, j);
      var d :| WinsAt(routes[i], routes[j], d);
      WinnerDecides(routes[i], routes[j], k, d);
    } else if j < i {
      EarlierRouteWins(routes, parts, j, i);
      var d :| WinsAt(routes[j], routes[i], d);
      WinnerDecides(routes[i], routes[j], k, d);
    }
  }

  /** The chosen route is the static one exactly when the rule for static parts says so. */
  ghost predicate StaticRule(chosen: Route, other: Route, k: nat) {
    (KindsPartAt(chosen, other, k) ==> StaticFirst(chosen, other, k))
    && (KindsPartAt(other, chosen, k) ==> !StaticFirst(other, chosen, k))
  }

  lemma ChoiceFollowsRule(routes: seq<Route>, parts: seq<string>, i: nat, j: nat, k: nat)
    requires IsTable(routes) && i < |routes| && j < |routes|
    requires Matches(routes[i], parts) && Matches(routes[j], parts)
    requires forall m :: 0 <= m < i ==> !Matches(routes[m], parts)
    ensures StaticRule(routes[i], routes[j], k)
  {
    hide IsTable, Matches, StaticFirst;
    if KindsPartAt(routes[i], routes[j], k) {
      StaticWinsExactly(routes, parts, i, j, k);
    } else if KindsPartAt(routes[j], routes[i], k) {
      StaticWinsExactly(routes, parts, j, i, k);
    }
  }

  /**
   * Matching a path: nothing exactly when the path does not decode or no route of
   * the table matches, and otherwise the one matching route that wins against all others.
   */
  method MatchPath(routes: seq<Route>, path: string) returns (r: Option<(Route, map<string, string>)>)
    requires IsTable(routes)
    ensures r.None? <==> DecodedParts(path).None? || forall i :: 0 <= i < |routes| ==> !Matches(routes[i], DecodedParts(path).value)
    ensures r.Some? ==>
              var parts := DecodedParts(path).value;
              && r.value.0 in routes && Matches(r.value.0, parts) && r.value.1 == ParamsOf(r.value.0.segments, parts)
              && forall other :: other in routes && other != r.value.0 && Matches(other, parts) ==> exists d :: WinsAt(r.value.0, other, d)
    ensures r.Some? ==> forall other, k :: other in routes && Matches(other, DecodedParts(path).value) ==> StaticRule(r.value.0, other, k)
  {
    hide DecodedSegment, WinsAt, Scanned, RouteBefore, Matches, StaticRule;
    var segments := PartsOf(path, "");
    var parts: seq<string> := [];
    for k := 0 to |segments|
      invariant DecodedAll(segments[..k]) == Some(parts)
    {
      assert segments[..k + 1][..k] == segments[..k];
      var part := PercentDecodeSegment(segments[k]);
      if part.None? {
        RefusedStays(segments, k + 1);
        return None;
      }
      parts := parts + [part.value];
    }
    assert segments[..|segments|] == segments;
    r := MatchParts(routes, parts);
    if r.Some? {
      ghost var i: nat :| i < |routes| && routes[i] == r.value.0 && Matches(routes[i], parts)
                          && (forall j :: 0 <= j < i ==> !Matches(routes[j], parts));
      forall other | other in routes && other != r.value.0 && Matches(other, parts)
        ensures exists d :: WinsAt(r.value.0, other, d)
      {
        var j: nat :| j < |routes| && routes[j] == other;
        ChoiceIsMinimal(routes, parts, i, j);
      }
      forall other, k | other in routes && Matches(other, parts)
        ensures StaticRule(r.value.0, other, k)
      {
        var j: nat :| j < |routes| && routes[j] == other;
        ChoiceFollowsRule(routes, parts, i, j, k);
      }
    }
  }

  lemma {:induction false} RefusedStays(parts: seq<string>, k: nat)
    requires k <= |parts| && DecodedAll(parts[..k]).None?
    ensures DecodedAll(parts).None?
    decreases |parts| - k
  {
    hide DecodedSegment;
    if k == |parts| {
      assert parts[..k] == parts;
    } else {
      assert parts[..k + 1][..k] == parts[..k];
      RefusedStays(parts, k + 1);
    }
  }

  // --------------------------------------------------------- files are reached

  /** A path component that is served under its own name. */
  predicate Literal(component: string) {
    component != "" && '/' !in component && '%' !in component
    && !(|component| >= 2 && component[0] == '[' && component[|component| - 1] == ']')
  }

  lemma {:induction false} RouteIsListed(entries: seq<Entry>, e: Entry)
    requires e in entries && RouteOf(e).Some?
    ensures RouteOf(e).value in RoutesOf(entries)
    decreases |entries|
  {
    hide RouteOf;
    var last := |entries| - 1;
    if entries[last] != e {
      RouteIsListed(entries[..last], e);
    }
  }

  lemma {:induction false} PartsAfterWord(word: string, rest: string, current: string)
    requires '/' !in word
    ensures PartsOf(word + rest, current) == PartsOf(rest, current + word)
    decreases |word|
  {
    if word == "" {
      assert word + rest == rest && current + word == current;
    } else {
      assert (word + rest)[1..] == word[1..] + rest;
      PartsAfterWord(word[1..], rest, current + [word[0]]);
      assert current + [word[0]] + word[1..] == current + word;
    }
  }

  /** The slash-separated form of a list of parts is taken apart into those parts. */
  lemma {:induction false} SlashedParts(components: seq<string>, rest: string)
    requires forall i :: 0 <= i < |components| ==> components[i] != "" && '/' !in components[i]
    requires rest == "" || rest[0] == '/'
    ensures PartsOf(Slashed(components) + rest, "") == components + PartsOf(rest, "")
    decreases |components|
  {
    hide PartsOf;
    if components == [] {
      assert Slashed(components) + rest == rest && components + PartsOf(rest, "") == PartsOf(rest, "");
    } else {
      var front, last := components[..|components| - 1], components[|components| - 1];
      var tail := "/" + last + rest;
      assert Slashed(components) == Slashed(front) + "/" + last;
      assert Slashed(components) + rest == Slashed(front) + tail;
      assert tail[0] == '/' && tail[1..] == last + rest;
      forall i | 0 <= i < |front|
        ensures front[i] != "" && '/' !in front[i]
      {
        assert front[i] == components[i];
      }
      SlashedParts(front, tail);
      SlashFirst(tail);
      PartsAfterWord(last, rest, "");
      assert "" + last == last;
      LastPart(last, rest);
      assert components == front + [last];
    }
  }

  lemma SlashFirst(tail: string)
    requires tail != "" && tail[0] == '/'
    ensures PartsOf(tail, "") == PartsOf(tail[1..], "")
  {
    assert [] + PartsOf(tail[1..], "") == PartsOf(tail[1..], "");
  }

  lemma LastPart(word: string, rest: string)
    requires word != "" && (rest == "" || rest[0] == '/')
    ensures PartsOf(rest, word) == [word] + PartsOf(rest, "")
  {
    if rest != "" {
      assert [] + PartsOf(rest[1..], "") == PartsOf(rest[1..], "");
    }
  }

  lemma PatternIsPath(components: seq<string>)
    requires forall i :: 0 <= i < |components| ==> Literal(components[i])
    ensures DecodedParts(PatternOf(components)) == Some(components)
  {
    hide DecodedAll, PartsOf, Slashed;
    SlashedParts(components, "");
    assert Slashed(components) + "" == Slashed(components) && PartsOf("", "") == [] && components + [] == components by { NoParts(); }
    if Slashed(components) == "" {
      assert PartsOf("/", "") == PartsOf("", "") by { NoParts(); }
    }
    PlainParts(components);
  }

  lemma NoParts()
    ensures PartsOf("", "") == [] && PartsOf("/", "") == []
  {
    assert "/"[1..] == "";
  }

  lemma LiteralSegments(components: seq<string>)
    requires forall i :: 0 <= i < |components| ==> Literal(components[i])
    ensures forall i :: 0 <= i < |components| ==> Segments(components)[i] == Static(components[i])
  {
  }

  lemma {:induction false} NoParams(segments: seq<Segment>, parts: seq<string>)
    requires |segments| == |parts| && forall i :: 0 <= i < |segments| ==> segments[i].Static?
    ensures ParamsOf(segments, parts) == map[]
    decreases |segments|
  {
    if segments != [] {
      NoParams(segments[..|segments| - 1], parts[..|parts| - 1]);
    }
  }

  /** A script for an API or a page, not kept for one side only. */
  predicate Served(e: Entry) {
    e.extension in {Some("ts"), Some("js"), Some("mjs"), Some("tsx"), Some("jsx")}
    && !EndsWith(e.stem, ".client") && !EndsWith(e.stem, ".server")
  }

  lemma RouteOfServed(e: Entry)
    ensures RouteOf(e).Some? <==> Served(e)
    ensures Served(e) ==>
              var components := RoutedComponents(e.components);
              && RouteOf(e).value == Route(Segments(components), e.path, RouteOf(e).value.kind, PatternOf(components))
              && (RouteOf(e).value.kind == Page <==> e.extension == Some("tsx") || e.extension == Some("jsx"))
  {
    hide EndsWith, Segments, PatternOf;
  }

  /**
   * Every file under literal names is reached: whatever other files there are, its path is
   * answered by its own route, as a page exactly for `tsx` and `jsx`, with no parameters.
   */
  method Reach(entries: seq<Entry>, e: Entry) returns (r: Option<(Route, map<string, string>)>)
    requires e in entries && Served(e) && Distinct(RoutesOf(entries))
    requires forall i :: 0 <= i < |RoutedComponents(e.components)| ==> Literal(RoutedComponents(e.components)[i])
    ensures r.Some? && r.value.0.file == e.path && r.value.1 == map[]
    ensures r.value.0.kind == Page <==> e.extension == Some("tsx") || e.extension == Some("jsx")
    ensures r.value.0.pattern == PatternOf(RoutedComponents(e.components))
  {
    hide RoutesOf, SortRoutes, IsTable, DecodedParts, PatternOf, RouteOf, Segments, Served, Literal, StaticRule;
    var components := RoutedComponents(e.components);
    var table := Scan(entries);
    ScanMakesTable(entries);
    RouteOfServed(e);
    RouteIsListed(entries, e);
    ghost var own := RouteOf(e).value;
    assert own in multiset(RoutesOf(entries));
    assert own in multiset(table.value);
    PatternIsPath(components);
    LiteralSegments(components);
    assert Matches(own, components);
    r := MatchPath(table.value, PatternOf(components));
    NoParams(own.segments, components);
  }

  // ------------------------------------------------------ a parameter that wins

  // Two files whose routes both match `/y/x`.
  const TWO_FILES: seq<Entry> := [
    Entry("app/routes/[a]/[z].ts", "[z]", Some("ts"), ["[a]", "[z]"]),
    Entry("app/routes/[b]/x.ts", "x", Some("ts"), ["[b]", "x"])
  ]

  const BY_NAME := Route([Param("a"), Param("z")], "app/routes/[a]/[z].ts", Api, "/[a]/[z]")
  const BY_TEXT := Route([Param("b"), Static("x")], "app/routes/[b]/x.ts", Api, "/[b]/x")

  lemma TwoRoutes()
    ensures RoutesOf(TWO_FILES) == [BY_NAME, BY_TEXT]
  {
    var first, second := TWO_FILES[0], TWO_FILES[1];
    assert TWO_FILES[..1] == [first] && [first][..0] == [];
    assert Slashed(["[a]"]) == "/[a]" && Slashed(["[b]"]) == "/[b]" by {
      assert ["[a]"][..0] == [] && ["[b]"][..0] == [];
    }
    assert ["[a]", "[z]"][..1] == ["[a]"] && ["[b]", "x"][..1] == ["[b]"];
    assert PatternOf(["[a]", "[z]"]) == "/[a]/[z]" && PatternOf(["[b]", "x"]) == "/[b]/x";
    assert SegmentOf("[a]") == Param("a") && SegmentOf("[z]") == Param("z") && SegmentOf("[b]") == Param("b");
    assert Segments(["[a]", "[z]"]) == BY_NAME.segments && Segments(["[b]", "x"]) == BY_TEXT.segments;
    assert "[z]" != "index" && "x" != "index";
    assert RouteOf(first) == Some(BY_NAME);
    assert RouteOf(second) == Some(BY_TEXT);
    assert RoutesOf([first]) == [BY_NAME];
  }

  lemma {:induction false} PlainParts(parts: seq<string>)
    requires forall i :: 0 <= i < |parts| ==> '%' !in parts[i]
    ensures DecodedAll(parts) == Some(parts)
  {
    hide DecodedSegment;
    if parts != [] {
      var front, last := parts[..|parts| - 1], parts[|parts| - 1];
      PlainParts(front);
      PlainSegment(last);
      assert front + [last] == parts;
    }
  }

  lemma TwoParts()
    ensures DecodedParts("/y/x") == Some(["y", "x"])
  {
    hide DecodedAll;
    assert "/y/x"[1..] == "y/x" && "y/x"[1..] == "/x" && "/x"[1..] == "x" && "x"[1..] == "";
    assert "" + ['y'] == "y" && "" + ['x'] == "x";
    assert PartsOf("x", "") == ["x"];
    assert PartsOf("/x", "y") == ["y", "x"];
    assert PartsOf("/y/x", "") == ["y", "x"];
    PlainParts(["y", "x"]);
  }

  /** The static part at depth 1 does not win: the names at depth 0 have decided. */
  lemma NameMayDecideFirst()
    ensures RoutesOf(TWO_FILES) == [BY_NAME, BY_TEXT] && Distinct(RoutesOf(TWO_FILES))
    ensures DecodedParts("/y/x") == Some(["y", "x"])
    ensures Matches(BY_NAME, ["y", "x"]) && Matches(BY_TEXT, ["y", "x"])
    ensures KindsPartAt(BY_TEXT, BY_NAME, 1) && !StaticFirst(BY_TEXT, BY_NAME, 1)
  {
    hide RoutesOf, DecodedParts, StaticFirst;
    TwoRoutes();
    TwoParts();
    assert WinsAt(BY_NAME, BY_TEXT, 0);
    WinnerDecides(BY_TEXT, BY_NAME, 1, 0);
  }

  /** Scanning those files and asking for `/y/x` gives the route with two parameters. */
  method AskTwoFiles() returns (r: Option<(Route, map<string, string>)>)
    ensures r == Some((BY_NAME, map["a" := "y", "z" := "x"]))
  {
    hide RoutesOf, DecodedParts, Matches, StaticFirst, SortRoutes, IsTable, WinsAt, ParamsOf;
    NameMayDecideFirst();
    var table := Scan(TWO_FILES);
    ScanMakesTable(TWO_FILES);
    OnlyTwo(table.value);
    r := MatchPath(table.value, "/y/x");
    ByNameWins();
  }

  lemma OnlyTwo(table: seq<Route>)
    requires multiset(table) == multiset([BY_NAME, BY_TEXT])
    ensures BY_NAME in table && BY_TEXT in table && forall r :: r in table ==> r == BY_NAME || r == BY_TEXT
  {
    assert BY_NAME in multiset(table) && BY_TEXT in multiset(table);
    forall r | r in table
      ensures r == BY_NAME || r == BY_TEXT
    {
      assert r in multiset(table);
    }
  }

  lemma ByNameWins()
    ensures forall d :: !WinsAt(BY_TEXT, BY_NAME, d)
    ensures ParamsOf(BY_NAME.segments, ["y", "x"]) == map["a" := "y", "z" := "x"]
  {
    assert WinsAt(BY_NAME, BY_TEXT, 0);
    forall d
      ensures !WinsAt(BY_TEXT, BY_NAME, d)
    {
      OneWinner(BY_NAME, BY_TEXT, 0, d);
    }
    var parts := ["y", "x"];
    assert BY_NAME.segments[..1] == [Param("a")] && parts[..1] == ["y"];
    assert ParamsOf([Param("a")], ["y"]) == map["a" := "y"];
  }
}
