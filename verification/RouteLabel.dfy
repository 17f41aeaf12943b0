// The label a request is counted under: the prefix its routers consumed, recovered from the concrete
// path, followed by the template of the route inside them.
module RouteLabel {
  import opened Common

  const UNMATCHED: string := "<unmatched>"

  // ---------------------------------------------------------------- split and join

  function Split(s: string): (parts: seq<string>)
    ensures parts != []
  {
    if s == "" then [""]
    else if s[0] == '/' then [""] + Split(s[1..])
    else [[s[0]] + Split(s[1..])[0]] + Split(s[1..])[1..]
  }

  function Join(parts: seq<string>): string {
    if parts == [] then ""
    else if |parts| == 1 then parts[0]
    else parts[0] + "/" + Join(parts[1..])
  }

  function Slashes(s: string): nat {
    if s == "" then 0 else (if s[0] == '/' then 1 else 0) + Slashes(s[1..])
  }

  lemma {:induction false} SplitCounts(s: string)
    ensures |Split(s)| == Slashes(s) + 1
    ensures forall i :: 0 <= i < |Split(s)| ==> Slashes(Split(s)[i]) == 0
  {
    if s != "" {
      SplitCounts(s[1..]);
      var head := Split(s[1..])[0];
      assert ([s[0]] + head)[1..] == head;
    }
  }

  lemma {:induction false} SplitConcat(a: string, b: string)
    ensures Split(a + "/" + b) == Split(a) + Split(b)
  {
    var whole := a + "/" + b;
    if a == "" {
      assert whole == "/" + b && whole[1..] == b;
    } else {
      assert whole[1..] == a[1..] + "/" + b;
      SplitConcat(a[1..], b);
    }
  }

  lemma {:induction false} JoinConcat(a: seq<string>, b: seq<string>)
    requires a != [] && b != []
    ensures Join(a + b) == Join(a) + "/" + Join(b)
  {
    if |a| == 1 {
      assert (a + b)[1..] == b;
    } else {
      assert (a + b)[1..] == a[1..] + b;
      JoinConcat(a[1..], b);
    }
  }

  lemma {:induction false} JoinInvertsSplit(s: string)
    ensures Join(Split(s)) == s
  {
    if s != "" {
      JoinInvertsSplit(s[1..]);
      var rest := Split(s[1..]);
      if s[0] == '/' {
        assert ([""] + rest)[1..] == rest;
      } else {
        var parts := [[s[0]] + rest[0]] + rest[1..];
        assert parts[1..] == rest[1..];
      }
    }
  }

  lemma {:induction false} SlashesConcat(a: string, b: string)
    ensures Slashes(a + b) == Slashes(a) + Slashes(b)
  {
    if a == "" {
      assert a + b == b;
    } else {
      assert (a + b)[1..] == a[1..] + b;
      SlashesConcat(a[1..], b);
    }
  }

  lemma {:induction false} JoinCounts(parts: seq<string>)
    requires parts != [] && forall i :: 0 <= i < |parts| ==> Slashes(parts[i]) == 0
    ensures Slashes(Join(parts)) == |parts| - 1
  {
    if |parts| > 1 {
      JoinCounts(parts[1..]);
      SlashesConcat(parts[0] + "/", Join(parts[1..]));
      SlashesConcat(parts[0], "/");
    }
  }

  // ---------------------------------------------------------------- the label

  function Tail(template: string): seq<string> {
    Split(template)[1..]
  }

  // `template` is the matched route's path_format and `path` the scope's path, where they are strings.
  function RouteTemplate(template: Option<string>, path: Option<string>): string {
    if template.None? then UNMATCHED
    else if path.None? then template.value
    else
      var tail := Tail(template.value);
      var segments := Split(path.value);
      var head := if tail == [] then [] else segments[..Max(|segments| - |tail|, 0)];
      if |head| + |tail| != |segments| then template.value else Join(head + tail)
  }

  // Without a matched route there is no label, without a path only the template, and a template that
  // does not fit into its path stands alone.
  lemma Fallbacks(template: string, path: Option<string>)
    ensures RouteTemplate(None, path) == "<unmatched>"
    ensures RouteTemplate(Some(template), None) == template
    ensures path.Some? && Slashes(path.value) + 1 < Slashes(template) ==>
              RouteTemplate(Some(template), path) == template
    ensures path.Some? && Slashes(template) == 0 ==> RouteTemplate(Some(template), path) == template
  {
    SplitCounts(template);
    if path.Some? {
      SplitCounts(path.value);
    }
  }

  // ---------------------------------------------------------------- routes

  // A route as it was declared: literal text, parameters that span one segment, and parameters of the
  // path converter, which may span several.
  datatype Piece = Lit(text: string) | Param(name: string) | PathParam(name: string)

  predicate WellFormed(route: seq<Piece>) {
    && route != [] && route[0].Lit? && route[0].text != "" && route[0].text[0] == '/'
    && forall i :: 0 <= i < |route| ==> !route[i].Lit? ==> Slashes(route[i].name) == 0
  }

  function Shown(p: Piece): string {
    if p.Lit? then p.text else "{" + p.name + "}"
  }

  function Filled(p: Piece, value: string): string {
    if p.Lit? then p.text else value
  }

  // The template, and the path that fills it with one value for each piece.
  function Template(route: seq<Piece>): string {
    if route == [] then "" else Template(route[..|route| - 1]) + Shown(route[|route| - 1])
  }

  function Path(route: seq<Piece>, values: seq<string>): string
    requires |values| == |route|
  {
    if route == [] then ""
    else Path(route[..|route| - 1], values[..|route| - 1]) + Filled(route[|route| - 1], values[|route| - 1])
  }

  predicate Matches(route: seq<Piece>, values: seq<string>) {
    && |values| == |route|
    && forall i :: 0 <= i < |route| ==> route[i].Param? ==> values[i] != "" && Slashes(values[i]) == 0
  }

  // How many segments the values add to those of the template.
  function Extra(route: seq<Piece>, values: seq<string>): nat
    requires |values| == |route|
  {
    if route == [] then 0
    else Extra(route[..|route| - 1], values[..|route| - 1])
         + if route[|route| - 1].PathParam? then Slashes(values[|route| - 1]) else 0
  }

  predicate NoNames(route: seq<Piece>) {
    forall i :: 0 <= i < |route| ==> !route[i].Lit? ==> Slashes(route[i].name) == 0
  }

  lemma {:induction false} PathCounts(route: seq<Piece>, values: seq<string>)
    requires Matches(route, values) && NoNames(route)
    ensures Slashes(Path(route, values)) == Slashes(Template(route)) + Extra(route, values)
  {
    if route != [] {
      var n := |route| - 1;
      PathCounts(route[..n], values[..n]);
      SlashesConcat(Path(route[..n], values[..n]), Filled(route[n], values[n]));
      SlashesConcat(Template(route[..n]), Shown(route[n]));
      if !route[n].Lit? {
        ShownCounts(route[n].name);
      }
    }
  }

  lemma ShownCounts(name: string)
    requires Slashes(name) == 0
    ensures Slashes("{" + name + "}") == 0
  {
    SlashesConcat("{" + name, "}");
    SlashesConcat("{", name);
  }

  lemma {:induction false} StartsWithSlash(route: seq<Piece>, values: seq<string>)
    requires WellFormed(route) && |values| == |route|
    ensures Template(route) != "" && Template(route)[0] == '/'
    ensures Path(route, values) != "" && Path(route, values)[0] == '/'
  {
    if |route| > 1 {
      StartsWithSlash(route[..|route| - 1], values[..|route| - 1]);
    } else {
      assert route[..0] == [] && values[..0] == [];
    }
  }

  // ---------------------------------------------------------------- what the label is

  lemma SegmentsAfter(prefix: string, s: string)
    requires s != "" && s[0] == '/'
    ensures Split(prefix + s) == Split(prefix) + Split(s[1..])
  {
    assert prefix + s == prefix + "/" + s[1..];
    SplitConcat(prefix, s[1..]);
  }

  // The first n segments of a path.
  function Lead(path: string, n: nat): string
    requires n <= |Split(path)|
  {
    Join(Split(path)[..n])
  }

  lemma LeadCounts(path: string, n: nat)
    requires 0 < n <= |Split(path)|
    ensures Slashes(Lead(path, n)) == n - 1
  {
    SplitCounts(path);
    JoinCounts(Split(path)[..n]);
  }

  lemma TailCounts(template: string)
    requires template != "" && template[0] == '/'
    ensures |Tail(template)| == Slashes(template) && template == "/" + Join(Tail(template))
  {
    SplitCounts(template[1..]);
    JoinInvertsSplit(template[1..]);
    assert Tail(template) == Split(template[1..]);
  }

  // The label is whatever precedes as many segments as the template has.
  lemma LabelOf(path: string, template: string, n: nat)
    requires template != "" && template[0] == '/' && 0 < n && |Split(path)| == n + Slashes(template)
    ensures RouteTemplate(Some(template), Some(path)) == Lead(path, n) + template
  {
    TailCounts(template);
    LabelJoins(path, template, n);
    JoinConcat(Split(path)[..n], Tail(template));
    Regroup(Lead(path, n), "/", Join(Tail(template)));
  }

  lemma LabelJoins(path: string, template: string, n: nat)
    requires Tail(template) != [] && 0 < n && |Split(path)| == n + |Tail(template)|
    ensures RouteTemplate(Some(template), Some(path)) == Join(Split(path)[..n] + Tail(template))
  {
  }

  lemma Regroup(a: string, b: string, c: string)
    ensures a + b + c == a + (b + c)
  {
  }

  lemma SegmentsCount(prefix: string, rest: string)
    ensures |Split(prefix + rest)| == Slashes(prefix) + Slashes(rest) + 1
  {
    SplitCounts(prefix + rest);
    SlashesConcat(prefix, rest);
  }

  // As many segments of the path as the prefix has are the prefix.
  lemma LeadIsPrefix(prefix: string, rest: string, path: string)
    requires rest != "" && rest[0] == '/' && path == prefix + rest
    ensures Slashes(prefix) + 1 <= |Split(path)| && Lead(path, Slashes(prefix) + 1) == prefix
  {
    SegmentsAfter(prefix, rest);
    SplitCounts(prefix);
    FirstPart(Split(path), Split(prefix), Split(rest[1..]));
    JoinInvertsSplit(prefix);
  }

  lemma FirstPart(whole: seq<string>, a: seq<string>, b: seq<string>)
    requires whole == a + b
    ensures whole[..|a|] == a
  {
  }

  lemma NothingBefore(a: string, end: string)
    ensures a + end == end <==> a == ""
  {
  }

  lemma SameEnd(a: string, b: string, end: string)
    ensures a + end == b + end <==> a == b
  {
    if a + end == b + end {
      assert a == (a + end)[..|a|] == (b + end)[..|b|] == b;
    }
  }

  lemma LabelOver(prefix: string, template: string, rest: string, extra: nat)
    requires template != "" && template[0] == '/' && rest != "" && rest[0] == '/'
    requires Slashes(rest) == Slashes(template) + extra
    ensures var path, n := prefix + rest, Slashes(prefix) + 1 + extra;
            var counted := RouteTemplate(Some(template), Some(path));
            && n <= |Split(path)| && counted == Lead(path, n) + template
            && (counted == prefix + template <==> extra == 0)
            && (extra > 0 ==> counted != template)
  {
    LeadIsPrefix(prefix, rest, prefix + rest);
    SegmentsCount(prefix, rest);
    var path, n := prefix + rest, Slashes(prefix) + 1 + extra;
    LeadCounts(path, n);
    LabelOf(path, template, n);
    SameEnd(Lead(path, n), prefix, template);
    NothingBefore(Lead(path, n), template);
  }

  // Every request of a route is counted under the prefix and the template of that route exactly when
  // no value spans more than one segment. In every other case the label is neither that nor the bare
  // template the code means to fall back on: it has taken in segments of the concrete path.
  lemma LabelIsPrefixAndTemplate(prefix: string, route: seq<Piece>, values: seq<string>, template: string,
                                 rest: string, extra: nat)
    requires WellFormed(route) && Matches(route, values)
    requires template == Template(route) && rest == Path(route, values) && extra == Extra(route, values)
    ensures var path, n := prefix + rest, Slashes(prefix) + 1 + extra;
            var counted := RouteTemplate(Some(template), Some(path));
            && n <= |Split(path)| && counted == Lead(path, n) + template
            && (counted == prefix + template <==> extra == 0)
            && (extra > 0 ==> counted != template)
  {
    PathCounts(route, values);
    StartsWithSlash(route, values);
    LabelOver(prefix, template, rest, extra);
  }

  lemma {:induction false} OneSegmentParametersAddNothing(route: seq<Piece>, values: seq<string>)
    requires |values| == |route| && forall i :: 0 <= i < |route| ==> !route[i].PathParam?
    ensures Extra(route, values) == 0
  {
    if route != [] {
      OneSegmentParametersAddNothing(route[..|route| - 1], values[..|route| - 1]);
    }
  }

  // Two requests of one route without path converters, whatever values they carry, are one time
  // series, named by the prefix and the template.
  lemma LabelIgnoresTheValues(prefix: string, route: seq<Piece>, a: seq<string>, b: seq<string>,
                              template: string, atA: string, atB: string)
    requires WellFormed(route) && Matches(route, a) && Matches(route, b)
    requires forall i :: 0 <= i < |route| ==> !route[i].PathParam?
    requires template == Template(route) && atA == Path(route, a) && atB == Path(route, b)
    ensures RouteTemplate(Some(template), Some(prefix + atA))
            == RouteTemplate(Some(template), Some(prefix + atB))
            == prefix + template
  {
    OneSegmentParametersAddNothing(route, a);
    OneSegmentParametersAddNothing(route, b);
    LabelIsPrefixAndTemplate(prefix, route, a, template, atA, 0);
    LabelIsPrefixAndTemplate(prefix, route, b, template, atB, 0);
  }
}
