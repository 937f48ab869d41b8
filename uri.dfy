/** Deep links of the form `temporal://tui/namespaces/<ns>/<route>?<query>`:
    the parser, the formatter and the query-string codec of `src/nav/uri.rs`. */
module Uri {
  import opened Wrappers
  import opened Text
  import opened Location
  import opened Percent

  datatype UriError =
    | InvalidScheme
    | InvalidAuthority
    | MissingNamespace
    | InvalidPath
    | UnsupportedRoute

  /** The decoded query parameters (`HashMap<String, String>`). */
  type Params = map<string, string>

  /** `HashMap::get(key).cloned()` */
  function Get(params: Params, key: string): Option<string> {
    if key in params then Some(params[key]) else None
  }

  // ---------------------------------------------------------------- query string

  /** The still-encoded key and value of one `k=v` pair; a pair without `=`
      is a key with an empty value. */
  function PairParts(pair: string): (r: (string, string))
    ensures '=' !in pair ==> r == (pair, [])
    ensures '=' in pair ==> pair == r.0 + "=" + r.1 && '=' !in r.0
  {
    match SplitOnce(pair, '=')
    case None => (pair, [])
    case Some((k, v)) => (k, v)
  }

  function PairKey(pair: string): string {
    Decode(PairParts(pair).0, true)
  }

  function PairValue(pair: string): string {
    Decode(PairParts(pair).1, true)
  }

  /** The map `parse_query` builds from the `&`-separated pairs, in order:
      empty pairs are skipped and a later pair overwrites an earlier one
      with the same key. */
  function PairsToParams(pairs: seq<string>): Params
    decreases |pairs|
  {
    if pairs == [] then map[]
    else
      var params := PairsToParams(pairs[..|pairs| - 1]);
      var pair := pairs[|pairs| - 1];
      if pair == [] then params else params[PairKey(pair) := PairValue(pair)]
  }

  /** What `parse_query(query)` returns. */
  function QueryParams(query: Option<string>): Params {
    match query
    case None => map[]
    case Some(q) => PairsToParams(Split(q, '&'))
  }

  lemma PairsToParamsStep(pairs: seq<string>, i: nat)
    requires i < |pairs|
    ensures PairsToParams(pairs[..i + 1]) ==
      if pairs[i] == [] then PairsToParams(pairs[..i])
      else PairsToParams(pairs[..i])[PairKey(pairs[i]) := PairValue(pairs[i])]
  {
    assert pairs[..i + 1][..i] == pairs[..i];
  }

  /** A key is present exactly when some non-empty pair carries it. */
  lemma {:induction false} KeyPresent(pairs: seq<string>, key: string)
    ensures key in PairsToParams(pairs) <==>
      exists i :: 0 <= i < |pairs| && pairs[i] != [] && PairKey(pairs[i]) == key
    decreases |pairs|
  {
    if pairs != [] {
      var n := |pairs| - 1;
      PairsToParamsStep(pairs, n);
      assert pairs[..n + 1] == pairs;
      var init := pairs[..n];
      KeyPresent(init, key);
      if key in PairsToParams(pairs) {
        if pairs[n] == [] || PairKey(pairs[n]) != key {
          var i :| 0 <= i < |init| && init[i] != [] && PairKey(init[i]) == key;
          assert pairs[i] == init[i];
        }
      } else {
        forall i | 0 <= i < |pairs| && pairs[i] != [] ensures PairKey(pairs[i]) != key {
          if i < n { assert init[i] == pairs[i]; }
        }
      }
    }
  }

  /** A present key holds the value of the last non-empty pair that carries it. */
  lemma {:induction false} LastPairWins(pairs: seq<string>, i: nat)
    requires i < |pairs| && pairs[i] != []
    requires forall j :: i < j < |pairs| && pairs[j] != [] ==> PairKey(pairs[j]) != PairKey(pairs[i])
    ensures PairKey(pairs[i]) in PairsToParams(pairs)
    ensures PairsToParams(pairs)[PairKey(pairs[i])] == PairValue(pairs[i])
    decreases |pairs|
  {
    var n := |pairs| - 1;
    PairsToParamsStep(pairs, n);
    assert pairs[..n + 1] == pairs;
    if i < n {
      assert pairs[..n][i] == pairs[i];
      assert forall j :: i < j < n ==> pairs[..n][j] == pairs[j];
      LastPairWins(pairs[..n], i);
    }
  }

  /** `parse_query`: the loop over the `&`-separated pairs. */
  method ParseQuery(query: Option<string>) returns (params: Params)
    ensures params == QueryParams(query)
  {
    params := map[];
    if query.None? {
      return;
    }
    var pairs := Split(query.value, '&');
    for i := 0 to |pairs|
      invariant params == PairsToParams(pairs[..i])
    {
      PairsToParamsStep(pairs, i);
      var pair := pairs[i];
      if pair != [] {
        var (k, v) := PairParts(pair);
        var key := PercentDecodeInner(k, true);
        var value := PercentDecodeInner(v, true);
        params := params[key := value];
      }
    }
    assert pairs[..|pairs|] == pairs;
  }

  // ---------------------------------------------------------------- parsing

  /** `filter(|s| !s.is_empty())` */
  function NonEmpty(parts: seq<string>): (r: seq<string>)
    ensures forall i :: 0 <= i < |r| ==> r[i] != []
  {
    if parts == [] then []
    else (if parts[0] == [] then [] else [parts[0]]) + NonEmpty(parts[1..])
  }

  function DecodeSegments(parts: seq<string>): (r: seq<string>)
    ensures |r| == |parts|
    ensures forall i :: 0 <= i < |parts| ==> r[i] == Decode(parts[i], false)
  {
    seq(|parts|, i requires 0 <= i < |parts| => Decode(parts[i], false))
  }

  /** The decoded, non-empty `/`-separated pieces of a path. */
  function PathSegments(path: string): (r: seq<string>)
    ensures forall i :: 0 <= i < |r| ==> r[i] != []
  {
    DecodeSegments(NonEmpty(Split(path, '/')))
  }

  /** `parse_workflows_route`: the pieces after `workflows`. */
  function ParseWorkflowsRoute(segments: seq<string>, params: Params): (r: Result<seq<RouteSegment>, UriError>)
    ensures r.Ok? ==> |r.value| == 1 && r.value[0].Workflows?
    ensures r.Err? ==> r.error == UnsupportedRoute
  {
    if segments == [] then Ok([Workflows(WorkflowCollection(Get(params, "q")))])
    else if |segments| == 1 then
      Ok([Workflows(WorkflowDetail(segments[0], Get(params, "run_id"), Get(params, "tab")))])
    else if segments[1] == "activities" then
      Ok([Workflows(WorkflowActivities(segments[0], if |segments| > 2 then Some(segments[2]) else None))])
    else Err(UnsupportedRoute)
  }

  /** `parse_schedules_route`: the pieces after `schedules`. */
  function ParseSchedulesRoute(segments: seq<string>, params: Params): (r: Result<seq<RouteSegment>, UriError>)
    ensures r.Ok? ==> |r.value| == 1 && r.value[0].Schedules?
    ensures r.Err? ==> r.error == UnsupportedRoute
  {
    if segments == [] then Ok([Schedules(ScheduleCollection(Get(params, "q")))])
    else if |segments| == 1 then Ok([Schedules(ScheduleDetail(segments[0]))])
    else if |segments| == 2 && segments[1] == "workflows" then
      Ok([Schedules(ScheduleWorkflows(segments[0], Get(params, "q")))])
    else Err(UnsupportedRoute)
  }

  /** `parse_route`: the pieces after the namespace. */
  function ParseRoute(segments: seq<string>, params: Params): (r: Result<seq<RouteSegment>, UriError>)
    ensures r.Ok? ==> |r.value| == 1
    ensures r.Err? ==> r.error in {InvalidPath, UnsupportedRoute}
    ensures r == Err(InvalidPath) <==> segments == []
  {
    if segments == [] then Err(InvalidPath)
    else if segments[0] == "workflows" then ParseWorkflowsRoute(segments[1..], params)
    else if segments[0] == "schedules" then ParseSchedulesRoute(segments[1..], params)
    else Err(UnsupportedRoute)
  }

  /** The part of `parse_deep_link` after the path has been cut into pieces. */
  function LocationFrom(segments: seq<string>, params: Params): (r: Result<Location, UriError>)
    ensures r.Ok? ==> |segments| >= 2 && r.value.namespace == segments[1] && |r.value.segments| == 1
    ensures r == Err(MissingNamespace) <==> |segments| < 2 || segments[0] != "namespaces"
  {
    if |segments| < 2 || segments[0] != "namespaces" then Err(MissingNamespace)
    else
      match ParseRoute(segments[2..], params)
      case Err(e) => Err(e)
      case Ok(route) => Ok(Location(segments[1], route))
  }

  /** The authority and the `/`-prefixed rest after `scheme://`. */
  function SplitAuthority(rest: string): (string, string) {
    match SplitOnce(rest, '/')
    case Some((auth, remainder)) => (auth, "/" + remainder)
    case None => (rest, "/")
  }

  function SplitQuery(pathAndQuery: string): (string, Option<string>) {
    match SplitOnce(pathAndQuery, '?')
    case Some((p, q)) => (p, Some(q))
    case None => (pathAndQuery, None)
  }

  /** `parse_deep_link`: a parsed link has exactly one route segment and a
      non-empty namespace. */
  function ParseDeepLink(input: string): (r: Result<Location, UriError>)
    ensures r.Ok? ==> |r.value.segments| == 1 && r.value.namespace != []
  {
    match SplitOnceStr(input, "://")
    case None => Err(InvalidScheme)
    case Some((scheme, rest)) =>
      if scheme != "temporal" then Err(InvalidScheme)
      else
        var (authority, pathAndQuery) := SplitAuthority(rest);
        if authority != "tui" then Err(InvalidAuthority)
        else
          var (path, query) := SplitQuery(pathAndQuery);
          LocationFrom(PathSegments(path), QueryParams(query))
  }

  // ---------------------------------------------------------------- formatting

  /** What `format_workflows_route` appends. */
  function WorkflowsPath(route: WorkflowsRoute): string {
    match route
    case WorkflowCollection(_) => "/workflows"
    case WorkflowDetail(id, _, _) => "/workflows/" + Encode(id)
    case WorkflowActivities(id, act) => "/workflows/" + Encode(id) + "/activities" + ActivityPath(act)
  }

  function ActivityPath(act: Option<string>): string {
    match act
    case None => []
    case Some(a) => "/" + Encode(a)
  }

  /** What `format_schedules_route` appends. */
  function SchedulesPath(route: SchedulesRoute): string {
    match route
    case ScheduleCollection(_) => "/schedules"
    case ScheduleDetail(id) => "/schedules/" + Encode(id)
    case ScheduleWorkflows(id, _) => "/schedules/" + Encode(id) + "/workflows"
  }

  function SegmentPath(seg: RouteSegment): string {
    match seg
    case Workflows(route) => WorkflowsPath(route)
    case Schedules(route) => SchedulesPath(route)
  }

  function SegmentsPath(segs: seq<RouteSegment>): string
    decreases |segs|
  {
    if segs == [] then [] else SegmentsPath(segs[..|segs| - 1]) + SegmentPath(segs[|segs| - 1])
  }

  function LinkPath(loc: Location): string {
    "/namespaces/" + Encode(loc.namespace) + SegmentsPath(loc.segments)
  }

  function OptPair(key: string, value: Option<string>): seq<(string, string)> {
    match value
    case None => []
    case Some(v) => [(key, v)]
  }

  /** The parameters one leaf segment contributes to the query. */
  function SegmentQueryPairs(seg: RouteSegment): seq<(string, string)> {
    match seg
    case Workflows(WorkflowCollection(q)) => OptPair("q", q)
    case Workflows(WorkflowDetail(_, run, tab)) => OptPair("run_id", run) + OptPair("tab", tab)
    case Schedules(ScheduleCollection(q)) => OptPair("q", q)
    case Schedules(ScheduleWorkflows(_, q)) => OptPair("q", q)
    case _ => []
  }

  /** The parameters `build_query` collects; only the leaf contributes. */
  function QueryPairs(loc: Location): seq<(string, string)> {
    match Leaf(loc)
    case None => []
    case Some(seg) => SegmentQueryPairs(seg)
  }

  function EncodePair(kv: (string, string)): string {
    Encode(kv.0) + "=" + Encode(kv.1)
  }

  function EncodePairs(kvs: seq<(string, string)>): (r: seq<string>)
    ensures |r| == |kvs|
    ensures forall i :: 0 <= i < |kvs| ==> r[i] == EncodePair(kvs[i])
  {
    seq(|kvs|, i requires 0 <= i < |kvs| => EncodePair(kvs[i]))
  }

  /** `build_query` */
  function BuildQuery(loc: Location): string {
    Join(EncodePairs(QueryPairs(loc)), '&')
  }

  function QueryOf(loc: Location): Option<string> {
    var q := BuildQuery(loc);
    if q == [] then None else Some(q)
  }

  function QuerySuffix(query: Option<string>): string {
    match query
    case None => []
    case Some(q) => "?" + q
  }

  /** What `format_deep_link(loc)` returns. */
  function DeepLink(loc: Location): string {
    "temporal://tui" + LinkPath(loc) + QuerySuffix(QueryOf(loc))
  }

  /** Segments before the leaf contribute nothing to the query. */
  lemma QueryFromLeafOnly(ns: string, prefix: seq<RouteSegment>, seg: RouteSegment)
    ensures QueryOf(Location(ns, prefix + [seg])) == QueryOf(Location(ns, [seg]))
  {
    LeafOfAppended(ns, prefix, seg);
    assert Leaf(Location(ns, [seg])) == Some(seg);
  }

  /** The link carries a `?` exactly when its leaf has a parameter to write. */
  lemma QueryPresent(loc: Location)
    ensures QueryOf(loc).Some? <==> QueryPairs(loc) != []
  {
    var parts := EncodePairs(QueryPairs(loc));
    if parts != [] {
      assert |parts[0]| >= 1 by {
        assert parts[0] == Encode(QueryPairs(loc)[0].0) + "=" + Encode(QueryPairs(loc)[0].1);
      }
      assert |Join(parts, '&')| >= |parts[0]|;
    }
  }

  /** Which parameters each leaf writes: `q` for the two collections and for a
      schedule's workflows, `run_id` before `tab` for a workflow, none for a
      schedule or an activities page. */
  lemma QueryByRoute(ns: string, seg: RouteSegment)
    ensures var pairs := QueryPairs(Location(ns, [seg]));
      (seg.Workflows? && seg.workflows.WorkflowDetail? ==>
         pairs == OptPair("run_id", seg.workflows.runId) + OptPair("tab", seg.workflows.tab)) &&
      (seg.Workflows? && seg.workflows.WorkflowCollection? ==> pairs == OptPair("q", seg.workflows.query)) &&
      (seg.Schedules? && seg.schedules.ScheduleCollection? ==> pairs == OptPair("q", seg.schedules.query)) &&
      (seg.Schedules? && seg.schedules.ScheduleWorkflows? ==> pairs == OptPair("q", seg.schedules.query)) &&
      ((seg.Workflows? && seg.workflows.WorkflowActivities?) || (seg.Schedules? && seg.schedules.ScheduleDetail?) ==>
         QueryOf(Location(ns, [seg])).None?)
  {
    QueryPresent(Location(ns, [seg]));
  }

  lemma SegmentsPathStep(segs: seq<RouteSegment>, i: nat)
    requires i < |segs|
    ensures SegmentsPath(segs[..i + 1]) == SegmentsPath(segs[..i]) + SegmentPath(segs[i])
  {
    assert segs[..i + 1][..i] == segs[..i];
  }

  /** `format_workflows_route`: appends one workflows segment to the path. */
  method FormatWorkflowsRoute(path: string, route: WorkflowsRoute) returns (out: string)
    ensures out == path + WorkflowsPath(route)
  {
    match route
    case WorkflowCollection(_) =>
      out := path + "/workflows";
    case WorkflowDetail(id, _, _) =>
      var e := PercentEncode(id);
      out := path + "/workflows/" + e;
    case WorkflowActivities(id, act) =>
      var e := PercentEncode(id);
      out := path + "/workflows/" + e + "/activities";
      ghost var x := "/workflows/" + e + "/activities";
      ConcatAssoc(path, "/workflows/", e);
      ConcatAssoc(path, "/workflows/" + e, "/activities");
      if act.Some? {
        var a := PercentEncode(act.value);
        ghost var before := out;
        out := out + "/" + a;
        ConcatAssoc(before, "/", a);
        ConcatAssoc(path, x, "/" + a);
      } else {
        assert x + [] == x;
      }
  }

  /** `format_schedules_route`: appends one schedules segment to the path. */
  method FormatSchedulesRoute(path: string, route: SchedulesRoute) returns (out: string)
    ensures out == path + SchedulesPath(route)
  {
    match route
    case ScheduleCollection(_) =>
      out := path + "/schedules";
    case ScheduleDetail(id) =>
      var e := PercentEncode(id);
      out := path + "/schedules/" + e;
    case ScheduleWorkflows(id, _) =>
      var e := PercentEncode(id);
      out := path + "/schedules/" + e + "/workflows";
      ConcatAssoc(path, "/schedules/", e);
      ConcatAssoc(path, "/schedules/" + e, "/workflows");
  }

  /** The `match` in the loop of `format_deep_link`. */
  method FormatSegment(path: string, seg: RouteSegment) returns (out: string)
    ensures out == path + SegmentPath(seg)
  {
    match seg
    case Workflows(route) =>
      out := FormatWorkflowsRoute(path, route);
    case Schedules(route) =>
      out := FormatSchedulesRoute(path, route);
  }

  /** `format_deep_link` */
  method FormatDeepLink(loc: Location) returns (uri: string)
    ensures uri == DeepLink(loc)
  {
    var ns := PercentEncode(loc.namespace);
    var path := "/namespaces/" + ns;
    ghost var prefix := path;
    var segs := loc.segments;
    for i := 0 to |segs|
      invariant path == prefix + SegmentsPath(segs[..i])
    {
      SegmentsPathStep(segs, i);
      ghost var before := SegmentsPath(segs[..i]);
      path := FormatSegment(path, segs[i]);
      ConcatAssoc(prefix, before, SegmentPath(segs[i]));
    }
    assert segs[..|segs|] == segs;
    assert path == LinkPath(loc);
    var query := BuildQuery(loc);
    if query == [] {
      uri := "temporal://tui" + path;
      assert QuerySuffix(QueryOf(loc)) == [];
    } else {
      uri := "temporal://tui" + path + "?" + query;
      assert QuerySuffix(QueryOf(loc)) == "?" + query;
    }
  }

  // ---------------------------------------------------------------- path pieces

  /** `/p0/p1/...`: the path with one `/` before each piece. */
  function Slashed(pieces: seq<string>): string
    decreases |pieces|
  {
    if pieces == [] then [] else "/" + pieces[0] + Slashed(pieces[1..])
  }

  lemma SlashedCons(p: string, rest: seq<string>)
    ensures Slashed([p] + rest) == "/" + p + Slashed(rest)
  {
    assert ([p] + rest)[1..] == rest;
  }

  lemma {:induction false} SlashedAppend(a: seq<string>, b: seq<string>)
    ensures Slashed(a + b) == Slashed(a) + Slashed(b)
    decreases |a|
  {
    if a == [] {
      assert a + b == b;
    } else {
      assert a + b == [a[0]] + (a[1..] + b);
      SlashedCons(a[0], a[1..] + b);
      SlashedAppend(a[1..], b);
    }
  }

  lemma {:induction false} SlashedExcludes(pieces: seq<string>, c: char)
    requires c != '/'
    requires forall i :: 0 <= i < |pieces| ==> c !in pieces[i]
    ensures c !in Slashed(pieces)
    decreases |pieces|
  {
    if pieces != [] {
      assert forall i :: 0 <= i < |pieces[1..]| ==> pieces[1..][i] == pieces[i + 1];
      SlashedExcludes(pieces[1..], c);
    }
  }

  /** A slashed path is the `/`-join of its pieces after a first one. */
  lemma {:induction false} JoinSlashed(first: string, pieces: seq<string>)
    ensures Join([first] + pieces, '/') == first + Slashed(pieces)
    decreases |pieces|
  {
    if pieces == [] {
      assert [first] + pieces == [first];
    } else {
      var rest := pieces[1..];
      assert ([first] + pieces)[1..] == [pieces[0]] + rest;
      JoinSlashed(pieces[0], rest);
      assert Slashed(pieces) == "/" + pieces[0] + Slashed(rest);
      ConcatAssoc(first, "/", pieces[0] + Slashed(rest));
    }
  }

  /** Splitting a slashed path on `/` gives back its pieces. */
  lemma SplitSlashed(first: string, pieces: seq<string>)
    requires '/' !in first
    requires forall i :: 0 <= i < |pieces| ==> '/' !in pieces[i]
    ensures Split(first + Slashed(pieces), '/') == [first] + pieces
  {
    JoinSlashed(first, pieces);
    var all := [first] + pieces;
    assert forall i :: 1 <= i < |all| ==> all[i] == pieces[i - 1];
    SplitJoin(all, '/');
  }

  lemma {:induction false} NonEmptyKeeps(pieces: seq<string>)
    requires forall i :: 0 <= i < |pieces| ==> pieces[i] != []
    ensures NonEmpty(pieces) == pieces
    decreases |pieces|
  {
    if pieces != [] {
      assert forall i :: 0 <= i < |pieces[1..]| ==> pieces[1..][i] == pieces[i + 1];
      NonEmptyKeeps(pieces[1..]);
    }
  }

  lemma {:induction false} NonEmptyAppend(a: seq<string>, b: seq<string>)
    ensures NonEmpty(a + b) == NonEmpty(a) + NonEmpty(b)
    decreases |a|
  {
    if a == [] {
      assert a + b == b;
    } else {
      assert (a + b)[1..] == a[1..] + b;
      NonEmptyAppend(a[1..], b);
    }
  }

  /** The path pieces `format_*_route` writes for a segment, before encoding. */
  function SegmentPieces(seg: RouteSegment): seq<string> {
    match seg
    case Workflows(WorkflowCollection(_)) => ["workflows"]
    case Workflows(WorkflowDetail(id, _, _)) => ["workflows", id]
    case Workflows(WorkflowActivities(id, act)) =>
      ["workflows", id, "activities"] + (match act case None => [] case Some(a) => [a])
    case Schedules(ScheduleCollection(_)) => ["schedules"]
    case Schedules(ScheduleDetail(id)) => ["schedules", id]
    case Schedules(ScheduleWorkflows(id, _)) => ["schedules", id, "workflows"]
  }

  /** The same pieces as written: the fixed words as they are, the ids encoded. */
  function EncodedPieces(seg: RouteSegment): seq<string> {
    match seg
    case Workflows(WorkflowCollection(_)) => ["workflows"]
    case Workflows(WorkflowDetail(id, _, _)) => ["workflows", Encode(id)]
    case Workflows(WorkflowActivities(id, act)) =>
      ["workflows", Encode(id), "activities"] + (match act case None => [] case Some(a) => [Encode(a)])
    case Schedules(ScheduleCollection(_)) => ["schedules"]
    case Schedules(ScheduleDetail(id)) => ["schedules", Encode(id)]
    case Schedules(ScheduleWorkflows(id, _)) => ["schedules", Encode(id), "workflows"]
  }

  lemma Slashed1(a: string)
    ensures Slashed([a]) == "/" + a
  {
    SlashedCons(a, []);
  }

  lemma Slashed2(a: string, b: string)
    ensures Slashed([a, b]) == "/" + a + "/" + b
  {
    Slashed1(b);
    assert [a, b] == [a] + [b];
    SlashedCons(a, [b]);
  }

  lemma Slashed3(a: string, b: string, c: string)
    ensures Slashed([a, b, c]) == ("/" + a + "/") + b + ("/" + c)
  {
    Slashed2(b, c);
    assert [a, b, c] == [a] + [b, c];
    SlashedCons(a, [b, c]);
  }

  lemma ActivitiesPathPieces(id: string, act: Option<string>)
    ensures SegmentPath(Workflows(WorkflowActivities(id, act)))
         == Slashed(EncodedPieces(Workflows(WorkflowActivities(id, act))))
  {
    var e := Encode(id);
    var head := ["workflows", e, "activities"];
    var tail := match act case None => [] case Some(a) => [Encode(a)];
    var tailPath := match act case None => [] case Some(a) => "/" + Encode(a);
    assert EncodedPieces(Workflows(WorkflowActivities(id, act))) == head + tail;
    assert SegmentPath(Workflows(WorkflowActivities(id, act))) == ("/workflows/" + e + "/activities") + tailPath;
    Slashed3("workflows", e, "activities");
    assert "/" + "workflows" + "/" == "/workflows/";
    assert "/" + "activities" == "/activities";
    assert "/workflows/" + e + "/activities" == Slashed(head);
    SlashedAppend(head, tail);
    if act.Some? {
      Slashed1(Encode(act.value));
    }
    assert Slashed(tail) == tailPath;
  }

  /** What `format_workflows_route` appends is the slashed list of its pieces. */
  lemma WorkflowsPathPieces(route: WorkflowsRoute)
    ensures SegmentPath(Workflows(route)) == Slashed(EncodedPieces(Workflows(route)))
  {
    match route
    case WorkflowCollection(_) =>
      Slashed1("workflows");
    case WorkflowDetail(id, _, _) =>
      Slashed2("workflows", Encode(id));
    case WorkflowActivities(id, act) =>
      ActivitiesPathPieces(id, act);
  }

  /** What `format_schedules_route` appends is the slashed list of its pieces. */
  lemma SchedulesPathPieces(route: SchedulesRoute)
    ensures SegmentPath(Schedules(route)) == Slashed(EncodedPieces(Schedules(route)))
  {
    match route
    case ScheduleCollection(_) =>
      Slashed1("schedules");
    case ScheduleDetail(id) =>
      Slashed2("schedules", Encode(id));
    case ScheduleWorkflows(id, q) =>
      ScheduleWorkflowsPathPieces(id, q);
  }

  lemma ScheduleWorkflowsPathPieces(id: string, q: Option<string>)
    ensures SegmentPath(Schedules(ScheduleWorkflows(id, q)))
         == Slashed(EncodedPieces(Schedules(ScheduleWorkflows(id, q))))
  {
    var e := Encode(id);
    assert EncodedPieces(Schedules(ScheduleWorkflows(id, q))) == ["schedules", e, "workflows"];
    assert SegmentPath(Schedules(ScheduleWorkflows(id, q))) == "/schedules/" + e + "/workflows";
    Slashed3("schedules", e, "workflows");
    assert "/" + "schedules" + "/" == "/schedules/";
    assert "/" + "workflows" == "/workflows";
  }

  lemma SegmentPathPieces(seg: RouteSegment)
    ensures SegmentPath(seg) == Slashed(EncodedPieces(seg))
  {
    match seg
    case Workflows(route) => WorkflowsPathPieces(route);
    case Schedules(route) => SchedulesPathPieces(route);
  }

  lemma NamespacePath(ns: string)
    ensures Slashed(["namespaces", ns]) == "/namespaces/" + ns
  {
    Slashed2("namespaces", ns);
    assert "/" + "namespaces" + "/" == "/namespaces/";
  }

  lemma LinkPathPieces(loc: Location)
    requires |loc.segments| == 1
    ensures LinkPath(loc) == Slashed(["namespaces", Encode(loc.namespace)] + EncodedPieces(loc.segments[0]))
  {
    var seg := loc.segments[0];
    var ns := Encode(loc.namespace);
    assert loc.segments[..0] == [];
    assert SegmentsPath(loc.segments) == SegmentPath(seg);
    SegmentPathPieces(seg);
    NamespacePath(ns);
    SlashedAppend(["namespaces", ns], EncodedPieces(seg));
  }

  // ---------------------------------------------------------------- round trip

  predicate OptAscii(o: Option<string>) {
    o.None? || IsAscii(o.value)
  }

  predicate IdOk(id: string) {
    id != [] && IsAscii(id)
  }

  /** A segment a deep link carries exactly: its ids are non-empty, and its
      ids and query values are ASCII. */
  predicate SegmentLinkable(seg: RouteSegment) {
    match seg
    case Workflows(WorkflowCollection(q)) => OptAscii(q)
    case Workflows(WorkflowDetail(id, run, tab)) => IdOk(id) && OptAscii(run) && OptAscii(tab)
    case Workflows(WorkflowActivities(id, act)) => IdOk(id) && (act.None? || IdOk(act.value))
    case Schedules(ScheduleCollection(q)) => OptAscii(q)
    case Schedules(ScheduleDetail(id)) => IdOk(id)
    case Schedules(ScheduleWorkflows(id, q)) => IdOk(id) && OptAscii(q)
  }

  /** The locations the application writes into links: one segment (the
      formatter writes every segment but the parser keeps only one). */
  predicate Linkable(loc: Location) {
    |loc.segments| == 1 && IdOk(loc.namespace) && SegmentLinkable(loc.segments[0])
  }

  /** A piece of a written path that the parser reads back as `raw`. */
  predicate GoodPiece(written: string, raw: string) {
    written != [] && '/' !in written && '?' !in written && Decode(written, false) == raw
  }

  predicate GoodPieces(written: seq<string>, raw: seq<string>) {
    |written| == |raw| && forall i :: 0 <= i < |raw| ==> GoodPiece(written[i], raw[i])
  }

  lemma GoodPiecesAppend(w1: seq<string>, r1: seq<string>, w2: seq<string>, r2: seq<string>)
    requires GoodPieces(w1, r1) && GoodPieces(w2, r2)
    ensures GoodPieces(w1 + w2, r1 + r2)
  {
    assert forall i :: |r1| <= i < |r1| + |r2| ==> (w1 + w2)[i] == w2[i - |r1|] && (r1 + r2)[i] == r2[i - |r1|];
  }

  lemma IdPiece(id: string)
    requires IdOk(id)
    ensures GoodPiece(Encode(id), id)
  {
    EncodeWellEncoded(id);
    WellEncodedHasNoDelimiters(Encode(id));
    EncodeNonEmpty(id);
    DecodeEncodeAscii(id, false);
  }

  lemma WordPiece(w: string)
    requires w != [] && '/' !in w && '?' !in w && '%' !in w
    ensures GoodPiece(w, w)
  {
    DecodeLiteral(w, false);
  }

  // One lemma per word keeps each literal's check in a proof of its own.
  lemma NamespacesWord() ensures GoodPiece("namespaces", "namespaces") { WordPiece("namespaces"); }
  lemma WorkflowsWord() ensures GoodPiece("workflows", "workflows") { WordPiece("workflows"); }
  lemma SchedulesWord() ensures GoodPiece("schedules", "schedules") { WordPiece("schedules"); }
  lemma ActivitiesWord() ensures GoodPiece("activities", "activities") { WordPiece("activities"); }

  lemma ActivitiesPiecesGood(id: string, act: Option<string>)
    requires IdOk(id) && (act.None? || IdOk(act.value))
    ensures GoodPieces(EncodedPieces(Workflows(WorkflowActivities(id, act))), SegmentPieces(Workflows(WorkflowActivities(id, act))))
  {
    WorkflowsWord();
    ActivitiesWord();
    IdPiece(id);
    var head := ["workflows", Encode(id), "activities"];
    var rawHead := ["workflows", id, "activities"];
    assert GoodPieces(head, rawHead);
    match act {
      case None =>
        assert EncodedPieces(Workflows(WorkflowActivities(id, act))) == head;
        assert SegmentPieces(Workflows(WorkflowActivities(id, act))) == rawHead;
      case Some(a) =>
        IdPiece(a);
        GoodPiecesAppend(head, rawHead, [Encode(a)], [a]);
        assert EncodedPieces(Workflows(WorkflowActivities(id, act))) == head + [Encode(a)];
        assert SegmentPieces(Workflows(WorkflowActivities(id, act))) == rawHead + [a];
    }
  }

  lemma WorkflowsPiecesGood(route: WorkflowsRoute)
    requires SegmentLinkable(Workflows(route))
    ensures GoodPieces(EncodedPieces(Workflows(route)), SegmentPieces(Workflows(route)))
  {
    match route
    case WorkflowCollection(_) =>
      WorkflowsWord();
    case WorkflowDetail(id, _, _) =>
      WorkflowsWord();
      IdPiece(id);
    case WorkflowActivities(id, act) =>
      ActivitiesPiecesGood(id, act);
  }

  lemma SchedulesPiecesGood(route: SchedulesRoute)
    requires SegmentLinkable(Schedules(route))
    ensures GoodPieces(EncodedPieces(Schedules(route)), SegmentPieces(Schedules(route)))
  {
    SchedulesWord();
    match route
    case ScheduleCollection(_) =>
    case ScheduleDetail(id) =>
      IdPiece(id);
    case ScheduleWorkflows(id, _) =>
      WorkflowsWord();
      IdPiece(id);
  }

  /** A path written as good pieces is read back as the raw pieces. */
  lemma PiecesParse(written: seq<string>, raw: seq<string>)
    requires GoodPieces(written, raw)
    ensures PathSegments(Slashed(written)) == raw
    ensures '?' !in Slashed(written)
  {
    SplitSlashed([], written);
    assert [] + Slashed(written) == Slashed(written);
    var parts := [[]] + written;
    assert parts[1..] == written;
    assert NonEmpty(parts) == NonEmpty(written);
    NonEmptyKeeps(written);
    SlashedExcludes(written, '?');
  }

  lemma SchemeSplit(rest: string)
    ensures SplitOnceStr("temporal://" + rest, "://") == Some(("temporal", rest))
  {
    assert "temporal://" + rest == "temporal" + "://" + rest;
    SplitOnceStrFirst("temporal", "://", rest);
  }

  /** After the scheme, an authority `tui` followed by a path starting with
      `/` leaves the path and the query suffix. */
  lemma AuthoritySplit(path: string, suffix: string)
    requires path != [] && path[0] == '/'
    ensures SplitAuthority("tui" + path + suffix) == ("tui", path + suffix)
  {
    var rest := "tui" + path + suffix;
    assert rest == "tui" + ['/'] + (path[1..] + suffix);
    SplitOnceUnique("tui", '/', path[1..] + suffix);
    assert "/" + (path[1..] + suffix) == path + suffix;
  }

  lemma QuerySplit(path: string, query: Option<string>)
    requires '?' !in path
    ensures SplitQuery(path + QuerySuffix(query)) == (path, query)
  {
    match query
    case None =>
      assert path + QuerySuffix(query) == path;
    case Some(q) =>
      assert path + QuerySuffix(query) == path + ['?'] + q;
      SplitOnceUnique(path, '?', q);
  }

  /** Every link `temporal://tui<path><suffix>` whose path starts with `/`
      and holds no `?` is parsed from its path pieces and its query. */
  lemma ParseViaPath(path: string, query: Option<string>)
    requires path != [] && path[0] == '/' && '?' !in path
    ensures ParseDeepLink("temporal://tui" + path + QuerySuffix(query))
         == LocationFrom(PathSegments(path), QueryParams(query))
  {
    var suffix := QuerySuffix(query);
    var rest := "tui" + path + suffix;
    assert "temporal://tui" + path + suffix == "temporal://" + rest by {
      assert "temporal://tui" == "temporal://" + "tui";
      Regroup("temporal://", "tui", path, suffix);
    }
    SchemeSplit(rest);
    AuthoritySplit(path, suffix);
    QuerySplit(path, query);
    ParseSteps("temporal://" + rest, rest, path + suffix, path, query);
  }

  lemma Regroup(a: string, b: string, c: string, d: string)
    ensures (a + b) + c + d == a + (b + c + d)
  {
  }

  /** The three splits of `parse_deep_link`, one after the other. */
  lemma ParseSteps(input: string, rest: string, pathAndQuery: string, path: string, query: Option<string>)
    requires SplitOnceStr(input, "://") == Some(("temporal", rest))
    requires SplitAuthority(rest) == ("tui", pathAndQuery)
    requires SplitQuery(pathAndQuery) == (path, query)
    ensures ParseDeepLink(input) == LocationFrom(PathSegments(path), QueryParams(query))
  {
  }

  /** The map `parse_query` would build from already-decoded pairs. */
  function ParamsOfPairs(kvs: seq<(string, string)>): Params
    decreases |kvs|
  {
    if kvs == [] then map[]
    else ParamsOfPairs(kvs[..|kvs| - 1])[kvs[|kvs| - 1].0 := kvs[|kvs| - 1].1]
  }

  predicate AsciiPairs(kvs: seq<(string, string)>) {
    forall i :: 0 <= i < |kvs| ==> IsAscii(kvs[i].0) && IsAscii(kvs[i].1)
  }

  /** One pair written by `build_query` is read back by `parse_query`. */
  lemma EncodedPairRead(k: string, v: string)
    requires IsAscii(k) && IsAscii(v)
    ensures EncodePair((k, v)) != [] && '&' !in EncodePair((k, v))
    ensures PairKey(EncodePair((k, v))) == k && PairValue(EncodePair((k, v))) == v
  {
    EncodeWellEncoded(k);
    WellEncodedHasNoDelimiters(Encode(k));
    EncodeWellEncoded(v);
    WellEncodedHasNoDelimiters(Encode(v));
    SplitOnceUnique(Encode(k), '=', Encode(v));
    DecodeEncodeAscii(k, true);
    DecodeEncodeAscii(v, true);
  }

  lemma {:induction false} EncodedPairsRead(kvs: seq<(string, string)>)
    requires AsciiPairs(kvs)
    ensures PairsToParams(EncodePairs(kvs)) == ParamsOfPairs(kvs)
    decreases |kvs|
  {
    if kvs != [] {
      var n := |kvs| - 1;
      var enc := EncodePairs(kvs);
      assert enc[..n] == EncodePairs(kvs[..n]);
      assert forall i :: 0 <= i < n ==> kvs[..n][i] == kvs[i];
      EncodedPairsRead(kvs[..n]);
      EncodedPairRead(kvs[n].0, kvs[n].1);
    }
  }

  /** The query `format_deep_link` writes is parsed back into the pairs
      `build_query` collected. */
  lemma QueryRead(loc: Location)
    requires AsciiPairs(QueryPairs(loc))
    ensures QueryParams(QueryOf(loc)) == ParamsOfPairs(QueryPairs(loc))
  {
    var kvs := QueryPairs(loc);
    var enc := EncodePairs(kvs);
    if kvs != [] {
      forall i | 0 <= i < |enc| ensures enc[i] != [] && '&' !in enc[i] {
        EncodedPairRead(kvs[i].0, kvs[i].1);
      }
      assert BuildQuery(loc) != [];
      SplitJoin(enc, '&');
      EncodedPairsRead(kvs);
    }
  }

  lemma OptPairsGet(k1: string, o1: Option<string>, k2: string, o2: Option<string>)
    requires k1 != k2
    ensures Get(ParamsOfPairs(OptPair(k1, o1) + OptPair(k2, o2)), k1) == o1
    ensures Get(ParamsOfPairs(OptPair(k1, o1) + OptPair(k2, o2)), k2) == o2
  {
    var kvs := OptPair(k1, o1) + OptPair(k2, o2);
    if o2.Some? {
      assert kvs[..|kvs| - 1] == OptPair(k1, o1);
    } else {
      assert kvs == OptPair(k1, o1);
    }
    if o1.Some? {
      assert OptPair(k1, o1)[..0] == [];
    }
  }

  /** The route pieces and the query of one segment parse back to it. */
  lemma RouteRead(seg: RouteSegment)
    requires SegmentLinkable(seg)
    ensures ParseRoute(SegmentPieces(seg), ParamsOfPairs(SegmentQueryPairs(seg))) == Ok([seg])
  {
    match seg
    case Workflows(WorkflowCollection(q)) =>
      OptPairsGet("q", q, "run_id", None);
      assert OptPair("q", q) + OptPair("run_id", None) == OptPair("q", q);
    case Workflows(WorkflowDetail(id, run, tab)) =>
      OptPairsGet("run_id", run, "tab", tab);
    case Workflows(WorkflowActivities(id, act)) =>
    case Schedules(ScheduleCollection(q)) =>
      OptPairsGet("q", q, "run_id", None);
      assert OptPair("q", q) + OptPair("run_id", None) == OptPair("q", q);
    case Schedules(ScheduleDetail(id)) =>
    case Schedules(ScheduleWorkflows(id, q)) =>
      OptPairsGet("q", q, "run_id", None);
      assert OptPair("q", q) + OptPair("run_id", None) == OptPair("q", q);
  }

  /** The pieces of a one-segment link as written, and as meant. */
  function LinkWritten(loc: Location): seq<string>
    requires |loc.segments| == 1
  {
    ["namespaces", Encode(loc.namespace)] + EncodedPieces(loc.segments[0])
  }

  function LinkRaw(loc: Location): seq<string>
    requires |loc.segments| == 1
  {
    ["namespaces", loc.namespace] + SegmentPieces(loc.segments[0])
  }

  lemma NamespacePiecesGood(ns: string)
    requires IdOk(ns)
    ensures GoodPieces(["namespaces", Encode(ns)], ["namespaces", ns])
  {
    NamespacesWord();
    IdPiece(ns);
  }

  lemma LinkPiecesGood(loc: Location)
    requires Linkable(loc)
    ensures GoodPieces(LinkWritten(loc), LinkRaw(loc))
  {
    var seg := loc.segments[0];
    match seg {
      case Workflows(route) => WorkflowsPiecesGood(route);
      case Schedules(route) => SchedulesPiecesGood(route);
    }
    NamespacePiecesGood(loc.namespace);
    GoodPiecesAppend(["namespaces", Encode(loc.namespace)], ["namespaces", loc.namespace], EncodedPieces(seg), SegmentPieces(seg));
  }

  /** The path `format_deep_link` writes is read back as the raw pieces. */
  lemma PathRead(loc: Location)
    requires Linkable(loc)
    ensures LinkPath(loc) != [] && LinkPath(loc)[0] == '/' && '?' !in LinkPath(loc)
    ensures PathSegments(LinkPath(loc)) == LinkRaw(loc)
  {
    LinkPathPieces(loc);
    LinkPiecesGood(loc);
    PiecesParse(LinkWritten(loc), LinkRaw(loc));
    var w := LinkWritten(loc);
    assert Slashed(w) == "/" + w[0] + Slashed(w[1..]);
  }

  lemma OptPairAscii(k: string, o: Option<string>)
    requires IsAscii(k) && OptAscii(o)
    ensures AsciiPairs(OptPair(k, o))
  {
  }

  lemma SegmentPairsAscii(seg: RouteSegment)
    requires SegmentLinkable(seg)
    ensures AsciiPairs(SegmentQueryPairs(seg))
  {
    match seg
    case Workflows(WorkflowCollection(q)) =>
      OptPairAscii("q", q);
    case Workflows(WorkflowDetail(_, run, tab)) =>
      OptPairAscii("run_id", run);
      OptPairAscii("tab", tab);
      var a := OptPair("run_id", run);
      var b := OptPair("tab", tab);
      assert forall i :: |a| <= i < |a| + |b| ==> (a + b)[i] == b[i - |a|];
    case Workflows(WorkflowActivities(_, _)) =>
    case Schedules(ScheduleCollection(q)) =>
      OptPairAscii("q", q);
    case Schedules(ScheduleDetail(_)) =>
    case Schedules(ScheduleWorkflows(_, q)) =>
      OptPairAscii("q", q);
  }

  /** The pieces and parameters of a link rebuild its location. */
  lemma LocationRead(loc: Location)
    requires Linkable(loc)
    ensures LocationFrom(LinkRaw(loc), ParamsOfPairs(QueryPairs(loc))) == Ok(loc)
  {
    var seg := loc.segments[0];
    var raw := LinkRaw(loc);
    assert raw[0] == "namespaces" && raw[1] == loc.namespace;
    assert raw[2..] == SegmentPieces(seg);
    assert Leaf(loc) == Some(seg);
    RouteRead(seg);
    assert [seg] == loc.segments;
  }

  /** The round trip the deep links exist for: a location formatted as a
      link parses back to itself. */
  lemma RoundTrip(loc: Location)
    requires Linkable(loc)
    ensures ParseDeepLink(DeepLink(loc)) == Ok(loc)
  {
    var seg := loc.segments[0];
    PathRead(loc);
    ParseViaPath(LinkPath(loc), QueryOf(loc));
    assert Leaf(loc) == Some(seg);
    SegmentPairsAscii(seg);
    QueryRead(loc);
    LocationRead(loc);
  }

  lemma AsciiLiteral(s: string)
    requires forall i :: 0 <= i < |s| ==> s[i] as int < 128
    ensures IsAscii(s)
  {
  }

  /** The three round trips the module's own tests check. */
  lemma CollectionQueryRoundTrip()
    ensures var loc := Location("default", [Workflows(WorkflowCollection(Some("ExecutionStatus = 'Running'")))]);
      ParseDeepLink(DeepLink(loc)) == Ok(loc)
  {
    var loc := Location("default", [Workflows(WorkflowCollection(Some("ExecutionStatus = 'Running'")))]);
    AsciiLiteral("default");
    AsciiLiteral("ExecutionStatus = 'Running'");
    assert Linkable(loc);
    RoundTrip(loc);
  }

  lemma DetailRunIdRoundTrip()
    ensures var loc := Location("prod", [Workflows(WorkflowDetail("order-123", Some("run-abc"), Some("history")))]);
      ParseDeepLink(DeepLink(loc)) == Ok(loc)
  {
    var loc := Location("prod", [Workflows(WorkflowDetail("order-123", Some("run-abc"), Some("history")))]);
    AsciiLiteral("prod");
    AsciiLiteral("order-123");
    AsciiLiteral("run-abc");
    AsciiLiteral("history");
    assert Linkable(loc);
    RoundTrip(loc);
  }

  lemma ScheduleWorkflowsRoundTrip()
    ensures var loc := Location("default", [Schedules(ScheduleWorkflows("nightly-reconcile", Some("ExecutionStatus = 'Failed'")))]);
      ParseDeepLink(DeepLink(loc)) == Ok(loc)
  {
    var loc := Location("default", [Schedules(ScheduleWorkflows("nightly-reconcile", Some("ExecutionStatus = 'Failed'")))]);
    AsciiLiteral("default");
    AsciiLiteral("nightly-reconcile");
    AsciiLiteral("ExecutionStatus = 'Failed'");
    assert Linkable(loc);
    RoundTrip(loc);
  }

  // ---------------------------------------------------------------- errors and aliases

  /** A scheme other than `temporal` is refused. */
  lemma ForeignScheme(scheme: string, rest: string)
    requires ':' !in scheme && scheme != "temporal"
    ensures ParseDeepLink(scheme + "://" + rest) == Err(InvalidScheme)
  {
    SplitOnceStrFirst(scheme, "://", rest);
  }

  /** After `temporal://`, an authority other than `tui` is refused. */
  lemma ForeignAuthority(authority: string, path: string)
    requires '/' !in authority && authority != "tui"
    requires path == [] || path[0] == '/'
    ensures ParseDeepLink("temporal://" + authority + path) == Err(InvalidAuthority)
  {
    ConcatAssoc("temporal://", authority, path);
    SchemeSplit(authority + path);
    if path == [] {
      assert authority + path == authority;
    } else {
      assert authority + path == authority + ['/'] + path[1..];
      SplitOnceUnique(authority, '/', path[1..]);
    }
  }

  /** A piece written without escapes, read back as itself. */
  predicate PlainPiece(p: string) {
    GoodPiece(p, p)
  }

  predicate AllPlain(pieces: seq<string>) {
    forall i :: 0 <= i < |pieces| ==> PlainPiece(pieces[i])
  }

  // Sequence shapes stated generically, so that no literal piece enters the
  // extensionality proof.
  lemma Prepend2<T>(x: T, y: T, rest: seq<T>)
    ensures [x, y] + rest == [x] + ([y] + rest)
  {
  }

  lemma Prepend3<T>(x: T, y: T, z: T, rest: seq<T>)
    ensures [x, y, z] + rest == [x] + ([y] + ([z] + rest))
  {
  }

  lemma Prepend4<T>(x: T, y: T, z: T, u: T, rest: seq<T>)
    ensures [x, y, z, u] + rest == [x] + ([y] + ([z] + ([u] + rest)))
  {
  }

  lemma PairThen1<T>(x: T, y: T, z: T, rest: seq<T>)
    ensures [x, y] + ([z] + rest) == [x, y, z] + rest
  {
  }

  lemma PairThen3<T>(x: T, y: T, z: T, u: T, v: T, rest: seq<T>)
    ensures [x, y] + ([z, u, v] + rest) == [x, y, z, u, v] + rest
  {
  }

  lemma PairThen4<T>(x: T, y: T, z: T, u: T, v: T, w: T, rest: seq<T>)
    ensures [x, y] + ([z, u, v, w] + rest) == [x, y, z, u, v, w] + rest
  {
  }

  lemma AllPlainCons(p: string, rest: seq<string>)
    requires PlainPiece(p) && AllPlain(rest)
    ensures AllPlain([p] + rest)
  {
  }

  /** The pieces of a `/namespaces/<ns>/<route...>` path written without
      escapes. */
  lemma PlainPieces(ns: string, route: seq<string>)
    requires PlainPiece(ns)
    requires forall i :: 0 <= i < |route| ==> PlainPiece(route[i])
    ensures GoodPieces(["namespaces", ns] + route, ["namespaces", ns] + route)
  {
    NamespacesWord();
    assert GoodPieces(["namespaces", ns], ["namespaces", ns]);
    assert GoodPieces(route, route);
    GoodPiecesAppend(["namespaces", ns], ["namespaces", ns], route, route);
  }

  /** A link whose path is `/namespaces/<ns>/<route...>` written without
      escapes is parsed from exactly those pieces. */
  lemma PlainLink(ns: string, route: seq<string>, query: Option<string>)
    requires PlainPiece(ns)
    requires forall i :: 0 <= i < |route| ==> PlainPiece(route[i])
    ensures ParseDeepLink("temporal://tui" + Slashed(["namespaces", ns] + route) + QuerySuffix(query))
         == LocationFrom(["namespaces", ns] + route, QueryParams(query))
  {
    var pieces := ["namespaces", ns] + route;
    PlainPieces(ns, route);
    PiecesParse(pieces, pieces);
    SlashedCons("namespaces", pieces[1..]);
    assert [pieces[0]] + pieces[1..] == pieces;
    ParseViaPath(Slashed(pieces), query);
  }

  /** A namespace without a route is an invalid path. */
  lemma RouteRequired(ns: string, query: Option<string>)
    requires PlainPiece(ns)
    ensures ParseDeepLink("temporal://tui" + Slashed(["namespaces", ns]) + QuerySuffix(query)) == Err(InvalidPath)
  {
    PlainLink(ns, [], query);
    assert ["namespaces", ns] + [] == ["namespaces", ns];
  }

  lemma UnknownKindRoute(ns: string, kind: string, rest: seq<string>, params: Params)
    requires kind != "workflows" && kind != "schedules"
    ensures LocationFrom(["namespaces", ns, kind] + rest, params) == Err(UnsupportedRoute)
  {
    var segs := ["namespaces", ns, kind] + rest;
    assert segs[2..] == [kind] + rest;
  }

  /** A first route piece other than `workflows` or `schedules` is unsupported. */
  lemma UnknownKind(ns: string, kind: string, rest: seq<string>, query: Option<string>)
    requires PlainPiece(ns) && PlainPiece(kind)
    requires forall i :: 0 <= i < |rest| ==> PlainPiece(rest[i])
    requires kind != "workflows" && kind != "schedules"
    ensures ParseDeepLink("temporal://tui" + Slashed(["namespaces", ns, kind] + rest) + QuerySuffix(query))
         == Err(UnsupportedRoute)
  {
    var route := [kind] + rest;
    AllPlainCons(kind, rest);
    PairThen1("namespaces", ns, kind, rest);
    PlainLink(ns, route, query);
    UnknownKindRoute(ns, kind, rest, QueryParams(query));
  }

  lemma ActivityExtraRoute(ns: string, w: string, a: string, extra: seq<string>, params: Params)
    ensures LocationFrom(["namespaces", ns, "workflows", w, "activities", a] + extra, params)
         == Ok(Location(ns, [Workflows(WorkflowActivities(w, Some(a)))]))
  {
    var segs := ["namespaces", ns, "workflows", w, "activities", a] + extra;
    var route := ["workflows", w, "activities", a] + extra;
    assert segs[2..] == route;
    assert route[1..] == [w, "activities", a] + extra;
  }

  /** Pieces after `/activities/<id>` are ignored. */
  lemma ActivityExtraPiecesIgnored(ns: string, w: string, a: string, extra: seq<string>, query: Option<string>)
    requires PlainPiece(ns) && PlainPiece(w) && PlainPiece(a)
    requires forall i :: 0 <= i < |extra| ==> PlainPiece(extra[i])
    ensures ParseDeepLink("temporal://tui" + Slashed(["namespaces", ns, "workflows", w, "activities", a] + extra) + QuerySuffix(query))
         == Ok(Location(ns, [Workflows(WorkflowActivities(w, Some(a)))]))
  {
    WorkflowsWord();
    ActivitiesWord();
    var route := ["workflows", w, "activities", a] + extra;
    AllPlainCons(a, extra);
    AllPlainCons("activities", [a] + extra);
    AllPlainCons(w, ["activities"] + ([a] + extra));
    AllPlainCons("workflows", [w] + (["activities"] + ([a] + extra)));
    Prepend4("workflows", w, "activities", a, extra);
    PairThen4("namespaces", ns, "workflows", w, "activities", a, extra);
    PlainLink(ns, route, query);
    ActivityExtraRoute(ns, w, a, extra, QueryParams(query));
  }

  lemma ScheduleExtraRoute(ns: string, id: string, p: string, extra: seq<string>, params: Params)
    requires p != "workflows" || extra != []
    ensures LocationFrom(["namespaces", ns, "schedules", id, p] + extra, params) == Err(UnsupportedRoute)
  {
    var segs := ["namespaces", ns, "schedules", id, p] + extra;
    var route := ["schedules", id, p] + extra;
    assert segs[2..] == route;
    assert route[1..] == [id, p] + extra;
  }

  /** A schedule route may only be followed by `/workflows`. */
  lemma ScheduleExtraPiecesRefused(ns: string, id: string, p: string, extra: seq<string>, query: Option<string>)
    requires PlainPiece(ns) && PlainPiece(id) && PlainPiece(p)
    requires forall i :: 0 <= i < |extra| ==> PlainPiece(extra[i])
    requires p != "workflows" || extra != []
    ensures ParseDeepLink("temporal://tui" + Slashed(["namespaces", ns, "schedules", id, p] + extra) + QuerySuffix(query))
         == Err(UnsupportedRoute)
  {
    SchedulesWord();
    var route := ["schedules", id, p] + extra;
    AllPlainCons(p, extra);
    AllPlainCons(id, [p] + extra);
    AllPlainCons("schedules", [id] + ([p] + extra));
    Prepend3("schedules", id, p, extra);
    PairThen3("namespaces", ns, "schedules", id, p, extra);
    PlainLink(ns, route, query);
    ScheduleExtraRoute(ns, id, p, extra, QueryParams(query));
  }

  /** A path not starting with `/namespaces/<ns>` is refused. */
  lemma NamespaceRequired(path: string, query: Option<string>)
    requires path != [] && path[0] == '/' && '?' !in path
    requires |PathSegments(path)| < 2 || PathSegments(path)[0] != "namespaces"
    ensures ParseDeepLink("temporal://tui" + path + QuerySuffix(query)) == Err(MissingNamespace)
  {
    ParseViaPath(path, query);
  }

  /** A trailing `/` adds no path segment. */
  lemma TrailingSlashSegments(path: string)
    ensures PathSegments(path + "/") == PathSegments(path)
  {
    assert path + "/" == path + ['/'] + [];
    SplitAppend(path, '/', []);
    NonEmptyAppend(Split(path, '/'), Split([], '/'));
  }

  /** A doubled `/` adds no path segment. */
  lemma RepeatedSlashSegments(a: string, b: string)
    ensures PathSegments(a + "//" + b) == PathSegments(a + "/" + b)
  {
    assert a + "//" + b == a + ['/'] + ([] + ['/'] + b);
    assert a + "/" + b == a + ['/'] + b;
    SplitAppend(a, '/', [] + ['/'] + b);
    SplitAppend([], '/', b);
    SplitAppend(a, '/', b);
    NonEmptyAppend(Split(a, '/'), Split([], '/') + Split(b, '/'));
    NonEmptyAppend(Split([], '/'), Split(b, '/'));
    NonEmptyAppend(Split(a, '/'), Split(b, '/'));
  }

  /** A trailing `/` does not change what a link means. */
  lemma TrailingSlashIgnored(path: string, query: Option<string>)
    requires path != [] && path[0] == '/' && '?' !in path
    ensures ParseDeepLink("temporal://tui" + (path + "/") + QuerySuffix(query))
         == ParseDeepLink("temporal://tui" + path + QuerySuffix(query))
  {
    ParseViaPath(path, query);
    ParseViaPath(path + "/", query);
    TrailingSlashSegments(path);
  }

  /** A doubled `/` reads like a single one. */
  lemma RepeatedSlashIgnored(a: string, b: string, query: Option<string>)
    requires a == [] || a[0] == '/'
    requires '?' !in a && '?' !in b
    ensures ParseDeepLink("temporal://tui" + (a + "//" + b) + QuerySuffix(query))
         == ParseDeepLink("temporal://tui" + (a + "/" + b) + QuerySuffix(query))
  {
    ParseViaPath(a + "//" + b, query);
    ParseViaPath(a + "/" + b, query);
    RepeatedSlashSegments(a, b);
  }
}
