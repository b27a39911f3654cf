/**
 * AdminNotifyLogsResultComponent: the wrapper around the admin notification-log
 * search results. Its logic is the URL it resolves from the activated route and
 * the navigation request with which it resets the search to the default
 * configuration. A route is given by its URL segments, each already serialised
 * to its string; `pathFromRoot` lists the routes from the root to the leaf.
 */
module AdminNotifyLogsResult {

  /** Array.prototype.join: the parts with `sep` between consecutive ones. */
  function Join(parts: seq<string>, sep: string): (r: string)
    ensures parts == [] ==> r == ""
    ensures |parts| > 0 ==> |r| == TotalLength(parts) + (|parts| - 1) * |sep|
  {
    if |parts| == 0 then ""
    else if |parts| == 1 then parts[0]
    else parts[0] + sep + Join(parts[1..], sep)
  }

  function TotalLength(parts: seq<string>): nat
  {
    if parts == [] then 0 else |parts[0]| + TotalLength(parts[1..])
  }

  /** String.prototype.split on one character: the maximal pieces between separators, always at least one. */
  function Split(s: string, sep: char): (r: seq<string>)
    ensures |r| >= 1
    ensures forall p :: p in r ==> sep !in p
    decreases |s|
  {
    if s == [] then [""]
    else
      var rest := Split(s[1..], sep);
      if s[0] == sep then [""] + rest
      else [[s[0]] + rest[0]] + rest[1..]
  }

  /** Joining non-empty lists one after the other is joining their concatenation. */
  lemma {:induction false} JoinAppend(a: seq<string>, b: seq<string>, sep: string)
    requires |a| > 0 && |b| > 0
    ensures Join(a + b, sep) == Join(a, sep) + sep + Join(b, sep)
  {
    if |a| == 1 {
      assert (a + b)[1..] == b;
    } else {
      assert (a + b)[1..] == a[1..] + b;
      JoinAppend(a[1..], b, sep);
    }
  }

  /** A piece free of the separator stays glued to the first piece of what follows it. */
  lemma {:induction false} SplitPrefix(p: string, tail: string, sep: char)
    requires sep !in p
    ensures Split(p + tail, sep) == [p + Split(tail, sep)[0]] + Split(tail, sep)[1..]
    decreases |p|
  {
    if p != [] {
      assert (p + tail)[1..] == p[1..] + tail;
      SplitPrefix(p[1..], tail, sep);
      assert [p[0]] + (p[1..] + Split(tail, sep)[0]) == p + Split(tail, sep)[0];
    } else {
      var pieces := Split(tail, sep);
      assert p + tail == tail && p + pieces[0] == pieces[0];
      assert pieces == [pieces[0]] + pieces[1..];
    }
  }

  /** Split undoes Join when no part holds the separator and there is at least one part. */
  lemma {:induction false} SplitJoin(parts: seq<string>, sep: char)
    requires |parts| > 0
    requires forall p :: p in parts ==> sep !in p
    ensures Split(Join(parts, [sep]), sep) == parts
  {
    if |parts| == 1 {
      SplitPrefix(parts[0], "", sep);
      assert parts[0] + "" == parts[0];
    } else {
      var rest := Join(parts[1..], [sep]);
      SplitJoin(parts[1..], sep);
      assert parts[0] + [sep] + rest == parts[0] + ([sep] + rest);
      SplitPrefix(parts[0], [sep] + rest, sep);
      assert ([sep] + rest)[1..] == rest;
      assert parts[0] + "" == parts[0];
    }
  }

  /** The string of one route: its segments joined with '/'. */
  function RouteString(segments: seq<string>): (r: string)
    ensures segments == [] ==> r == ""
    ensures |segments| == 1 ==> r == segments[0]
  {
    Join(segments, "/")
  }

  /** getResolvedUrl: the route strings from root to leaf, joined with '/'. */
  function ResolvedUrl(pathFromRoot: seq<seq<string>>): (r: string)
    ensures pathFromRoot == [] ==> r == ""
    ensures |pathFromRoot| == 1 && |pathFromRoot[0]| == 1 ==> r == pathFromRoot[0][0]
  {
    Join(seq(|pathFromRoot|, i requires 0 <= i < |pathFromRoot| => RouteString(pathFromRoot[i])), "/")
  }

  /** The pieces a route contributes to the URL: its segments, or one empty piece when it has none. */
  function Pieces(segments: seq<string>): (r: seq<string>)
  {
    if segments == [] then [""] else segments
  }

  /** The pieces of all routes, root first. */
  function AllPieces(pathFromRoot: seq<seq<string>>): (r: seq<string>)
  {
    if pathFromRoot == [] then [] else Pieces(pathFromRoot[0]) + AllPieces(pathFromRoot[1..])
  }

  /** The resolved URL is the pieces of every route, in root-to-leaf order, joined with '/'. */
  lemma {:induction false} ResolvedUrlIsJoinOfPieces(pathFromRoot: seq<seq<string>>)
    ensures ResolvedUrl(pathFromRoot) == Join(AllPieces(pathFromRoot), "/")
  {
    if pathFromRoot != [] {
      var tail := pathFromRoot[1..];
      ResolvedUrlIsJoinOfPieces(tail);
      var strings := seq(|pathFromRoot|, i requires 0 <= i < |pathFromRoot| => RouteString(pathFromRoot[i]));
      var tailStrings := seq(|tail|, i requires 0 <= i < |tail| => RouteString(tail[i]));
      assert strings[1..] == tailStrings;
      assert Join(Pieces(pathFromRoot[0]), "/") == strings[0];
      if tail == [] {
        assert AllPieces(pathFromRoot) == Pieces(pathFromRoot[0]) + [];
        assert Pieces(pathFromRoot[0]) + [] == Pieces(pathFromRoot[0]);
      } else {
        assert AllPieces(tail) != [] by {
          assert |Pieces(tail[0])| > 0;
          PiecesNonEmpty(tail);
        }
        JoinAppend(Pieces(pathFromRoot[0]), AllPieces(tail), "/");
      }
    }
  }

  lemma {:induction false} PiecesNonEmpty(pathFromRoot: seq<seq<string>>)
    requires pathFromRoot != []
    ensures |AllPieces(pathFromRoot)| >= |pathFromRoot|
  {
    if |pathFromRoot| > 1 {
      PiecesNonEmpty(pathFromRoot[1..]);
    }
  }

  /**
   * Splitting the resolved URL at '/' gives back every route's segments in
   * order, with one empty piece for each route that has no segments, provided
   * no segment holds a '/' (serialised segments have theirs percent-encoded).
   */
  lemma SplitResolvedUrl(pathFromRoot: seq<seq<string>>)
    requires pathFromRoot != []
    requires forall k, j :: 0 <= k < |pathFromRoot| && 0 <= j < |pathFromRoot[k]| ==> '/' !in pathFromRoot[k][j]
    ensures Split(ResolvedUrl(pathFromRoot), '/') == AllPieces(pathFromRoot)
  {
    ResolvedUrlIsJoinOfPieces(pathFromRoot);
    PiecesNonEmpty(pathFromRoot);
    PiecesFreeOfSlash(pathFromRoot);
    SplitJoin(AllPieces(pathFromRoot), '/');
  }

  lemma {:induction false} PiecesFreeOfSlash(pathFromRoot: seq<seq<string>>)
    requires forall k, j :: 0 <= k < |pathFromRoot| && 0 <= j < |pathFromRoot[k]| ==> '/' !in pathFromRoot[k][j]
    ensures forall p :: p in AllPieces(pathFromRoot) ==> '/' !in p
  {
    if pathFromRoot != [] {
      PiecesFreeOfSlash(pathFromRoot[1..]);
      assert forall p :: p in Pieces(pathFromRoot[0]) ==> '/' !in p;
    }
  }

  /** A root route without segments followed by further routes gives an absolute URL. */
  lemma EmptyRootIsAbsolute(pathFromRoot: seq<seq<string>>)
    requires |pathFromRoot| > 1 && pathFromRoot[0] == []
    ensures ResolvedUrl(pathFromRoot) == "/" + ResolvedUrl(pathFromRoot[1..])
  {
    var tail := pathFromRoot[1..];
    ResolvedUrlIsJoinOfPieces(pathFromRoot);
    ResolvedUrlIsJoinOfPieces(tail);
    PiecesNonEmpty(tail);
    assert AllPieces(pathFromRoot) == [""] + AllPieces(tail);
    JoinAppend([""], AllPieces(tail), "/");
  }

  /** The view modes of the search results; only Table is used here. */
  datatype ViewMode = ListElement | GridElement | DetailedListElement | Table

  /** A query-parameter value: a plain string or a view mode. */
  datatype QueryValue = Text(text: string) | Mode(mode: ViewMode)

  /** The arguments of router.navigate: the command list and the query parameters. */
  datatype NavigationRequest = NavigationRequest(commands: seq<string>, queryParams: map<string, QueryValue>)

  /** resetDefaultConfiguration: the navigation it requests, returned instead of performed. */
  function ResetDefaultConfiguration(defaultConfiguration: string, pathFromRoot: seq<seq<string>>): (r: NavigationRequest)
    ensures |r.commands| == 1 && r.commands[0] == ResolvedUrl(pathFromRoot)
    ensures r.queryParams.Keys == {"configuration", "view"}
    ensures r.queryParams["configuration"] == Text(defaultConfiguration)
    ensures r.queryParams["view"] == Mode(Table)
  {
    NavigationRequest([ResolvedUrl(pathFromRoot)],
                      map["configuration" := Text(defaultConfiguration), "view" := Mode(Table)])
  }

  /**
   * Under a root route without segments, the reset navigates to an absolute
   * URL whose pieces after the leading '/' are the segments of the routes below.
   */
  lemma ResetNavigatesToCurrentRoute(defaultConfiguration: string, pathFromRoot: seq<seq<string>>)
    requires |pathFromRoot| > 1 && pathFromRoot[0] == []
    requires forall k, j :: 0 <= k < |pathFromRoot| && 0 <= j < |pathFromRoot[k]| ==> '/' !in pathFromRoot[k][j]
    ensures var url := ResetDefaultConfiguration(defaultConfiguration, pathFromRoot).commands[0];
      |url| > 0 && url[0] == '/' && Split(url, '/') == [""] + AllPieces(pathFromRoot[1..])
  {
    EmptyRootIsAbsolute(pathFromRoot);
    SplitResolvedUrl(pathFromRoot);
  }
}
