/**
 * The HTTP request logging middleware (pkg/apiserver/middleware_logger.go):
 * the templated ("raw") request path and the choice of log lines and their
 * levels after a request.
 *
 * The gin request plumbing and the request fields attached to each line are
 * not modelled; a log line is its level, its message and its error.
 */
module HttpLogging {
  import opened Wrappers
  import opened GoStrings
  import Logging

  /** A route parameter: the name in the route and the value matched in the path. */
  datatype Param = Param(key: string, value: string)

  /** The raw path after rewriting with the parameters in order, each on the result of the previous ones. */
  ghost function RawPath(path: string, params: seq<Param>): string
  {
    if params == [] then path
    else
      var p := params[|params| - 1];
      ReplaceFirst(RawPath(path, params[..|params| - 1]), p.value, ":" + p.key)
  }

  /** getPathRaw: replaces the first occurrence of each parameter's value with ":" and its name. */
  method GetPathRaw(urlPath: string, params: seq<Param>) returns (path: string)
    ensures path == RawPath(urlPath, params)
  {
    path := urlPath;
    for i := 0 to |params|
      invariant path == RawPath(urlPath, params[..i])
    {
      var p := params[i];
      var k := ":" + p.key;
      assert params[..i + 1][..i] == params[..i];
      path := ReplaceFirst(path, p.value, k);
    }
    assert params[..|params|] == params;
  }

  /** Without route parameters the raw path is the URL path. */
  lemma RawPathNoParams(path: string)
    ensures RawPath(path, []) == path
  {
  }

  /**
   * A parameter rewrites the first occurrence of its value in the path the
   * earlier parameters left, and only that one.
   */
  lemma RawPathRewritesFirstOccurrence(path: string, params: seq<Param>, p: Param, i: nat)
    requires p.value != ""
    requires OccursAt(RawPath(path, params), p.value, i)
    requires forall j :: 0 <= j < i ==> !OccursAt(RawPath(path, params), p.value, j)
    ensures var before := RawPath(path, params);
            RawPath(path, params + [p]) == before[..i] + ":" + p.key + before[i + |p.value|..]
  {
    var before := RawPath(path, params);
    var replacement := ":" + p.key;
    assert RawPath(path, params + [p]) == ReplaceFirst(before, p.value, replacement) by {
      RawPathSnoc(path, params, p);
    }
    assert ReplaceFirst(before, p.value, replacement) == before[..i] + replacement + before[i + |p.value|..] by {
      ReplaceFirstAt(before, p.value, replacement, i);
    }
  }

  lemma RawPathSnoc(path: string, params: seq<Param>, p: Param)
    ensures RawPath(path, params + [p]) == ReplaceFirst(RawPath(path, params), p.value, ":" + p.key)
  {
    assert (params + [p])[..|params|] == params;
  }

  /** A parameter whose value does not occur in the path leaves it unchanged. */
  lemma RawPathUnmatchedParam(path: string, params: seq<Param>, p: Param)
    requires p.value != ""
    requires forall j :: 0 <= j <= |RawPath(path, params)| ==> !OccursAt(RawPath(path, params), p.value, j)
    ensures RawPath(path, params + [p]) == RawPath(path, params)
  {
    RawPathSnoc(path, params, p);
    ReplaceFirstAbsent(RawPath(path, params), p.value, ":" + p.key);
  }

  /** A parameter with an empty value puts ":" and its name in front of the path. */
  lemma RawPathEmptyValuePrepends(path: string, params: seq<Param>, key: string)
    ensures RawPath(path, params + [Param(key, "")]) == ":" + key + RawPath(path, params)
  {
    RawPathSnoc(path, params, Param(key, ""));
  }

  /** gin's error type flags that the middleware distinguishes. */
  const ErrorTypeBind: bv64 := 1 << 63
  const ErrorTypeRender: bv64 := 1 << 62

  /** A request error as gin records it. */
  datatype GinError = GinError(errType: bv64, err: string)

  /** A log line: the level it is written at, its message, and the error it carries. */
  datatype LogLine = LogLine(level: string, msg: string, err: Option<string>)

  /** The level for one request error: bind and render errors warn, all others are errors. */
  function ErrorLevel(e: GinError): (level: string)
    ensures level == Logging.LevelWarn <==> e.errType == ErrorTypeBind || e.errType == ErrorTypeRender
    ensures level == Logging.LevelError <==> e.errType != ErrorTypeBind && e.errType != ErrorTypeRender
  {
    if e.errType == ErrorTypeBind || e.errType == ErrorTypeRender then Logging.LevelWarn else Logging.LevelError
  }

  /** The line written for one request error. */
  function ErrorLine(requestLine: string, e: GinError): (line: LogLine)
    ensures line.level == ErrorLevel(e)
  {
    if e.errType == ErrorTypeBind then LogLine(Logging.LevelWarn, requestLine + " - bind error - " + e.err, None)
    else if e.errType == ErrorTypeRender then LogLine(Logging.LevelWarn, requestLine + " - render error - " + e.err, None)
    else LogLine(Logging.LevelError, requestLine, Some(e.err))
  }

  /**
   * The end of the middleware: one info line for a request without errors,
   * otherwise one line per error in the order gin recorded them.
   */
  method RequestLogLines(httpMethod: string, path: string, proto: string, errors: seq<GinError>) returns (lines: seq<LogLine>)
    ensures errors == [] ==> lines == [LogLine(Logging.LevelInfo, httpMethod + " " + path + " " + proto, None)]
    ensures errors != [] ==> |lines| == |errors|
    ensures errors != [] ==> forall i :: 0 <= i < |errors| ==> lines[i] == ErrorLine(httpMethod + " " + path + " " + proto, errors[i])
    ensures forall i :: 0 <= i < |lines| ==> lines[i].level != Logging.LevelDebug && lines[i].level != Logging.LevelTrace
  {
    var requestLine := httpMethod + " " + path + " " + proto;
    if |errors| == 0 {
      return [LogLine(Logging.LevelInfo, requestLine, None)];
    }
    lines := [];
    for i := 0 to |errors|
      invariant |lines| == i
      invariant forall j :: 0 <= j < i ==> lines[j] == ErrorLine(requestLine, errors[j])
    {
      var line := ErrorLine(requestLine, errors[i]);
      lines := lines + [line];
    }
  }

  /**
   * An error carrying the bind or the render flag together with any other
   * flag matches neither case of the exact-equality switch and is logged as
   * an error.
   */
  lemma CombinedFlagsAreErrors(e: GinError)
    requires || (e.errType & ErrorTypeBind == ErrorTypeBind && e.errType != ErrorTypeBind)
             || (e.errType & ErrorTypeRender == ErrorTypeRender && e.errType != ErrorTypeRender)
    ensures ErrorLevel(e) == Logging.LevelError
  {
  }
}
