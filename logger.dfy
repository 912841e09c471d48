/**
 * The logger of pkg/mon/logger.go: level priorities and the level gate, the
 * field-map merge, the copy-returning With* methods, and Option.
 *
 * Field values are a small closed datatype standing for Go's interface{}
 * values; `Prepare` is prepareForLog on them. Formatting, the output writer,
 * the clock, hooks and stack traces are not modelled: a call that passes the
 * level gate returns the entry that would be formatted.
 */
module Logging {
  import opened Wrappers

  const LevelTrace := "trace"
  const LevelDebug := "debug"
  const LevelInfo := "info"
  const LevelWarn := "warn"
  const LevelError := "error"

  const Levels: map<string, nat> := map[LevelTrace := 0, LevelDebug := 1, LevelInfo := 2, LevelWarn := 3, LevelError := 4]

  const ChannelDefault := "default"
  const FormatConsole := "console"
  const DefaultTimestampFormat := "15:04:05.000"

  /** levelPriority: the priority of a level name, 0 for a name it does not know. */
  function LevelPriority(level: string): (p: nat)
    ensures level in Levels ==> p == Levels[level]
    ensures level !in Levels ==> p == 0
  {
    if level in Levels then Levels[level] else 0
  }

  /** The priorities rise strictly from trace to error, and an unknown name ranks like trace. */
  lemma LevelOrder(unknown: string)
    requires unknown !in Levels
    ensures LevelPriority(LevelTrace) < LevelPriority(LevelDebug) < LevelPriority(LevelInfo) < LevelPriority(LevelWarn) < LevelPriority(LevelError)
    ensures LevelPriority(unknown) == LevelPriority(LevelTrace)
  {
  }

  /** The gate in log: a message is written when its level is not below the configured one. */
  predicate Passes(configured: int, level: string): (r: bool)
    ensures configured <= LevelPriority(LevelTrace) ==> r
    ensures configured > LevelPriority(LevelError) ==> !r
  {
    LevelPriority(level) >= configured
  }

  /** A gate that lets a level through lets every higher level through. */
  lemma GateMonotone(configured: int, lower: string, higher: string)
    requires LevelPriority(lower) <= LevelPriority(higher)
    ensures Passes(configured, lower) ==> Passes(configured, higher)
  {
  }

  /** A message with a level name the logger does not know is written only at trace level or below. */
  lemma UnknownLevelOnlyAtTrace(configured: int, level: string)
    requires level !in Levels
    ensures Passes(configured, level) <==> configured <= LevelPriority(LevelTrace)
  {
  }

  /** A stand-in for Go's interface{} values in log fields. */
  datatype Value =
    | NilValue
    | BoolValue(b: bool)
    | IntValue(i: int)
    | StringValue(s: string)
    | TimeValue(nanos: int)
    | ErrorValue(message: string)

  type Fields = map<string, Value>

  /** prepareForLog: an error becomes its message, anything else is kept. */
  function Prepare(v: Value): (r: Value)
    ensures !r.ErrorValue?
    ensures v.ErrorValue? ==> r == StringValue(v.message)
    ensures !v.ErrorValue? ==> r == v
  {
    match v
    case ErrorValue(message) => StringValue(message)
    case _ => v
  }

  /** The merged map: every key of both, the input's value winning, all values prepared. */
  ghost function Merge(receiver: Fields, input: Fields): (r: Fields)
  {
    map k | k in receiver.Keys + input.Keys :: if k in input then Prepare(input[k]) else Prepare(receiver[k])
  }

  /** The target with every entry of the source written over it, prepared. */
  ghost function Overlay(target: Fields, source: Fields): Fields
  {
    map k | k in target.Keys + source.Keys :: if k in source then Prepare(source[k]) else target[k]
  }

  /** The entries of m whose keys are not in gone. */
  ghost function Without(m: Fields, gone: set<string>): Fields
  {
    map k | k in m.Keys - gone :: m[k]
  }

  /** One loop of mergeMapStringInterface: writes every entry of the source into the target. */
  method PutAll(target: Fields, source: Fields) returns (r: Fields)
    ensures r == Overlay(target, source)
  {
    r := target;
    var rest := source;
    OverlayNothing(target, source);
    while rest != map[]
      invariant forall k :: k in rest ==> k in source && rest[k] == source[k]
      invariant r == Overlay(target, Without(source, rest.Keys))
      decreases |rest|
    {
      var k :| k in rest;
      OverlayStep(target, source, rest, k);
      r := r[k := Prepare(rest[k])];
      rest := rest - {k};
    }
    OverlayAll(target, source, rest);
  }

  lemma OverlayNothing(target: Fields, source: Fields)
    ensures Overlay(target, Without(source, source.Keys)) == target
  {
    assert Without(source, source.Keys) == map[];
  }

  lemma OverlayAll(target: Fields, source: Fields, rest: Fields)
    requires rest == map[]
    ensures Overlay(target, Without(source, rest.Keys)) == Overlay(target, source)
  {
    assert Without(source, rest.Keys) == source;
  }

  lemma OverlayStep(target: Fields, source: Fields, rest: Fields, k: string)
    requires k in rest && forall j :: j in rest ==> j in source && rest[j] == source[j]
    ensures |rest - {k}| < |rest|
    ensures Overlay(target, Without(source, (rest - {k}).Keys)) == Overlay(target, Without(source, rest.Keys))[k := Prepare(rest[k])]
  {
    assert (rest - {k}).Keys == rest.Keys - {k};
    WithoutOneLess(source, rest.Keys, k);
    OverlayUpdate(target, Without(source, rest.Keys), k, source[k]);
  }

  lemma WithoutOneLess(m: Fields, gone: set<string>, k: string)
    requires k in gone && k in m
    ensures Without(m, gone - {k}) == Without(m, gone)[k := m[k]]
  {
    var left := Without(m, gone - {k});
    var right := Without(m, gone)[k := m[k]];
    assert left.Keys == right.Keys;
    forall j | j in left.Keys ensures left[j] == right[j] {
    }
  }

  lemma OverlayUpdate(target: Fields, m: Fields, k: string, v: Value)
    ensures Overlay(target, m[k := v]) == Overlay(target, m)[k := Prepare(v)]
  {
    var left := Overlay(target, m[k := v]);
    var right := Overlay(target, m)[k := Prepare(v)];
    assert left.Keys == right.Keys;
    forall j | j in left.Keys ensures left[j] == right[j] {
    }
  }

  /** mergeMapStringInterface: fills a fresh map from the receiver, then from the input. */
  method MergeMapStringInterface(receiver: Fields, input: Fields) returns (merged: Fields)
    ensures merged == Merge(receiver, input)
  {
    merged := PutAll(map[], receiver);
    merged := PutAll(merged, input);
  }

  /** The merge holds every key of both maps; the input wins a conflict. */
  lemma MergeUnion(receiver: Fields, input: Fields)
    ensures Merge(receiver, input).Keys == receiver.Keys + input.Keys
    ensures forall k :: k in input ==> Merge(receiver, input)[k] == Prepare(input[k])
    ensures forall k :: k in receiver && k !in input ==> Merge(receiver, input)[k] == Prepare(receiver[k])
  {
  }

  /** Merging nothing into a map keeps its keys, with prepared values. */
  lemma MergeNothing(receiver: Fields)
    ensures Merge(receiver, map[]).Keys == receiver.Keys
    ensures forall k :: k in receiver ==> Merge(receiver, map[])[k] == Prepare(receiver[k])
  {
  }

  /**
   * Two merges in a row are one merge of the combined input, because
   * preparing a prepared value changes nothing.
   */
  lemma {:induction false} MergeAssociative(a: Fields, b: Fields, c: Fields)
    ensures Merge(Merge(a, b), c) == Merge(a, Merge(b, c))
  {
    var left := Merge(Merge(a, b), c);
    var right := Merge(a, Merge(b, c));
    assert left.Keys == right.Keys;
    forall k | k in left.Keys
      ensures left[k] == right[k]
    {
      if k !in c && k in b {
        assert Prepare(Prepare(b[k])) == Prepare(b[k]);
      } else if k !in c && k !in b {
        assert Prepare(Prepare(a[k])) == Prepare(a[k]);
      } else {
        assert Prepare(Prepare(c[k])) == Prepare(c[k]);
      }
    }
  }

  /** context.Context, reduced to the values resolvers read from it. */
  datatype Context = Context(values: map<string, Value>)

  /** A function that reads log fields out of a context. */
  type ContextFieldsResolver = Context -> Fields

  datatype Metadata = Metadata(channel: string, context: Option<Context>, contextFields: Fields, fields: Fields, tags: Fields)

  /** The fields of a logger that the modelled operations read or change. */
  datatype LoggerState = LoggerState(
    level: int,
    format: string,
    timestampFormat: string,
    data: Metadata,
    ctxResolvers: seq<ContextFieldsResolver>)

  /** The context fields after the resolvers have been merged in, in order. */
  ghost function ResolveAll(fields: Fields, resolvers: seq<ContextFieldsResolver>, ctx: Context): Fields
  {
    if resolvers == [] then fields
    else Merge(ResolveAll(fields, resolvers[..|resolvers| - 1], ctx), resolvers[|resolvers| - 1](ctx))
  }

  /** A key ends up in the context fields iff it was there before or some resolver supplies it. */
  lemma {:induction false} ResolveAllKeys(fields: Fields, resolvers: seq<ContextFieldsResolver>, ctx: Context, k: string)
    ensures k in ResolveAll(fields, resolvers, ctx) <==> k in fields || exists i :: 0 <= i < |resolvers| && k in resolvers[i](ctx)
  {
    if resolvers != [] {
      var n := |resolvers| - 1;
      ResolveAllKeys(fields, resolvers[..n], ctx, k);
      if exists i :: 0 <= i < |resolvers| && k in resolvers[i](ctx) {
        var i :| 0 <= i < |resolvers| && k in resolvers[i](ctx);
        if i < n {
          assert resolvers[..n][i] == resolvers[i];
        }
      }
      if exists i :: 0 <= i < n && k in resolvers[..n][i](ctx) {
        var i :| 0 <= i < n && k in resolvers[..n][i](ctx);
        assert resolvers[i] == resolvers[..n][i];
      }
    }
  }

  /** The last resolver that supplies a key decides its value. */
  lemma LastResolverWins(fields: Fields, resolvers: seq<ContextFieldsResolver>, ctx: Context, k: string)
    requires resolvers != [] && k in resolvers[|resolvers| - 1](ctx)
    ensures ResolveAll(fields, resolvers, ctx)[k] == Prepare(resolvers[|resolvers| - 1](ctx)[k])
  {
  }

  /** The entry a log call that passes the gate hands to the formatter. */
  datatype LogEntry = LogEntry(level: string, msg: string, err: Option<string>, data: Metadata)

  /** A LoggerOption: it changes the logger and may fail; a failing option keeps its own changes. */
  type LoggerOption = LoggerState -> (LoggerState, Option<string>)

  /** The logger after applying options in order, and the first error. */
  function ApplyOptions(s: LoggerState, options: seq<LoggerOption>): (LoggerState, Option<string>)
    decreases |options|
  {
    if options == [] then (s, None)
    else
      var (next, err) := options[0](s);
      if err.Some? then (next, err) else ApplyOptions(next, options[1..])
  }

  /**
   * Applying a + b is applying a, then b unless a failed: options after the
   * first error are never applied, and those before it stay applied.
   */
  lemma {:induction false} ApplyOptionsConcat(s: LoggerState, a: seq<LoggerOption>, b: seq<LoggerOption>)
    ensures ApplyOptions(s, a + b) ==
            (var (mid, err) := ApplyOptions(s, a); if err.Some? then (mid, err) else ApplyOptions(mid, b))
    decreases |a|
  {
    if a == [] {
      assert a + b == b;
    } else {
      assert (a + b)[0] == a[0];
      assert (a + b)[1..] == a[1..] + b;
      var (next, err) := a[0](s);
      if err.None? {
        ApplyOptionsConcat(next, a[1..], b);
      }
    }
  }

  /** An option list without failures reports no error. */
  lemma {:induction false} ApplyOptionsSucceeds(s: LoggerState, options: seq<LoggerOption>)
    requires forall i, t :: 0 <= i < |options| ==> options[i](t).1.None?
    ensures ApplyOptions(s, options).1.None?
    decreases |options|
  {
    if options != [] {
      assert forall i, t :: 0 <= i < |options[1..]| ==> options[1..][i](t).1 == options[i + 1](t).1;
      ApplyOptionsSucceeds(options[0](s).0, options[1..]);
    }
  }

  class Logger {
    var level: int
    var format: string
    var timestampFormat: string
    var data: Metadata
    var ctxResolvers: seq<ContextFieldsResolver>

    function State(): LoggerState
      reads this
    {
      LoggerState(level, format, timestampFormat, data, ctxResolvers)
    }

    /** NewLogger: info level, console format, default channel, empty field maps. */
    constructor ()
      ensures State() == LoggerState(LevelPriority(LevelInfo), FormatConsole, DefaultTimestampFormat,
                                     Metadata(ChannelDefault, None, map[], map[], map[]), [])
    {
      level := LevelPriority(LevelInfo);
      format := FormatConsole;
      timestampFormat := DefaultTimestampFormat;
      data := Metadata(ChannelDefault, None, map[], map[], map[]);
      ctxResolvers := [];
    }

    /** copy: a fresh logger with the same state. */
    method Copy() returns (c: Logger)
      ensures fresh(c) && c.State() == State()
    {
      c := new Logger();
      c.level, c.format, c.timestampFormat, c.data, c.ctxResolvers := level, format, timestampFormat, data, ctxResolvers;
    }

    /** WithChannel: a copy that differs only in its channel; this logger is unchanged. */
    method WithChannel(channel: string) returns (c: Logger)
      ensures fresh(c)
      ensures c.State() == State().(data := data.(channel := channel))
    {
      c := Copy();
      c.data := c.data.(channel := channel);
    }

    /** WithFields: a copy whose fields are this logger's merged with the new ones. */
    method WithFields(fields: Fields) returns (c: Logger)
      ensures fresh(c)
      ensures c.State() == State().(data := data.(fields := Merge(data.fields, fields)))
    {
      c := Copy();
      var merged := MergeMapStringInterface(data.fields, fields);
      c.data := c.data.(fields := merged);
    }

    /**
     * WithContext: the logger itself for a nil context; otherwise a copy
     * that carries the context and the fields every resolver read from it.
     */
    method WithContext(ctx: Option<Context>) returns (c: Logger)
      ensures ctx.None? ==> c == this
      ensures ctx.Some? ==> fresh(c)
      ensures ctx.Some? ==>
                c.State() == State().(data := data.(context := ctx, contextFields := ResolveAll(data.contextFields, ctxResolvers, ctx.value)))
    {
      if ctx.None? {
        return this;
      }
      c := Copy();
      c.data := c.data.(context := ctx);
      var i := 0;
      while i < |ctxResolvers|
        invariant 0 <= i <= |ctxResolvers|
        invariant c.State() == State().(data := data.(context := ctx, contextFields := ResolveAll(data.contextFields, ctxResolvers[..i], ctx.value)))
      {
        assert ctxResolvers[..i + 1][..i] == ctxResolvers[..i];
        var merged := MergeMapStringInterface(c.data.contextFields, ctxResolvers[i](ctx.value));
        c.data := c.data.(contextFields := merged);
        i := i + 1;
      }
      assert ctxResolvers[..|ctxResolvers|] == ctxResolvers;
    }

    /**
     * log: nothing when the level is below the configured one; otherwise the
     * entry carries this logger's metadata with the call's fields merged in.
     */
    method Log(lvl: string, msg: string, logErr: Option<string>, fields: Fields) returns (entry: Option<LogEntry>)
      ensures entry.None? <==> !Passes(level, lvl)
      ensures entry.Some? ==> entry.value.level == lvl && entry.value.msg == msg && entry.value.err == logErr
      ensures entry.Some? ==> entry.value.data == data.(fields := Merge(data.fields, fields))
    {
      if LevelPriority(lvl) < level {
        return None;
      }
      var merged := MergeMapStringInterface(data.fields, fields);
      entry := Some(LogEntry(lvl, msg, logErr, data.(fields := merged)));
    }

    method Info(msg: string) returns (entry: Option<LogEntry>)
      ensures entry.Some? <==> level <= LevelPriority(LevelInfo)
      ensures entry.Some? ==> entry.value == LogEntry(LevelInfo, msg, None, data.(fields := Merge(data.fields, map[])))
    {
      entry := Log(LevelInfo, msg, None, map[]);
    }

    /** Debug checks the level itself before calling log; the outcome is the same. */
    method Debug(msg: string) returns (entry: Option<LogEntry>)
      ensures entry.Some? <==> level <= LevelPriority(LevelDebug)
      ensures entry.Some? ==> entry.value == LogEntry(LevelDebug, msg, None, data.(fields := Merge(data.fields, map[])))
    {
      if level > Levels[LevelDebug] {
        return None;
      }
      entry := Log(LevelDebug, msg, None, map[]);
    }

    method Warn(msg: string) returns (entry: Option<LogEntry>)
      ensures entry.Some? <==> level <= LevelPriority(LevelWarn)
      ensures entry.Some? ==> entry.value == LogEntry(LevelWarn, msg, None, data.(fields := Merge(data.fields, map[])))
    {
      entry := Log(LevelWarn, msg, None, map[]);
    }

    /** Error logs the error with a "stacktrace" field; the stack trace is a parameter. */
    method Error(err: string, msg: string, stacktrace: string) returns (entry: Option<LogEntry>)
      ensures entry.Some? <==> level <= LevelPriority(LevelError)
      ensures entry.Some? ==>
                entry.value == LogEntry(LevelError, msg, Some(err), data.(fields := Merge(data.fields, map["stacktrace" := StringValue(stacktrace)])))
      ensures entry.Some? ==> "stacktrace" in entry.value.data.fields && entry.value.data.fields["stacktrace"] == StringValue(stacktrace)
    {
      entry := Log(LevelError, msg, Some(err), map["stacktrace" := StringValue(stacktrace)]);
    }

    /** Option: applies the options in order and returns the first error. */
    method Option(options: seq<LoggerOption>) returns (err: Option<string>)
      modifies this
      ensures (State(), err) == ApplyOptions(old(State()), options)
    {
      var i := 0;
      while i < |options|
        invariant 0 <= i <= |options|
        invariant ApplyOptions(old(State()), options) == ApplyOptions(State(), options[i..])
      {
        var (next, e) := options[i](State());
        assert options[i..][0] == options[i] && options[i..][1..] == options[i + 1..];
        level, format, timestampFormat, data, ctxResolvers := next.level, next.format, next.timestampFormat, next.data, next.ctxResolvers;
        if e.Some? {
          return e;
        }
        i := i + 1;
      }
      return None;
    }
  }
}
