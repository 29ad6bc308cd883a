/** The client interceptor pipeline of package egrpc: the interceptors a client
    can carry, the dial options that register them, the built-in
    registrations that Container.Build appends after the caller's options, and
    the unary and stream chains that the registered dial options install. */
module Pipeline {

  /** An interceptor, identified by the factory that made it and the
      arguments that factory captured when Build ran; the logger handle that
      the logger and timeout factories also capture is not recorded. */
  datatype Interceptor =
    | Trace
    | CustomHeader(keys: seq<string>)
    | Logger(cfg: Config)
    | Debug(name: string, addr: string)
    | AppNameUnary(cfg: Config)
    | AppNameStream(cfg: Config)
    | Timeout(readTimeout: int, slowLogThreshold: int)
    | Metric(name: string)
    | User(id: nat)

  /** The factory an interceptor came from, forgetting its arguments. */
  datatype Kind =
    | TraceKind | CustomHeaderKind | LoggerKind | DebugKind
    | AppNameUnaryKind | AppNameStreamKind | TimeoutKind | MetricKind | UserKind

  function KindOf(i: Interceptor): Kind {
    match i
    case Trace => TraceKind
    case CustomHeader(_) => CustomHeaderKind
    case Logger(_) => LoggerKind
    case Debug(_, _) => DebugKind
    case AppNameUnary(_) => AppNameUnaryKind
    case AppNameStream(_) => AppNameStreamKind
    case Timeout(_, _) => TimeoutKind
    case Metric(_) => MetricKind
    case User(_) => UserKind
  }

  /** The two call shapes a gRPC interceptor can wrap. */
  datatype Shape = Unary | Stream

  /** grpc.WithChainUnaryInterceptor(i) is ChainInterceptor(Unary, i);
      grpc.WithChainStreamInterceptor(i) is ChainInterceptor(Stream, i). */
  datatype DialOption = ChainInterceptor(shape: Shape, interceptor: Interceptor)

  /** A Build option. Every option of the model registers one dial option
      with the container, as WithDialOption does. */
  datatype Option = WithDialOption(dial: DialOption)

  /** The part of the client configuration that Build and Load read.
      Durations are in nanoseconds, as Go's time.Duration. */
  datatype Config = Config(
    addr: string,
    readTimeout: int,
    slowLogThreshold: int,
    enableTraceInterceptor: bool,
    enableAppNameInterceptor: bool,
    enableTimeoutInterceptor: bool,
    enableMetricInterceptor: bool)

  function Bit(b: bool): nat {
    if b then 1 else 0
  }

  /** The piece xs when its switch is on, nothing otherwise. */
  function When<T>(on: bool, xs: seq<T>): seq<T> {
    if on then xs else []
  }

  function UnaryOption(i: Interceptor): Option {
    WithDialOption(ChainInterceptor(Unary, i))
  }

  function StreamOption(i: Interceptor): Option {
    WithDialOption(ChainInterceptor(Stream, i))
  }

  /** The dial options a list of Build options registers, one per option. */
  function Dials(options: seq<Option>): (r: seq<DialOption>)
    ensures |r| == |options|
  {
    if options == [] then [] else [options[0].dial] + Dials(options[1..])
  }

  /** The interceptors of one shape, in the order their dial options were
      registered; gRPC makes the first one the outermost wrapper of a call. */
  function Chain(dials: seq<DialOption>, shape: Shape): seq<Interceptor> {
    if dials == [] then []
    else if dials[0].shape == shape then [dials[0].interceptor] + Chain(dials[1..], shape)
    else Chain(dials[1..], shape)
  }

  /** How many interceptors of kind k a chain holds. */
  function CountKind(s: seq<Interceptor>, k: Kind): nat {
    if s == [] then 0
    else if KindOf(s[0]) == k then 1 + CountKind(s[1..], k)
    else CountKind(s[1..], k)
  }

  /** A chain holding only caller interceptors. */
  predicate OnlyUser(s: seq<Interceptor>) {
    forall j :: 0 <= j < |s| ==> KindOf(s[j]) == UserKind
  }

  // ----- What Build registers -----

  /** The built-in registrations Build appends after the caller's options,
      in the order of the code: trace, custom header, logger, debug, app name
      (unary, then stream), timeout, metric, each only when its switch is
      on. The debug and metric interceptors capture the container's name,
      the debug interceptor also its address. */
  function BuiltIns(cfg: Config, name: string, devMode: bool, contextKeys: seq<string>): (r: seq<Option>)
    ensures |r| == 2 + Bit(cfg.enableTraceInterceptor) + Bit(devMode)
                     + 2 * Bit(cfg.enableAppNameInterceptor)
                     + Bit(cfg.enableTimeoutInterceptor) + Bit(cfg.enableMetricInterceptor)
  {
    When(cfg.enableTraceInterceptor, [UnaryOption(Trace)])
    + [UnaryOption(CustomHeader(contextKeys)), UnaryOption(Logger(cfg))]
    + When(devMode, [UnaryOption(Debug(name, cfg.addr))])
    + When(cfg.enableAppNameInterceptor, [UnaryOption(AppNameUnary(cfg)), StreamOption(AppNameStream(cfg))])
    + When(cfg.enableTimeoutInterceptor, [UnaryOption(Timeout(cfg.readTimeout, cfg.slowLogThreshold))])
    + When(cfg.enableMetricInterceptor, [UnaryOption(Metric(name))])
  }

  /** The dial options a container holds after Build applied, in order, the
      caller's options followed by the built-ins, to its prior dial options. */
  function Assembled(prior: seq<DialOption>, options: seq<Option>, cfg: Config, name: string,
                     devMode: bool, contextKeys: seq<string>): seq<DialOption>
  {
    prior + Dials(options + BuiltIns(cfg, name, devMode, contextKeys))
  }

  /** The built-in unary interceptors, outermost first: trace, custom header,
      logger, debug, app-name, timeout, metric. */
  function BuiltInUnary(cfg: Config, name: string, devMode: bool, contextKeys: seq<string>): seq<Interceptor> {
    When(cfg.enableTraceInterceptor, [Trace])
    + [CustomHeader(contextKeys), Logger(cfg)]
    + When(devMode, [Debug(name, cfg.addr)])
    + When(cfg.enableAppNameInterceptor, [AppNameUnary(cfg)])
    + When(cfg.enableTimeoutInterceptor, [Timeout(cfg.readTimeout, cfg.slowLogThreshold)])
    + When(cfg.enableMetricInterceptor, [Metric(name)])
  }

  /** The built-in stream interceptors: caller identity only. */
  function BuiltInStream(cfg: Config): seq<Interceptor> {
    When(cfg.enableAppNameInterceptor, [AppNameStream(cfg)])
  }

  // ----- Algebra of the projections -----

  lemma {:induction false} DialsAppend(a: seq<Option>, b: seq<Option>)
    ensures Dials(a + b) == Dials(a) + Dials(b)
  {
    if a == [] {
      assert a + b == b;
    } else {
      assert (a + b)[1..] == a[1..] + b;
      DialsAppend(a[1..], b);
    }
  }

  lemma {:induction false} ChainAppend(a: seq<DialOption>, b: seq<DialOption>, shape: Shape)
    ensures Chain(a + b, shape) == Chain(a, shape) + Chain(b, shape)
  {
    if a == [] {
      assert a + b == b;
    } else {
      assert (a + b)[1..] == a[1..] + b;
      ChainAppend(a[1..], b, shape);
    }
  }

  lemma {:induction false} CountAppend(a: seq<Interceptor>, b: seq<Interceptor>, k: Kind)
    ensures CountKind(a + b, k) == CountKind(a, k) + CountKind(b, k)
  {
    if a == [] {
      assert a + b == b;
    } else {
      assert (a + b)[1..] == a[1..] + b;
      CountAppend(a[1..], b, k);
    }
  }

  /** A chain of caller interceptors holds no built-in interceptor. */
  lemma {:induction false} OnlyUserCount(s: seq<Interceptor>, k: Kind)
    requires OnlyUser(s) && k != UserKind
    ensures CountKind(s, k) == 0
  {
    if s != [] {
      assert KindOf(s[0]) == UserKind;
      OnlyUserCount(s[1..], k);
    }
  }

  lemma DialsAppend6(p1: seq<Option>, p2: seq<Option>, p3: seq<Option>,
                     p4: seq<Option>, p5: seq<Option>, p6: seq<Option>)
    ensures Dials(p1 + p2 + p3 + p4 + p5 + p6)
         == Dials(p1) + Dials(p2) + Dials(p3) + Dials(p4) + Dials(p5) + Dials(p6)
  {
    DialsAppend(p1 + p2 + p3 + p4 + p5, p6);
    DialsAppend(p1 + p2 + p3 + p4, p5);
    DialsAppend(p1 + p2 + p3, p4);
    DialsAppend(p1 + p2, p3);
    DialsAppend(p1, p2);
  }

  lemma ChainAppend6(d1: seq<DialOption>, d2: seq<DialOption>, d3: seq<DialOption>,
                     d4: seq<DialOption>, d5: seq<DialOption>, d6: seq<DialOption>, shape: Shape)
    ensures Chain(d1 + d2 + d3 + d4 + d5 + d6, shape)
         == Chain(d1, shape) + Chain(d2, shape) + Chain(d3, shape)
            + Chain(d4, shape) + Chain(d5, shape) + Chain(d6, shape)
  {
    ChainAppend(d1 + d2 + d3 + d4 + d5, d6, shape);
    ChainAppend(d1 + d2 + d3 + d4, d5, shape);
    ChainAppend(d1 + d2 + d3, d4, shape);
    ChainAppend(d1 + d2, d3, shape);
    ChainAppend(d1, d2, shape);
  }

  lemma CountSum6(q1: seq<Interceptor>, q2: seq<Interceptor>, q3: seq<Interceptor>,
                  q4: seq<Interceptor>, q5: seq<Interceptor>, q6: seq<Interceptor>, k: Kind)
    ensures CountKind(q1 + q2 + q3 + q4 + q5 + q6, k)
         == CountKind(q1, k) + CountKind(q2, k) + CountKind(q3, k)
            + CountKind(q4, k) + CountKind(q5, k) + CountKind(q6, k)
  {
    CountAppend(q1 + q2 + q3 + q4 + q5, q6, k);
    CountAppend(q1 + q2 + q3 + q4, q5, k);
    CountAppend(q1 + q2 + q3, q4, k);
    CountAppend(q1 + q2, q3, k);
    CountAppend(q1, q2, k);
  }

  lemma DialsOne(o: Option)
    ensures Dials([o]) == [o.dial]
  {
    assert [o][1..] == [];
  }

  /** One conditional registration step: appending xs exactly when on is set
      extends the registered list by When(on, xs). */
  lemma ExtendWhen(opts: seq<Option>, options: seq<Option>, added: seq<Option>, on: bool, xs: seq<Option>)
    requires opts == options + added
    ensures (if on then opts + xs else opts) == options + (added + When(on, xs))
  {
    if !on {
      assert added + When(on, xs) == added;
    }
  }

  /** Registering one more option extends the dial list by its dial option. */
  lemma DialsSnoc(opts: seq<Option>, i: nat)
    requires i < |opts|
    ensures Dials(opts[..i + 1]) == Dials(opts[..i]) + [opts[i].dial]
  {
    assert opts[..i + 1] == opts[..i] + [opts[i]];
    DialsAppend(opts[..i], [opts[i]]);
    DialsOne(opts[i]);
  }

  lemma DialsPair(o1: Option, o2: Option)
    ensures Dials([o1, o2]) == [o1.dial, o2.dial]
  {
    assert [o1, o2][1..] == [o2];
    DialsOne(o2);
  }

  lemma ChainOne(d: DialOption, shape: Shape)
    ensures Chain([d], shape) == if d.shape == shape then [d.interceptor] else []
  {
    assert [d][1..] == [];
  }

  lemma ChainPair(d1: DialOption, d2: DialOption, shape: Shape)
    ensures Chain([d1, d2], shape)
         == (if d1.shape == shape then [d1.interceptor] else [])
            + (if d2.shape == shape then [d2.interceptor] else [])
  {
    assert [d1, d2][1..] == [d2];
    ChainOne(d2, shape);
  }

  lemma CountOne(x: Interceptor, k: Kind)
    ensures CountKind([x], k) == Bit(KindOf(x) == k)
  {
    assert [x][1..] == [];
  }

  lemma CountPair(x: Interceptor, y: Interceptor, k: Kind)
    ensures CountKind([x, y], k) == Bit(KindOf(x) == k) + Bit(KindOf(y) == k)
  {
    assert [x, y][1..] == [y];
    CountOne(y, k);
  }

  lemma CountWhenOne(on: bool, x: Interceptor, k: Kind)
    ensures CountKind(When(on, [x]), k) == Bit(on && KindOf(x) == k)
  {
    CountOne(x, k);
  }

  // ----- The chains the built-ins install -----

  /** The dial options the built-in registrations carry, in registration order. */
  function BuiltInDialOptions(cfg: Config, name: string, devMode: bool, contextKeys: seq<string>): seq<DialOption> {
    When(cfg.enableTraceInterceptor, [ChainInterceptor(Unary, Trace)])
    + [ChainInterceptor(Unary, CustomHeader(contextKeys)), ChainInterceptor(Unary, Logger(cfg))]
    + When(devMode, [ChainInterceptor(Unary, Debug(name, cfg.addr))])
    + When(cfg.enableAppNameInterceptor,
           [ChainInterceptor(Unary, AppNameUnary(cfg)), ChainInterceptor(Stream, AppNameStream(cfg))])
    + When(cfg.enableTimeoutInterceptor, [ChainInterceptor(Unary, Timeout(cfg.readTimeout, cfg.slowLogThreshold))])
    + When(cfg.enableMetricInterceptor, [ChainInterceptor(Unary, Metric(name))])
  }

  /** Applying the built-in registrations registers BuiltInDialOptions. */
  lemma BuiltInDials(cfg: Config, name: string, devMode: bool, contextKeys: seq<string>)
    ensures Dials(BuiltIns(cfg, name, devMode, contextKeys)) == BuiltInDialOptions(cfg, name, devMode, contextKeys)
  {
    var p1 := When(cfg.enableTraceInterceptor, [UnaryOption(Trace)]);
    var p2 := [UnaryOption(CustomHeader(contextKeys)), UnaryOption(Logger(cfg))];
    var p3 := When(devMode, [UnaryOption(Debug(name, cfg.addr))]);
    var p4 := When(cfg.enableAppNameInterceptor, [UnaryOption(AppNameUnary(cfg)), StreamOption(AppNameStream(cfg))]);
    var p5 := When(cfg.enableTimeoutInterceptor, [UnaryOption(Timeout(cfg.readTimeout, cfg.slowLogThreshold))]);
    var p6 := When(cfg.enableMetricInterceptor, [UnaryOption(Metric(name))]);
    assert BuiltIns(cfg, name, devMode, contextKeys) == p1 + p2 + p3 + p4 + p5 + p6;
    DialsAppend6(p1, p2, p3, p4, p5, p6);
    DialsOne(UnaryOption(Trace));
    DialsPair(UnaryOption(CustomHeader(contextKeys)), UnaryOption(Logger(cfg)));
    DialsOne(UnaryOption(Debug(name, cfg.addr)));
    DialsPair(UnaryOption(AppNameUnary(cfg)), StreamOption(AppNameStream(cfg)));
    DialsOne(UnaryOption(Timeout(cfg.readTimeout, cfg.slowLogThreshold)));
    DialsOne(UnaryOption(Metric(name)));
  }

  /** The built-in registrations install exactly the built-in unary chain
      and the built-in stream chain. */
  lemma BuiltInShape(cfg: Config, name: string, devMode: bool, contextKeys: seq<string>)
    ensures Chain(Dials(BuiltIns(cfg, name, devMode, contextKeys)), Unary)
         == BuiltInUnary(cfg, name, devMode, contextKeys)
    ensures Chain(Dials(BuiltIns(cfg, name, devMode, contextKeys)), Stream)
         == BuiltInStream(cfg)
  {
    BuiltInDials(cfg, name, devMode, contextKeys);
    UnaryPieces(cfg, name, devMode, contextKeys);
    StreamPieces(cfg, name, devMode, contextKeys);
  }

  /** The unary chain the built-in dial options install. */
  lemma UnaryPieces(cfg: Config, name: string, devMode: bool, contextKeys: seq<string>)
    ensures Chain(BuiltInDialOptions(cfg, name, devMode, contextKeys), Unary)
         == BuiltInUnary(cfg, name, devMode, contextKeys)
  {
    var d1 := When(cfg.enableTraceInterceptor, [ChainInterceptor(Unary, Trace)]);
    var d2 := [ChainInterceptor(Unary, CustomHeader(contextKeys)), ChainInterceptor(Unary, Logger(cfg))];
    var d3 := When(devMode, [ChainInterceptor(Unary, Debug(name, cfg.addr))]);
    var d4 := When(cfg.enableAppNameInterceptor,
                   [ChainInterceptor(Unary, AppNameUnary(cfg)), ChainInterceptor(Stream, AppNameStream(cfg))]);
    var d5 := When(cfg.enableTimeoutInterceptor,
                   [ChainInterceptor(Unary, Timeout(cfg.readTimeout, cfg.slowLogThreshold))]);
    var d6 := When(cfg.enableMetricInterceptor, [ChainInterceptor(Unary, Metric(name))]);
    assert BuiltInDialOptions(cfg, name, devMode, contextKeys) == d1 + d2 + d3 + d4 + d5 + d6;
    ChainAppend6(d1, d2, d3, d4, d5, d6, Unary);
    assert Chain(d1, Unary) == When(cfg.enableTraceInterceptor, [Trace]) by {
      ChainOne(ChainInterceptor(Unary, Trace), Unary);
    }
    assert Chain(d2, Unary) == [CustomHeader(contextKeys), Logger(cfg)] by {
      ChainPair(ChainInterceptor(Unary, CustomHeader(contextKeys)), ChainInterceptor(Unary, Logger(cfg)), Unary);
    }
    assert Chain(d3, Unary) == When(devMode, [Debug(name, cfg.addr)]) by {
      ChainOne(ChainInterceptor(Unary, Debug(name, cfg.addr)), Unary);
    }
    assert Chain(d4, Unary) == When(cfg.enableAppNameInterceptor, [AppNameUnary(cfg)]) by {
      ChainPair(ChainInterceptor(Unary, AppNameUnary(cfg)), ChainInterceptor(Stream, AppNameStream(cfg)), Unary);
    }
    assert Chain(d5, Unary)
        == When(cfg.enableTimeoutInterceptor, [Timeout(cfg.readTimeout, cfg.slowLogThreshold)]) by {
      ChainOne(ChainInterceptor(Unary, Timeout(cfg.readTimeout, cfg.slowLogThreshold)), Unary);
    }
    assert Chain(d6, Unary) == When(cfg.enableMetricInterceptor, [Metric(name)]) by {
      ChainOne(ChainInterceptor(Unary, Metric(name)), Unary);
    }
  }

  /** The stream chain the built-in dial options install. */
  lemma StreamPieces(cfg: Config, name: string, devMode: bool, contextKeys: seq<string>)
    ensures Chain(BuiltInDialOptions(cfg, name, devMode, contextKeys), Stream) == BuiltInStream(cfg)
  {
    var d1 := When(cfg.enableTraceInterceptor, [ChainInterceptor(Unary, Trace)]);
    var d2 := [ChainInterceptor(Unary, CustomHeader(contextKeys)), ChainInterceptor(Unary, Logger(cfg))];
    var d3 := When(devMode, [ChainInterceptor(Unary, Debug(name, cfg.addr))]);
    var d4 := When(cfg.enableAppNameInterceptor,
                   [ChainInterceptor(Unary, AppNameUnary(cfg)), ChainInterceptor(Stream, AppNameStream(cfg))]);
    var d5 := When(cfg.enableTimeoutInterceptor,
                   [ChainInterceptor(Unary, Timeout(cfg.readTimeout, cfg.slowLogThreshold))]);
    var d6 := When(cfg.enableMetricInterceptor, [ChainInterceptor(Unary, Metric(name))]);
    assert BuiltInDialOptions(cfg, name, devMode, contextKeys) == d1 + d2 + d3 + d4 + d5 + d6;
    ChainAppend6(d1, d2, d3, d4, d5, d6, Stream);
    ChainOne(ChainInterceptor(Unary, Trace), Stream);
    ChainPair(ChainInterceptor(Unary, CustomHeader(contextKeys)), ChainInterceptor(Unary, Logger(cfg)), Stream);
    ChainOne(ChainInterceptor(Unary, Debug(name, cfg.addr)), Stream);
    ChainPair(ChainInterceptor(Unary, AppNameUnary(cfg)), ChainInterceptor(Stream, AppNameStream(cfg)), Stream);
    ChainOne(ChainInterceptor(Unary, Timeout(cfg.readTimeout, cfg.slowLogThreshold)), Stream);
    ChainOne(ChainInterceptor(Unary, Metric(name)), Stream);
  }

  // ----- Properties of the built-in chains -----

  /** Every built-in registration lands in exactly one of the two chains. */
  lemma BuiltInCount(cfg: Config, name: string, devMode: bool, contextKeys: seq<string>)
    ensures |Chain(Dials(BuiltIns(cfg, name, devMode, contextKeys)), Unary)|
         + |Chain(Dials(BuiltIns(cfg, name, devMode, contextKeys)), Stream)|
         == |BuiltIns(cfg, name, devMode, contextKeys)|
  {
    BuiltInShape(cfg, name, devMode, contextKeys);
  }

  /** Positions of the built-ins in the installed unary chain u. With t, d,
      a the 0/1 values of the trace, development-mode and app-name
      switches: trace is outermost; custom header sits at t with the logger
      right after it; debug comes right after the logger; the app-name
      unary interceptor comes next and the timeout interceptor right after
      it; metric is the innermost built-in. */
  lemma BuiltInOrder(cfg: Config, name: string, devMode: bool, contextKeys: seq<string>)
    ensures var u := Chain(Dials(BuiltIns(cfg, name, devMode, contextKeys)), Unary);
            var t, d, a := Bit(cfg.enableTraceInterceptor), Bit(devMode), Bit(cfg.enableAppNameInterceptor);
            && |u| == 2 + t + d + a + Bit(cfg.enableTimeoutInterceptor) + Bit(cfg.enableMetricInterceptor)
            && (cfg.enableTraceInterceptor ==> u[0] == Trace)
            && u[t] == CustomHeader(contextKeys)
            && u[t + 1] == Logger(cfg)
            && (devMode ==> u[t + 2] == Debug(name, cfg.addr))
            && (cfg.enableAppNameInterceptor ==> u[t + 2 + d] == AppNameUnary(cfg))
            && (cfg.enableTimeoutInterceptor ==>
                  u[t + 2 + d + a] == Timeout(cfg.readTimeout, cfg.slowLogThreshold))
            && (cfg.enableMetricInterceptor ==> u[|u| - 1] == Metric(name))
  {
    BuiltInShape(cfg, name, devMode, contextKeys);
  }

  /** In the option list, the app-name unary registration is immediately
      followed by the app-name stream registration. */
  lemma AppNamePairAdjacent(cfg: Config, name: string, devMode: bool, contextKeys: seq<string>)
    requires cfg.enableAppNameInterceptor
    ensures var b := BuiltIns(cfg, name, devMode, contextKeys);
            var j := Bit(cfg.enableTraceInterceptor) + 2 + Bit(devMode);
            b[j] == UnaryOption(AppNameUnary(cfg)) && b[j + 1] == StreamOption(AppNameStream(cfg))
  {
  }

  /** How many interceptors of kind k the built-in unary chain holds: one
      for each switched-on interceptor of that kind. */
  lemma BuiltInCountOf(cfg: Config, name: string, devMode: bool, contextKeys: seq<string>, k: Kind)
    ensures CountKind(BuiltInUnary(cfg, name, devMode, contextKeys), k)
         == Bit(cfg.enableTraceInterceptor && k == TraceKind)
            + (Bit(k == CustomHeaderKind) + Bit(k == LoggerKind))
            + Bit(devMode && k == DebugKind)
            + Bit(cfg.enableAppNameInterceptor && k == AppNameUnaryKind)
            + Bit(cfg.enableTimeoutInterceptor && k == TimeoutKind)
            + Bit(cfg.enableMetricInterceptor && k == MetricKind)
  {
    CountWhenOne(cfg.enableTraceInterceptor, Trace, k);
    CountPair(CustomHeader(contextKeys), Logger(cfg), k);
    CountWhenOne(devMode, Debug(name, cfg.addr), k);
    CountWhenOne(cfg.enableAppNameInterceptor, AppNameUnary(cfg), k);
    CountWhenOne(cfg.enableTimeoutInterceptor, Timeout(cfg.readTimeout, cfg.slowLogThreshold), k);
    CountWhenOne(cfg.enableMetricInterceptor, Metric(name), k);
    CountSum6(When(cfg.enableTraceInterceptor, [Trace]),
              [CustomHeader(contextKeys), Logger(cfg)],
              When(devMode, [Debug(name, cfg.addr)]),
              When(cfg.enableAppNameInterceptor, [AppNameUnary(cfg)]),
              When(cfg.enableTimeoutInterceptor, [Timeout(cfg.readTimeout, cfg.slowLogThreshold)]),
              When(cfg.enableMetricInterceptor, [Metric(name)]), k);
  }

  // ----- Properties of the assembled chains -----

  /** The unary chain after Build: the chain the container already had, then
      the caller's unary interceptors in the caller's order, then the
      built-ins. Likewise for the stream chain. */
  lemma CallerOptionsFirst(prior: seq<DialOption>, options: seq<Option>, cfg: Config, name: string,
                           devMode: bool, contextKeys: seq<string>)
    ensures Chain(Assembled(prior, options, cfg, name, devMode, contextKeys), Unary)
         == Chain(prior, Unary) + Chain(Dials(options), Unary) + BuiltInUnary(cfg, name, devMode, contextKeys)
    ensures Chain(Assembled(prior, options, cfg, name, devMode, contextKeys), Stream)
         == Chain(prior, Stream) + Chain(Dials(options), Stream) + BuiltInStream(cfg)
  {
    var b := Dials(BuiltIns(cfg, name, devMode, contextKeys));
    var o := Dials(options);
    DialsAppend(options, BuiltIns(cfg, name, devMode, contextKeys));
    assert Assembled(prior, options, cfg, name, devMode, contextKeys) == (prior + o) + b;
    BuiltInShape(cfg, name, devMode, contextKeys);
    forall shape: Shape
      ensures Chain((prior + o) + b, shape) == Chain(prior, shape) + Chain(o, shape) + Chain(b, shape)
    {
      ChainAppend(prior + o, b, shape);
      ChainAppend(prior, o, shape);
    }
  }

  /** When the metric switch is on, the metric interceptor is the innermost
      entry of the whole unary chain: no caller interceptor follows it. */
  lemma MetricInnermost(prior: seq<DialOption>, options: seq<Option>, cfg: Config, name: string,
                        devMode: bool, contextKeys: seq<string>)
    requires cfg.enableMetricInterceptor
    ensures var u := Chain(Assembled(prior, options, cfg, name, devMode, contextKeys), Unary);
            |u| > 0 && u[|u| - 1] == Metric(name)
  {
    CallerOptionsFirst(prior, options, cfg, name, devMode, contextKeys);
  }

  /** Whatever the caller registered: the assembled unary chain holds as many
      interceptors of kind k as the earlier and the caller's registrations
      together, plus those of the built-in unary chain. */
  lemma AssembledUnarySplit(prior: seq<DialOption>, options: seq<Option>, cfg: Config, name: string,
                            devMode: bool, contextKeys: seq<string>, k: Kind)
    ensures CountKind(Chain(Assembled(prior, options, cfg, name, devMode, contextKeys), Unary), k)
         == CountKind(Chain(prior, Unary) + Chain(Dials(options), Unary), k)
            + CountKind(BuiltInUnary(cfg, name, devMode, contextKeys), k)
  {
    CallerOptionsFirst(prior, options, cfg, name, devMode, contextKeys);
    CountAppend(Chain(prior, Unary) + Chain(Dials(options), Unary), BuiltInUnary(cfg, name, devMode, contextKeys), k);
  }

  /** The stream-chain counterpart of AssembledUnarySplit. */
  lemma AssembledStreamSplit(prior: seq<DialOption>, options: seq<Option>, cfg: Config, name: string,
                             devMode: bool, contextKeys: seq<string>, k: Kind)
    ensures CountKind(Chain(Assembled(prior, options, cfg, name, devMode, contextKeys), Stream), k)
         == CountKind(Chain(prior, Stream) + Chain(Dials(options), Stream), k)
            + CountKind(BuiltInStream(cfg), k)
  {
    CallerOptionsFirst(prior, options, cfg, name, devMode, contextKeys);
    CountAppend(Chain(prior, Stream) + Chain(Dials(options), Stream), BuiltInStream(cfg), k);
  }

  /** How many interceptors of a built-in kind k the assembled unary chain
      holds when the earlier and the caller's registrations are all caller
      interceptors: exactly the number the built-ins contribute. */
  lemma AssembledCountOf(prior: seq<DialOption>, options: seq<Option>, cfg: Config, name: string,
                         devMode: bool, contextKeys: seq<string>, k: Kind)
    requires OnlyUser(Chain(prior, Unary) + Chain(Dials(options), Unary))
    requires k != UserKind
    ensures CountKind(Chain(Assembled(prior, options, cfg, name, devMode, contextKeys), Unary), k)
         == Bit(cfg.enableTraceInterceptor && k == TraceKind)
            + (Bit(k == CustomHeaderKind) + Bit(k == LoggerKind))
            + Bit(devMode && k == DebugKind)
            + Bit(cfg.enableAppNameInterceptor && k == AppNameUnaryKind)
            + Bit(cfg.enableTimeoutInterceptor && k == TimeoutKind)
            + Bit(cfg.enableMetricInterceptor && k == MetricKind)
  {
    AssembledUnarySplit(prior, options, cfg, name, devMode, contextKeys, k);
    OnlyUserCount(Chain(prior, Unary) + Chain(Dials(options), Unary), k);
    BuiltInCountOf(cfg, name, devMode, contextKeys, k);
  }

  /** Toggle correctness of the whole assembled chains when the container's
      earlier dial options and the caller's options register only caller
      interceptors: each switched interceptor is present exactly once when
      its switch is on and absent when it is off; custom header and logger
      are present exactly once whatever the switches. */
  lemma ToggleCorrect(prior: seq<DialOption>, options: seq<Option>, cfg: Config, name: string,
                      devMode: bool, contextKeys: seq<string>)
    requires OnlyUser(Chain(prior, Unary) + Chain(Dials(options), Unary))
    requires OnlyUser(Chain(prior, Stream) + Chain(Dials(options), Stream))
    ensures var u := Chain(Assembled(prior, options, cfg, name, devMode, contextKeys), Unary);
            && CountKind(u, TraceKind) == Bit(cfg.enableTraceInterceptor)
            && CountKind(u, CustomHeaderKind) == 1
            && CountKind(u, LoggerKind) == 1
            && CountKind(u, DebugKind) == Bit(devMode)
            && CountKind(u, AppNameUnaryKind) == Bit(cfg.enableAppNameInterceptor)
            && CountKind(u, AppNameStreamKind) == 0
            && CountKind(u, TimeoutKind) == Bit(cfg.enableTimeoutInterceptor)
            && CountKind(u, MetricKind) == Bit(cfg.enableMetricInterceptor)
    ensures var s := Chain(Assembled(prior, options, cfg, name, devMode, contextKeys), Stream);
            && CountKind(s, AppNameStreamKind) == Bit(cfg.enableAppNameInterceptor)
            && CountKind(s, AppNameUnaryKind) == 0
  {
    AssembledCountOf(prior, options, cfg, name, devMode, contextKeys, TraceKind);
    AssembledCountOf(prior, options, cfg, name, devMode, contextKeys, CustomHeaderKind);
    AssembledCountOf(prior, options, cfg, name, devMode, contextKeys, LoggerKind);
    AssembledCountOf(prior, options, cfg, name, devMode, contextKeys, DebugKind);
    AssembledCountOf(prior, options, cfg, name, devMode, contextKeys, AppNameUnaryKind);
    AssembledCountOf(prior, options, cfg, name, devMode, contextKeys, AppNameStreamKind);
    AssembledCountOf(prior, options, cfg, name, devMode, contextKeys, TimeoutKind);
    AssembledCountOf(prior, options, cfg, name, devMode, contextKeys, MetricKind);
    AssembledStreamCount(prior, options, cfg, name, devMode, contextKeys, AppNameStreamKind);
    AssembledStreamCount(prior, options, cfg, name, devMode, contextKeys, AppNameUnaryKind);
  }

  /** The stream-chain counterpart of AssembledCountOf. */
  lemma AssembledStreamCount(prior: seq<DialOption>, options: seq<Option>, cfg: Config, name: string,
                             devMode: bool, contextKeys: seq<string>, k: Kind)
    requires OnlyUser(Chain(prior, Stream) + Chain(Dials(options), Stream))
    requires k != UserKind
    ensures CountKind(Chain(Assembled(prior, options, cfg, name, devMode, contextKeys), Stream), k)
         == Bit(cfg.enableAppNameInterceptor && k == AppNameStreamKind)
  {
    AssembledStreamSplit(prior, options, cfg, name, devMode, contextKeys, k);
    OnlyUserCount(Chain(prior, Stream) + Chain(Dials(options), Stream), k);
    CountWhenOne(cfg.enableAppNameInterceptor, AppNameStream(cfg), k);
  }
}
