/** The egrpc client container: the state a client is built from, how Load
    fills it from configuration, and how Build assembles the interceptor
    pipeline by applying the caller's options and then the built-in ones. */
module Egrpc {
  import opened Pipeline

  /** Structured fields attached to the container's logger. */
  datatype LogField =
    | ComponentField
    | ComponentNameField(key: string)
    | AddrField(addr: string)

  /** Why Load produced no container. */
  datatype LoadError = ParseConfigError(key: string, cause: string)

  datatype Result<T, E> = Ok(value: T) | Err(error: E)

  /** What Build hands to the client assembler: the container's name,
      configuration and logger, and the unary and stream interceptor chains
      the registered dial options install (first entry outermost). */
  datatype Component = Component(
    name: string,
    config: Config,
    logger: seq<LogField>,
    unary: seq<Interceptor>,
    stream: seq<Interceptor>)

  class Container {
    var config: Config
    var name: string
    var logger: seq<LogField>
    /** The dial options registered so far, in registration order. */
    var dialOptions: seq<DialOption>

    /** DefaultContainer: the default configuration, no name, a logger
        tagged with the component, and no dial options. */
    constructor Default(defaults: Config)
      ensures config == defaults && name == ""
      ensures logger == [ComponentField] && dialOptions == []
    {
      config := defaults;
      name := "";
      logger := [ComponentField];
      dialOptions := [];
    }

    /** Applies one option: WithDialOption registers its dial option. */
    method Apply(option: Option)
      modifies this
      ensures dialOptions == old(dialOptions) + [option.dial]
      ensures config == old(config) && name == old(name) && logger == old(logger)
    {
      dialOptions := dialOptions + [option.dial];
    }

    /** The option list Build applies: the caller's options followed by the
        built-in registrations the configuration and devMode switch on, each
        appended in turn. */
    method WithBuiltIns(options: seq<Option>, devMode: bool, contextKeys: seq<string>)
      returns (opts: seq<Option>)
      ensures opts == options + BuiltIns(config, name, devMode, contextKeys)
    {
      opts := options;
      ghost var added: seq<Option> := [];
      ghost var before := opts;
      if config.enableTraceInterceptor {
        opts := opts + [UnaryOption(Trace)];
      }
      ExtendWhen(before, options, added, config.enableTraceInterceptor, [UnaryOption(Trace)]);
      added := added + When(config.enableTraceInterceptor, [UnaryOption(Trace)]);
      before := opts;
      opts := opts + [UnaryOption(CustomHeader(contextKeys))];
      opts := opts + [UnaryOption(Logger(config))];
      ExtendWhen(before, options, added, true, [UnaryOption(CustomHeader(contextKeys)), UnaryOption(Logger(config))]);
      added := added + [UnaryOption(CustomHeader(contextKeys)), UnaryOption(Logger(config))];
      before := opts;
      if devMode {
        opts := opts + [UnaryOption(Debug(name, config.addr))];
      }
      ExtendWhen(before, options, added, devMode, [UnaryOption(Debug(name, config.addr))]);
      added := added + When(devMode, [UnaryOption(Debug(name, config.addr))]);
      before := opts;
      if config.enableAppNameInterceptor {
        opts := opts + [UnaryOption(AppNameUnary(config))];
        opts := opts + [StreamOption(AppNameStream(config))];
      }
      ExtendWhen(before, options, added, config.enableAppNameInterceptor,
                 [UnaryOption(AppNameUnary(config)), StreamOption(AppNameStream(config))]);
      added := added + When(config.enableAppNameInterceptor, [UnaryOption(AppNameUnary(config)), StreamOption(AppNameStream(config))]);
      before := opts;
      if config.enableTimeoutInterceptor {
        opts := opts + [UnaryOption(Timeout(config.readTimeout, config.slowLogThreshold))];
      }
      ExtendWhen(before, options, added, config.enableTimeoutInterceptor,
                 [UnaryOption(Timeout(config.readTimeout, config.slowLogThreshold))]);
      added := added + When(config.enableTimeoutInterceptor, [UnaryOption(Timeout(config.readTimeout, config.slowLogThreshold))]);
      before := opts;
      if config.enableMetricInterceptor {
        opts := opts + [UnaryOption(Metric(name))];
      }
      ExtendWhen(before, options, added, config.enableMetricInterceptor, [UnaryOption(Metric(name))]);
      added := added + When(config.enableMetricInterceptor, [UnaryOption(Metric(name))]);
      assert [] + When(config.enableTraceInterceptor, [UnaryOption(Trace)])
          == When(config.enableTraceInterceptor, [UnaryOption(Trace)]);
    }

    /** Appends the built-in registrations to the caller's options, applies
        every option once in list order, and returns the component built
        from the resulting state. devMode stands for the process-wide
        development-mode flag and contextKeys for the declared set of custom
        context keys. */
    method Build(options: seq<Option>, devMode: bool, contextKeys: seq<string>) returns (comp: Component)
      modifies this
      ensures config == old(config) && name == old(name) && logger == old(logger)
      ensures dialOptions == Assembled(old(dialOptions), options, config, name, devMode, contextKeys)
      ensures comp.name == name && comp.config == config && comp.logger == logger
      ensures comp.unary == Chain(dialOptions, Unary) && comp.stream == Chain(dialOptions, Stream)
      ensures comp.unary
           == Chain(old(dialOptions), Unary) + Chain(Dials(options), Unary)
              + BuiltInUnary(config, name, devMode, contextKeys)
      ensures comp.stream
           == Chain(old(dialOptions), Stream) + Chain(Dials(options), Stream) + BuiltInStream(config)
      ensures config.enableMetricInterceptor ==> |comp.unary| > 0 && comp.unary[|comp.unary| - 1] == Metric(name)
    {
      var opts := WithBuiltIns(options, devMode, contextKeys);

      for i := 0 to |opts|
        invariant config == old(config) && name == old(name) && logger == old(logger)
        invariant dialOptions == old(dialOptions) + Dials(opts[..i])
      {
        Apply(opts[i]);
        DialsSnoc(opts, i);
      }
      assert opts[..|opts|] == opts;

      CallerOptionsFirst(old(dialOptions), options, config, name, devMode, contextKeys);
      if config.enableMetricInterceptor {
        MetricInnermost(old(dialOptions), options, config, name, devMode, contextKeys);
      }
      comp := Component(name, config, logger, Chain(dialOptions, Unary), Chain(dialOptions, Stream));
    }
  }

  /** Load: starts from DefaultContainer, tags the logger with the key, and
      decodes the configuration under key over the defaults. unmarshal
      stands for the configuration decoder. A decoding failure is fatal, so
      no container comes back; otherwise the logger is also tagged with the
      address and the container is named after the key. */
  method Load(key: string, defaults: Config, unmarshal: (string, Config) -> Result<Config, string>)
    returns (r: Result<Container, LoadError>)
    ensures r.Err? <==> unmarshal(key, defaults).Err?
    ensures r.Err? ==> r.error == ParseConfigError(key, unmarshal(key, defaults).error)
    ensures r.Ok? ==> fresh(r.value)
    ensures r.Ok? ==> r.value.name == key && r.value.config == unmarshal(key, defaults).value
    ensures r.Ok? ==> r.value.logger == [ComponentField, ComponentNameField(key), AddrField(r.value.config.addr)]
    ensures r.Ok? ==> r.value.dialOptions == []
  {
    var c := new Container.Default(defaults);
    c.logger := c.logger + [ComponentNameField(key)];
    var decoded := unmarshal(key, c.config);
    if decoded.Err? {
      return Err(ParseConfigError(key, decoded.error));
    }
    c.config := decoded.value;
    c.logger := c.logger + [AddrField(c.config.addr)];
    c.name := key;
    return Ok(c);
  }
}
