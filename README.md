# egrpc client container — interceptor pipeline assembly

This project models the client container of the `egrpc` package
(`client/egrpc/container.go`). A container holds a client's configuration,
its name and its logger. `DefaultContainer` creates one from the default
configuration. `Load` fills one from the configuration stored under a key.
`Container.Build` then assembles the client's interceptor pipeline. It takes
the caller's options and appends the built-in registrations:

- trace, when enabled;
- custom header, always;
- logger, always;
- debug, in development mode;
- the app-name interceptor, once for unary calls and once for stream calls, when enabled;
- timeout, when enabled;
- metric, when enabled.

It then applies every option to the container, in list order, and returns
the component built from the container's state.

The model has two modules:

- `Pipeline` (`pipeline.dfy`) is a pure specification. It defines the
  interceptors, with the arguments each factory captures, and the dial
  options that register them. It also defines the built-in registration
  list `BuiltIns` and the projection `Chain`. `Chain` gives the unary or
  stream interceptor chain that a list of dial options installs. As in
  gRPC's chaining options, the first registered interceptor is the
  outermost. The lemmas cover the order, presence and multiplicity of
  every built-in interceptor, both in the built-in list and in the whole
  assembled chain.
- `Egrpc` (`container.dfy`) is the imperative part. `Container` is a class
  with one field per piece of container state. Its dial options are a
  `seq` field that each applied option extends. `Build` grows its option
  list by appends and then applies the options in a loop. It is proved
  against `Pipeline.Assembled`, the specification of the dial options it
  leaves behind. `Load` is a method that returns either a fresh container
  or an error.

Order of the caller's options. `Build` appends the built-ins to the
caller's options (lines 46-75) and then applies the whole list (lines
77-79). So the caller's interceptors come first, and a caller's unary
interceptor is outer to every built-in (`Pipeline.CallerOptionsFirst`).
When metrics are enabled, the metric interceptor is the innermost entry of
the whole unary chain (`Pipeline.MetricInnermost`).

Inputs from outside container.go are parameters:

- the development-mode flag (`eapp.IsDevelopmentMode`) is `devMode`;
- the declared custom context keys (`transport.CustomContextKeys`) are `contextKeys`;
- the configuration decoder (`econf.UnmarshalKey`) is `unmarshal`;
- `DefaultConfig`, declared in config.go of the same package, is the parameter `defaults`.

## Model

| member | source | states |
|---|---|---|
| Egrpc.Container.Default | client/egrpc/container.go:23-28 | A default container holds exactly the default configuration, an empty name, a logger tagged only with the component field, and no dial options. |
| Egrpc.Load | client/egrpc/container.go:31-41 | Load fails exactly when decoding the key fails, and the error carries the key and the decoder's cause. On success the result is a fresh container: the name equals the key, the configuration is the one decoded over the defaults, the logger carries the component, key and address fields in that order, and no dial options are registered yet. |
| Egrpc.Container.Apply | client/egrpc/container.go:77-79 | Applying one option appends its dial option to the container's registrations and leaves the configuration, name and logger unchanged. |
| Egrpc.Container.WithBuiltIns | client/egrpc/container.go:45-75 | The conditional appends produce exactly the caller's options followed by `BuiltIns` of the container's configuration, name, development mode and context keys. |
| Egrpc.Container.Build | client/egrpc/container.go:44-82 | Every option is applied once, in list order: the container's dial options become its prior ones followed by the dials of the caller's options and then the built-ins. Configuration, name and logger are unchanged. The component carries them together with the installed chains. Its unary chain is the prior unary chain, then the caller's unary interceptors in the caller's order, then the built-in unary chain. The stream chain has the same form. When metrics are enabled, the unary chain ends with the metric interceptor. |
| Pipeline.BuiltIns | client/egrpc/container.go:46-75 | The number of built-in registrations is 2 + [trace] + [dev] + 2·[app-name] + [timeout] + [metric]. |
| Pipeline.Dials | client/egrpc/container.go:77-79 | Applying a list of options registers exactly one dial option per option. |
| Pipeline.DialsAppend | client/egrpc/container.go:77-79 | Applying a concatenation of option lists registers the first list's dial options and then the second's, so application preserves order. |
| Pipeline.DialsSnoc | client/egrpc/container.go:77-79 | Applying one more option extends the registered dial options by exactly that option's dial option. |
| Pipeline.ChainAppend | client/egrpc/container.go:77-79 | The chain that a concatenation of dial options installs is the first part's chain followed by the second part's, for either shape. |
| Pipeline.CountAppend | client/egrpc/container.go:44-82 | The number of interceptors of a kind in a concatenated chain is the sum over its parts. |
| Pipeline.BuiltInShape | client/egrpc/container.go:46-75 | The built-in registrations install `BuiltInUnary` as the unary chain: trace, custom header, logger, debug, app-name unary, timeout and metric, each present when its switch is on. They install `BuiltInStream` as the stream chain: the app-name stream interceptor when enabled, and nothing else. |
| Pipeline.BuiltInCount | client/egrpc/container.go:46-75 | Every built-in registration lands in exactly one of the two chains. |
| Pipeline.BuiltInOrder | client/egrpc/container.go:46-75 | In the built-in unary chain u, with t, d, a the 0/1 values of the trace, development and app-name switches: \|u\| = 2+t+d+a+[timeout]+[metric]. When trace is enabled, u[0] is trace. u[t] is the custom header with the declared keys, and u[t+1] is the logger. In development mode u[t+2] is debug, with the container's name and address. When enabled, u[t+2+d] is the app-name unary interceptor and u[t+2+d+a] is timeout with the configured read timeout and slow-log threshold. When enabled, metric with the container's name is last. |
| Pipeline.AppNamePairAdjacent | client/egrpc/container.go:62-65 | With the app-name switch on, the unary app-name registration sits at position t+2+d of the built-in list, and the stream app-name registration immediately follows it. |
| Pipeline.BuiltInCountOf | client/egrpc/container.go:46-75 | For every kind, the built-in unary chain holds one interceptor of that kind per switched-on registration of it: trace, debug, app-name, timeout and metric iff their switch is on; custom header and logger always exactly once. |
| Pipeline.CallerOptionsFirst | client/egrpc/container.go:44-79 | After Build, the unary chain is the prior unary chain, then the caller's unary interceptors in their order, then the built-in unary chain. The stream chain has the same form with the built-in stream chain. |
| Pipeline.MetricInnermost | client/egrpc/container.go:71-79 | With metrics enabled, the metric interceptor is the last entry of the whole assembled unary chain, after every caller interceptor. |
| Pipeline.AssembledUnarySplit | client/egrpc/container.go:44-79 | For any earlier and caller registrations, the number of interceptors of each kind in the assembled unary chain is their number in the earlier and caller part plus their number in the built-in unary chain. |
| Pipeline.AssembledStreamSplit | client/egrpc/container.go:44-79 | The same split of the per-kind count for the assembled stream chain, with the built-in stream chain. |
| Pipeline.AssembledCountOf | client/egrpc/container.go:44-79 | When the prior and caller registrations are caller interceptors only, the assembled unary chain holds exactly as many interceptors of each built-in kind as the built-ins contribute. |
| Pipeline.AssembledStreamCount | client/egrpc/container.go:62-79 | When the prior and caller stream registrations are caller interceptors only, the assembled stream chain holds the app-name stream interceptor once iff the switch is on, and no other built-in. |
| Pipeline.ToggleCorrect | client/egrpc/container.go:44-79 | When the prior and caller registrations are caller interceptors only, the whole assembled unary chain holds each toggled interceptor exactly once when its switch is on and never otherwise, and the custom header and logger exactly once. The stream chain holds the app-name stream interceptor iff its switch is on. No app-name interceptor lands in the chain of the other shape. |

## Left out

- The interceptors' run-time behaviour (tracing, header copying, logging, debug output, app-name metadata, deadlines and slow-call warnings, metrics) is not modelled. An interceptor is identified by its factory and the arguments the factory captures: the context keys, the configuration (logger and app-name interceptors), the name and address (debug), the read timeout and slow-log threshold (timeout), and the name (metric).
- The logger is a sequence of the structured fields attached to it. The logger handle passed to the logger and timeout interceptors is not recorded in those interceptors.
- `logger.Panic` on a decoding failure aborts the process. The model returns an `Err` result instead, so no container comes back.
- `DefaultConfig` and the `Config` type (config.go) are not part of this model. The defaults are a parameter, and `Config` holds only the fields `Build` and `Load` read.
- `WithDialOption` and the other options of options.go are not part of this model. Every option is modelled as registering one dial option with the container, held in a `dialOptions` field.
- Caller options that change other container state are not modelled.
- `econf.UnmarshalKey` is the function parameter `unmarshal`. It receives the key and the configuration as it stands after `DefaultContainer`.
- `eapp.IsDevelopmentMode` is the parameter `devMode`, and `transport.CustomContextKeys` is the parameter `contextKeys`.
- `newComponent` and the gRPC dial it leads to (connection set-up, blocking dials, the client handle) are not modelled. The component carries the name, configuration and logger, plus the unary and stream chains that the registered dial options install.
- Concurrency is not modelled. `Build` is a sequential method on one container.
- Pipeline.ToggleCorrect: its counts assume that the prior and caller registrations hold only caller interceptors. A caller may register a built-in interceptor again, and the count then includes that copy; Pipeline.AssembledUnarySplit and Pipeline.AssembledStreamSplit give the count without that assumption.
- Pipeline.AssembledCountOf: same assumption as Pipeline.ToggleCorrect, for the unary chain.
- Pipeline.AssembledStreamCount: same assumption as Pipeline.ToggleCorrect, for the stream chain.
