/**
 * The start-up settings of dov-bear/src/javascript/main.js: each is the
 * first truthy value among the command-line option (under its name and
 * its alias), the environment variable and a literal default.
 */
module Config {
  import opened Wrappers
  import opened JsValues

  const DefaultPort := 3000
  const DefaultMetricsPort := 3100
  const DefaultInstanceName := "dov-bear"

  /** `opt[key]`: the parsed command-line options, `undefined` when a key is absent. */
  function Opt(opt: map<string, JsValue>, key: string): (r: JsValue)
    ensures key in opt ==> r == opt[key]
    ensures key !in opt ==> r == Undefined
    ensures Truthy(r) ==> key in opt
  {
    if key in opt then opt[key] else Undefined
  }

  /** `process.env[key]`, a string or `undefined`. */
  function EnvString(env: map<string, string>, key: string): (r: JsValue)
    ensures key in env ==> r == Str(env[key])
    ensures key !in env ==> r == Undefined
    ensures Truthy(r) <==> key in env && env[key] != ""
  {
    if key in env then Str(env[key]) else Undefined
  }

  /**
   * `parseInt(process.env[key])`; an unset variable is parsed from the
   * text "undefined", which has no digits, so it gives NaN.
   */
  function EnvInt(env: map<string, string>, parseInt: string -> Option<int>, key: string): (r: JsValue)
    ensures r == NaN || r.Num?
    ensures r.Num? <==> key in env && parseInt(env[key]).Some?
    ensures r.Num? ==> r.n == parseInt(env[key]).value
    ensures Truthy(r) <==> key in env && parseInt(env[key]).Some? && parseInt(env[key]).value != 0
  {
    if key in env then Number(parseInt(env[key])) else NaN
  }

  /** `opt['port'] || opt['p'] || parseInt(process.env.PORT) || 3000` */
  function Port(opt: map<string, JsValue>, env: map<string, string>, parseInt: string -> Option<int>): (r: JsValue)
    ensures Truthy(r)
  {
    FourWayPrecedence(Opt(opt, "port"), Opt(opt, "p"), EnvInt(env, parseInt, "PORT"), Num(DefaultPort));
    OrChain([Opt(opt, "port"), Opt(opt, "p"), EnvInt(env, parseInt, "PORT"), Num(DefaultPort)])
  }

  /** `opt['name'] || opt['n'] || process.env.INSTANCE_NAME || 'dov-bear'` */
  function InstanceName(opt: map<string, JsValue>, env: map<string, string>): (r: JsValue)
    ensures Truthy(r)
  {
    FourWayPrecedence(Opt(opt, "name"), Opt(opt, "n"), EnvString(env, "INSTANCE_NAME"), Str(DefaultInstanceName));
    OrChain([Opt(opt, "name"), Opt(opt, "n"), EnvString(env, "INSTANCE_NAME"), Str(DefaultInstanceName)])
  }

  /** `opt['hash'] || process.env.INSTANCE_HASH || ''` */
  function InstanceHash(opt: map<string, JsValue>, env: map<string, string>): (r: JsValue)
    ensures r == Opt(opt, "hash") || r == EnvString(env, "INSTANCE_HASH") || r == Str("")
  {
    OrChain([Opt(opt, "hash"), EnvString(env, "INSTANCE_HASH"), Str("")])
  }

  /** `opt['metricsPort'] || opt['m'] || parseInt(process.env.METRICS_PORT) || 3100` */
  function MetricsPort(opt: map<string, JsValue>, env: map<string, string>, parseInt: string -> Option<int>): (r: JsValue)
    ensures Truthy(r)
  {
    FourWayPrecedence(Opt(opt, "metricsPort"), Opt(opt, "m"), EnvInt(env, parseInt, "METRICS_PORT"), Num(DefaultMetricsPort));
    OrChain([Opt(opt, "metricsPort"), Opt(opt, "m"), EnvInt(env, parseInt, "METRICS_PORT"), Num(DefaultMetricsPort)])
  }

  /** Which operand of a four-operand chain whose last operand is truthy wins. */
  lemma FourWayPrecedence(a: JsValue, b: JsValue, c: JsValue, d: JsValue)
    requires Truthy(d)
    ensures var r := OrChain([a, b, c, d]);
      Truthy(r) &&
      (Truthy(a) ==> r == a) &&
      (!Truthy(a) && Truthy(b) ==> r == b) &&
      (!Truthy(a) && !Truthy(b) && Truthy(c) ==> r == c) &&
      (!Truthy(a) && !Truthy(b) && !Truthy(c) ==> r == d)
  {
    var vals := [a, b, c, d];
    if Truthy(a) {
      FirstTruthyWins(vals, 0);
    } else if Truthy(b) {
      FirstTruthyWins(vals, 1);
    } else if Truthy(c) {
      FirstTruthyWins(vals, 2);
    } else {
      FirstTruthyWins(vals, 3);
    }
  }

  /**
   * The listen port: the `port` option, then the `p` entry, then a
   * nonzero PORT, then 3000; a 0 or NaN at any stage falls through.
   */
  lemma PortPrecedence(opt: map<string, JsValue>, env: map<string, string>, parseInt: string -> Option<int>)
    ensures var r := Port(opt, env, parseInt);
      var cli, alias, fromEnv := Opt(opt, "port"), Opt(opt, "p"), EnvInt(env, parseInt, "PORT");
      Truthy(r) &&
      (Truthy(cli) ==> r == cli) &&
      (!Truthy(cli) && Truthy(alias) ==> r == alias) &&
      (!Truthy(cli) && !Truthy(alias) && Truthy(fromEnv) ==> r == fromEnv) &&
      (!Truthy(cli) && !Truthy(alias) && !Truthy(fromEnv) ==> r == Num(3000))
  {
    FourWayPrecedence(Opt(opt, "port"), Opt(opt, "p"), EnvInt(env, parseInt, "PORT"), Num(DefaultPort));
  }

  /** A PORT that parses to a nonzero number is used exactly when no truthy option is given. */
  lemma EnvPortUsed(opt: map<string, JsValue>, env: map<string, string>, parseInt: string -> Option<int>, n: int)
    requires !Truthy(Opt(opt, "port")) && !Truthy(Opt(opt, "p"))
    requires "PORT" in env && parseInt(env["PORT"]) == Some(n) && n != 0
    ensures Port(opt, env, parseInt) == Num(n)
  {
    PortPrecedence(opt, env, parseInt);
  }

  /** The metrics port: `metricsPort`, then `m`, then a nonzero METRICS_PORT, then 3100. */
  lemma MetricsPortPrecedence(opt: map<string, JsValue>, env: map<string, string>, parseInt: string -> Option<int>)
    ensures var r := MetricsPort(opt, env, parseInt);
      var cli, alias, fromEnv := Opt(opt, "metricsPort"), Opt(opt, "m"), EnvInt(env, parseInt, "METRICS_PORT");
      Truthy(r) &&
      (Truthy(cli) ==> r == cli) &&
      (!Truthy(cli) && Truthy(alias) ==> r == alias) &&
      (!Truthy(cli) && !Truthy(alias) && Truthy(fromEnv) ==> r == fromEnv) &&
      (!Truthy(cli) && !Truthy(alias) && !Truthy(fromEnv) ==> r == Num(3100))
  {
    FourWayPrecedence(Opt(opt, "metricsPort"), Opt(opt, "m"), EnvInt(env, parseInt, "METRICS_PORT"), Num(DefaultMetricsPort));
  }

  /** The instance name: `name`, then `n`, then a nonempty INSTANCE_NAME, then "dov-bear". */
  lemma InstanceNamePrecedence(opt: map<string, JsValue>, env: map<string, string>)
    ensures var r := InstanceName(opt, env);
      var cli, alias, fromEnv := Opt(opt, "name"), Opt(opt, "n"), EnvString(env, "INSTANCE_NAME");
      Truthy(r) &&
      (Truthy(cli) ==> r == cli) &&
      (!Truthy(cli) && Truthy(alias) ==> r == alias) &&
      (!Truthy(cli) && !Truthy(alias) && Truthy(fromEnv) ==> r == fromEnv) &&
      (!Truthy(cli) && !Truthy(alias) && !Truthy(fromEnv) ==> r == Str("dov-bear"))
  {
    FourWayPrecedence(Opt(opt, "name"), Opt(opt, "n"), EnvString(env, "INSTANCE_NAME"), Str(DefaultInstanceName));
  }

  /**
   * The instance hash: `hash`, then a nonempty INSTANCE_HASH, then the
   * empty string, which is the one default here that is itself falsy.
   */
  lemma InstanceHashPrecedence(opt: map<string, JsValue>, env: map<string, string>)
    ensures var r := InstanceHash(opt, env);
      var cli, fromEnv := Opt(opt, "hash"), EnvString(env, "INSTANCE_HASH");
      (Truthy(cli) ==> r == cli) &&
      (!Truthy(cli) && Truthy(fromEnv) ==> r == fromEnv) &&
      (!Truthy(cli) && !Truthy(fromEnv) ==> r == Str(""))
  {
    var vals := [Opt(opt, "hash"), EnvString(env, "INSTANCE_HASH"), Str("")];
    if Truthy(vals[0]) {
      FirstTruthyWins(vals, 0);
    } else if Truthy(vals[1]) {
      FirstTruthyWins(vals, 1);
    } else {
      AllFalsyYieldsLast(vals);
    }
  }
}
