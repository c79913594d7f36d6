/**
 `serve.setDefaults`: fills in a configuration object in place, appends to the
 error list when the optional tunnel package was requested but is missing, and
 hands both on to its continuation.

 The process environment, the host name, the module directory and the outcome
 of `require('ngrok')` are inputs (`Env`). The options object is a class whose
 fields the method overwrites; `Defaulted` is the same step on values, and the
 properties of setDefaults are proved about it.
 */
module Defaults {
  import opened Js

  /** What setDefaults reads from outside the options object. */
  datatype Env = Env(
    portVar: Option<string>,   // process.env.PORT (absent, or the variable's text)
    hostname: string,          // os.hostname()
    dirname: string,           // __dirname
    ngrok: Option<Value>)      // the module require('ngrok') returns, or None when it throws

  /** The message pushed when the tunnel package cannot be loaded. */
  const NgrokMissing: string :=
    "ngrok is optional and not installed automatically. Run `npm install ngrok` to use this feature."

  const DefaultPort: int := 8000
  const DefaultLiveReloadPort: int := 35729

  /** The fields of an options object that swank reads or writes. */
  datatype Settings = Settings(
    path: Value, port: Value, host: Value, log: Value, console: Value,
    liveReload: Value, ngrok: Value, watch: Value, help: Value)

  /** How setDefaults ends: it calls its continuation, or line 116 raises a
      TypeError (strict mode forbids adding `port` to a primitive `liveReload`).
      Either way `opts` and `errs` are the state it leaves behind. */
  datatype Step =
    | Continued(opts: Settings, errs: seq<Value>)
    | TypeErrorThrown(opts: Settings, errs: seq<Value>)

  /** `process.env.PORT`: an environment variable is absent or a string, and a
      variable set to the empty string falls through `||` like an absent one. */
  function EnvPort(env: Env): (r: Value)
    ensures r.Undefined? || r.Str?
    ensures Truthy(r) <==> env.portVar.Some? && env.portVar.value != ""
    ensures Truthy(r) ==> r.s == env.portVar.value
  {
    match env.portVar
    case None => Undefined
    case Some(s) => Str(s)
  }

  /** `os.hostname() || 'localhost'`. */
  function HostOf(env: Env): (r: Value)
    ensures Truthy(r)
    ensures env.hostname != "" ==> r == Str(env.hostname)
    ensures env.hostname == "" ==> r == Str("localhost")
  {
    Or(Str(env.hostname), Str("localhost"))
  }

  /** setDefaults on values: the state it leaves and whether it calls back. */
  function Defaulted(o: Settings, errs: seq<Value>, env: Env): (r: Step)
    // path: kept when truthy, the module directory otherwise
    ensures Truthy(o.path) ==> r.opts.path == o.path
    ensures !Truthy(o.path) ==> r.opts.path == Str(env.dirname)
    // port: explicit value, then $PORT, then 8000; never falsy afterwards
    ensures Truthy(o.port) ==> r.opts.port == o.port
    ensures !Truthy(o.port) && Truthy(EnvPort(env)) ==> r.opts.port == EnvPort(env)
    ensures !Truthy(o.port) && !Truthy(EnvPort(env)) ==> r.opts.port == Num(DefaultPort)
    ensures Truthy(r.opts.port)
    // host: always the machine's name, whatever the caller put there
    ensures r.opts.host == HostOf(env)
    // log: any defined value survives (false and null included)
    ensures o.log != Undefined ==> r.opts.log == o.log
    ensures o.log == Undefined ==> r.opts.log == Bool(Truthy(o.console))
    // the fields setDefaults does not touch
    ensures r.opts.console == o.console && r.opts.watch == o.watch && r.opts.help == o.help
    // liveReload: a truthy primitive makes line 116 throw
    ensures r.TypeErrorThrown? <==> Truthy(o.liveReload) && !o.liveReload.Obj?
    ensures r.TypeErrorThrown? ==> r.opts.liveReload == o.liveReload && r.opts.ngrok == o.ngrok && r.errs == errs
    ensures r.Continued? ==>
              && r.opts.liveReload.Obj?
              && Truthy(Get(r.opts.liveReload, "port"))
              && (forall k :: k in r.opts.liveReload.props <==> k in (if o.liveReload.Obj? then o.liveReload.props.Keys else {}) + {"port"})
              && (o.liveReload.Obj? ==> r.opts.liveReload.proto == o.liveReload.proto)
              && (!o.liveReload.Obj? ==> r.opts.liveReload.proto == ObjectProto)
              && (o.liveReload.Obj? ==> forall k :: k in o.liveReload.props && k != "port" ==>
                    r.opts.liveReload.props[k] == o.liveReload.props[k])
    ensures r.Continued? && o.liveReload.Obj? && Truthy(Get(o.liveReload, "port")) ==>
              Get(r.opts.liveReload, "port") == Get(o.liveReload, "port")
    ensures r.Continued? && !(o.liveReload.Obj? && Truthy(Get(o.liveReload, "port"))) ==>
              Get(r.opts.liveReload, "port") == Num(DefaultLiveReloadPort)
    // ngrok and errs: one message more exactly when it was requested and is missing
    ensures r.Continued? ==> |r.errs| >= |errs| && r.errs[..|errs|] == errs
    ensures r.Continued? ==> (|r.errs| == |errs| + 1 <==> Truthy(o.ngrok) && env.ngrok.None?)
    ensures r.Continued? && |r.errs| != |errs| + 1 ==> r.errs == errs
    ensures r.Continued? && |r.errs| == |errs| + 1 ==> r.errs[|errs|] == Str(NgrokMissing)
    ensures r.Continued? && Truthy(o.ngrok) && env.ngrok.Some? ==> r.opts.ngrok == env.ngrok.value
    ensures r.Continued? && !(Truthy(o.ngrok) && env.ngrok.Some?) ==> r.opts.ngrok == o.ngrok
  {
    var path := Or(o.path, Str(env.dirname));
    var port := Or(Or(o.port, EnvPort(env)), Num(DefaultPort));
    var host := HostOf(env);
    var log := if o.log == Undefined then Bool(Truthy(o.console)) else o.log;
    var liveReload := Or(o.liveReload, Obj(map[], ObjectProto));
    var lrPort := Or(Get(liveReload, "port"), Num(DefaultLiveReloadPort));
    var partial := o.(path := path, port := port, host := host, log := log, liveReload := liveReload);
    if !liveReload.Obj? then
      TypeErrorThrown(partial, errs)
    else
      var next := partial.(liveReload := Obj(liveReload.props["port" := lrPort], liveReload.proto));
      if Truthy(o.ngrok) then
        match env.ngrok
        case Some(m) => Continued(next.(ngrok := m), errs)
        case None => Continued(next, errs + [Str(NgrokMissing)])
      else
        Continued(next, errs)
  }

  /** Once setDefaults has completed, a second run leaves the options as they
      are; with the tunnel package still missing it adds the message again. */
  lemma DefaultedIdempotent(o: Settings, errs: seq<Value>, more: seq<Value>, env: Env)
    requires Defaulted(o, errs, env).Continued?
    ensures Defaulted(Defaulted(o, errs, env).opts, more, env).Continued?
    ensures Defaulted(Defaulted(o, errs, env).opts, more, env).opts == Defaulted(o, errs, env).opts
    ensures Defaulted(Defaulted(o, errs, env).opts, more, env).errs ==
              if Truthy(o.ngrok) && env.ngrok.None? then more + [Str(NgrokMissing)] else more
  {
  }

  /** The array `errs`: setDefaults only ever appends to it. */
  class ErrorList {
    var items: seq<Value>

    constructor (items: seq<Value>)
      ensures this.items == items
    {
      this.items := items;
    }

    /** `errs.push(v)`. */
    method Push(v: Value)
      modifies this
      ensures items == old(items) + [v]
    {
      items := items + [v];
    }
  }

  /** How the imperative setDefaults ends: its continuation is called with the
      very objects it was given, or a TypeError escapes and nothing is called. */
  datatype Outcome = CalledBack(opts: Options, errs: ErrorList) | TypeError

  /** A configuration object whose fields setDefaults overwrites in place. */
  class Options {
    var path: Value
    var port: Value
    var host: Value
    var log: Value
    var console: Value
    var liveReload: Value
    var ngrok: Value
    var watch: Value
    var help: Value

    constructor (s: Settings)
      ensures Fields() == s
    {
      path, port, host, log, console := s.path, s.port, s.host, s.log, s.console;
      liveReload, ngrok, watch, help := s.liveReload, s.ngrok, s.watch, s.help;
    }

    /** The current field values. */
    function Fields(): Settings
      reads this
    {
      Settings(path, port, host, log, console, liveReload, ngrok, watch, help)
    }

    /** `serve.setDefaults(opts, errs, callback)`: the new fields and the new
        error list are those `Defaulted` gives, and the continuation is called
        exactly when `Defaulted` continues, with this object and `errs`. */
    method SetDefaults(errs: ErrorList, env: Env) returns (outcome: Outcome)
      modifies this, errs
      ensures Fields() == Defaulted(old(Fields()), old(errs.items), env).opts
      ensures errs.items == Defaulted(old(Fields()), old(errs.items), env).errs
      ensures outcome.CalledBack? <==> Defaulted(old(Fields()), old(errs.items), env).Continued?
      ensures outcome.CalledBack? ==> outcome.opts == this && outcome.errs == errs
    {
      path := Or(path, Str(env.dirname));
      port := Or(Or(port, EnvPort(env)), Num(DefaultPort));
      host := HostOf(env);
      log := if log == Undefined then (if Truthy(console) then Bool(true) else Bool(false)) else log;

      liveReload := Or(liveReload, Obj(map[], ObjectProto));
      var lrPort := Or(Get(liveReload, "port"), Num(DefaultLiveReloadPort));
      if !liveReload.Obj? {
        outcome := TypeError;
        return;
      }
      liveReload := Obj(liveReload.props["port" := lrPort], liveReload.proto);

      if Truthy(ngrok) {
        match env.ngrok
        case Some(m) =>
          ngrok := m;
        case None =>
          errs.Push(Str(NgrokMissing));
      }
      outcome := CalledBack(this, errs);
    }
  }
}
