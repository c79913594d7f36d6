/**
 The decision `serve.watch` makes for each callback of the directory watcher
 `(f, curr, prev)`: the signal that the initial walk of the tree has finished
 is not a change and only lets start-up continue; every other callback asks
 the live-reload server to reload `f`, by requesting `/changed?files=f` on the
 live-reload port, and logs the file name when logging is on.

 What is produced is the URL object handed to `url.format` and the log line;
 formatting, the request and the watcher itself are outside the model.
 */
module Watch {
  import opened Js
  import opened Defaults

  /** The argument of `url.format`. */
  datatype UrlObject = UrlObject(
    protocol: string, hostname: Value, port: Value, pathname: string, query: seq<(string, Value)>)

  /** What one watcher callback leads to. */
  datatype Reaction =
    | WalkFinished                                     // continue start-up (line 133)
    | Notify(url: UrlObject, logLine: Option<string>)  // request the URL, print the line if any

  /** `typeof f === 'object' && prev === null && curr === null`. */
  predicate IsWalkFinished(f: Value, curr: Value, prev: Value)
  {
    TypeOf(f) == "object" && prev == Null && curr == Null
  }

  /** Lines 131-146 (the same branch is repeated at lines 67-83). */
  function OnWatchEvent(o: Settings, f: Value, curr: Value, prev: Value): (r: Reaction)
    requires !o.liveReload.Undefined? && !o.liveReload.Null?
    ensures r.WalkFinished? <==> (f.Null? || f.Obj?) && curr == Null && prev == Null
    ensures r.Notify? ==> r.url.protocol == "http" && r.url.pathname == "/changed"
    ensures r.Notify? ==> r.url.hostname == o.host && r.url.port == Get(o.liveReload, "port")
    ensures r.Notify? ==> r.url.query == [("files", f)]
    ensures r.Notify? ==> (r.logLine.Some? <==> Truthy(o.log))
    ensures r.Notify? && r.logLine.Some? ==> r.logLine.value == "File changed: " + ToString(f)
  {
    if IsWalkFinished(f, curr, prev) then WalkFinished
    else
      var url := UrlObject("http", o.host, Get(o.liveReload, "port"), "/changed", [("files", f)]);
      Notify(url, if Truthy(o.log) then Some("File changed: " + ToString(f)) else None)
  }

  /** A callback naming a file (a string) is always a change, whatever the stats. */
  lemma FileNameAlwaysNotifies(o: Settings, name: string, curr: Value, prev: Value)
    requires !o.liveReload.Undefined? && !o.liveReload.Null?
    ensures OnWatchEvent(o, Str(name), curr, prev).Notify?
    ensures OnWatchEvent(o, Str(name), curr, prev).url.query == [("files", Str(name))]
  {
  }

  /** With the options setDefaults produced, every notification goes to a real
      port: the caller's live-reload port if it had one, 35729 otherwise. This
      is the evidently intended chain; swank.js defines `serve.setDefaults` and
      `serve.watch` but never calls either. */
  lemma NotifyAfterDefaults(o: Settings, errs: seq<Value>, env: Env, f: Value, curr: Value, prev: Value)
    requires Defaulted(o, errs, env).Continued?
    requires !IsWalkFinished(f, curr, prev)
    ensures var d := Defaulted(o, errs, env).opts;
            var u := OnWatchEvent(d, f, curr, prev).url;
            && Truthy(u.port)
            && u.hostname == HostOf(env)
            && (o.liveReload.Obj? && Truthy(Get(o.liveReload, "port")) ==> u.port == Get(o.liveReload, "port"))
            && (!(o.liveReload.Obj? && Truthy(Get(o.liveReload, "port"))) ==> u.port == Num(DefaultLiveReloadPort))
  {
  }

  /** With the options setDefaults produced, a file change is logged exactly
      when logging was asked for, or left unset on the command line. Like the
      lemma above, this describes the intended chain, which is never wired up. */
  lemma LogAfterDefaults(o: Settings, errs: seq<Value>, env: Env, f: Value, curr: Value, prev: Value)
    requires Defaulted(o, errs, env).Continued?
    requires !IsWalkFinished(f, curr, prev)
    ensures OnWatchEvent(Defaulted(o, errs, env).opts, f, curr, prev).logLine.Some? <==>
              if o.log == Undefined then Truthy(o.console) else Truthy(o.log)
  {
  }
}
