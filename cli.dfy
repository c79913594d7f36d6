/**
 The command-line front end `serve.process_args`: after argument parsing it
 marks the options as coming from the console, takes the remaining positional
 arguments as the root directory when no `--path` was given, and prints one
 line for the outcome the server reports.

 Argument parsing itself and `path.resolve` are calls into other packages; the
 parsed options and the resolver are inputs.
 */
module Cli {
  import opened Js
  import opened Defaults

  /** `xs.join(sep)`. */
  function Join(xs: seq<string>, sep: string): (r: string)
    ensures xs == [] ==> r == ""
    ensures |xs| == 1 ==> r == xs[0]
    decreases |xs|
  {
    if xs == [] then ""
    else if |xs| == 1 then xs[0]
    else xs[0] + sep + Join(xs[1..], sep)
  }

  /** `s.split(c)` for a one-character separator: the pieces between the separators. */
  function Split(s: string, c: char): (r: seq<string>)
    ensures |r| >= 1
    decreases |s|
  {
    if s == [] then [""]
    else if s[0] == c then [""] + Split(s[1..], c)
    else
      var rest := Split(s[1..], c);
      [[s[0]] + rest[0]] + rest[1..]
  }

  lemma {:induction false} SplitWithout(x: string, c: char)
    requires c !in x
    ensures Split(x, c) == [x]
    decreases |x|
  {
    if x != [] {
      SplitWithout(x[1..], c);
      assert [x[0]] + x[1..] == x;
    }
  }

  lemma {:induction false} SplitAfter(x: string, c: char, rest: string)
    requires c !in x
    ensures Split(x + [c] + rest, c) == [x] + Split(rest, c)
    decreases |x|
  {
    var s := x + [c] + rest;
    if x == [] {
      assert s[1..] == rest;
    } else {
      assert s[1..] == x[1..] + [c] + rest;
      SplitAfter(x[1..], c, rest);
      assert [x[0]] + x[1..] == x;
    }
  }

  /** Positional arguments without spaces can be read back from the joined path:
      joining loses nothing. */
  lemma {:induction false} JoinSplitRoundTrip(xs: seq<string>)
    requires |xs| >= 1
    requires forall i :: 0 <= i < |xs| ==> ' ' !in xs[i]
    ensures Split(Join(xs, " "), ' ') == xs
    decreases |xs|
  {
    if |xs| == 1 {
      SplitWithout(xs[0], ' ');
    } else {
      JoinSplitRoundTrip(xs[1..]);
      assert xs[0] + " " + Join(xs[1..], " ") == xs[0] + [' '] + Join(xs[1..], " ");
      SplitAfter(xs[0], ' ', Join(xs[1..], " "));
      assert [xs[0]] + xs[1..] == xs;
    }
  }

  /** One more argument adds the separator and that argument at the end. */
  lemma {:induction false} JoinSnoc(xs: seq<string>, x: string, sep: string)
    requires |xs| >= 1
    ensures Join(xs + [x], sep) == Join(xs, sep) + sep + x
    decreases |xs|
  {
    if |xs| == 1 {
      assert (xs + [x])[1..] == [x];
    } else {
      JoinSnoc(xs[1..], x, sep);
      assert (xs + [x])[1..] == xs[1..] + [x];
    }
  }

  /** A directory name the shell split into words at single spaces
      (`swank My Documents`) is rebuilt exactly by joining the words with a
      space, whatever the name contains. */
  lemma {:induction false} SplitJoinRoundTrip(name: string)
    ensures Join(Split(name, ' '), " ") == name
    decreases |name|
  {
    if name != [] {
      var rest := Split(name[1..], ' ');
      SplitJoinRoundTrip(name[1..]);
      if name[0] == ' ' {
        assert ([""] + rest)[1..] == rest;
      } else if |rest| > 1 {
        var r := [[name[0]] + rest[0]] + rest[1..];
        assert r[1..] == rest[1..];
        assert Join(rest, " ") == rest[0] + " " + Join(rest[1..], " ");
      }
      assert [name[0]] + name[1..] == name;
    }
  }

  /** Lines 202-204: the root directory is the resolved, space-joined list of
      positional arguments only when no path was given and some remain. */
  function PathFallback(path: Value, remain: seq<string>, resolve: string -> string): (r: Value)
    ensures Truthy(path) ==> r == path
    ensures !Truthy(path) && |remain| > 0 ==> r == Str(resolve(Join(remain, " ")))
    ensures remain == [] ==> r == path
  {
    if !Truthy(path) && |remain| > 0 then Str(resolve(Join(remain, " "))) else path
  }

  /** Without `--path`, a directory name the shell split at spaces becomes the
      root under its own name. */
  lemma SpacedDirectoryIsRoot(path: Value, name: string, resolve: string -> string)
    requires !Truthy(path)
    ensures PathFallback(path, Split(name, ' '), resolve) == Str(resolve(name))
  {
    SplitJoinRoundTrip(name);
  }

  /** Lines 199-204: the options `serve` receives from the command line. */
  function CommandLineOptions(parsed: Settings, remain: seq<string>, resolve: string -> string): (r: Settings)
    ensures r.console == Bool(true)
    ensures r.path == PathFallback(parsed.path, remain, resolve)
    ensures r == parsed.(console := r.console, path := r.path)
  {
    parsed.(console := Bool(true), path := PathFallback(parsed.path, remain, resolve))
  }

  /** Started from the command line, an undefined `log` would be turned on by
      setDefaults. This is the evidently intended chain: `process_args` calls
      `serve` (line 205), and nothing in swank.js calls `serve.setDefaults`. */
  lemma CommandLineLogsByDefault(parsed: Settings, remain: seq<string>, resolve: string -> string,
                                 errs: seq<Value>, env: Env)
    requires parsed.log == Undefined
    ensures Defaulted(CommandLineOptions(parsed, remain, resolve), errs, env).opts.log == Bool(true)
  {
  }

  /** A single positional argument reaches the resolver unchanged and becomes
      the root; with a `--path` it is ignored. */
  lemma SinglePositionalIsRoot(path: Value, dir: string, resolve: string -> string)
    ensures !Truthy(path) ==> PathFallback(path, [dir], resolve) == Str(resolve(dir))
    ensures Truthy(path) ==> PathFallback(path, [dir], resolve) == path
  {
  }

  /** The line printed for the server's outcome (colours left aside). */
  datatype Line = ErrorLine(text: string) | WarningLine(text: string) | UrlLine(text: string)

  /** Lines 205-213: error beats warning, warning beats the URL. */
  function Report(error: Value, warning: Value, url: Value): (r: Line)
    ensures r.ErrorLine? <==> Truthy(error)
    ensures r.WarningLine? <==> !Truthy(error) && Truthy(warning)
    ensures r.UrlLine? <==> !Truthy(error) && !Truthy(warning)
    ensures r.ErrorLine? ==> r.text == "ERROR: " + ToString(error)
    ensures r.WarningLine? ==> r.text == "WARNING: " + ToString(warning)
    ensures r.UrlLine? ==> r.text == "\n>  " + ToString(url) + "\n\n"
  {
    if Truthy(error) then ErrorLine("ERROR: " + ToString(error))
    else if Truthy(warning) then WarningLine("WARNING: " + ToString(warning))
    else UrlLine("\n>  " + ToString(url) + "\n\n")
  }

  /** The printed line depends only on the winning argument: once there is an
      error, the warning and the URL are irrelevant; once there is a warning and
      no error, the URL is. */
  lemma ReportIgnoresLosers(error: Value, warning: Value, url: Value, warning': Value, url': Value)
    ensures Truthy(error) ==> Report(error, warning, url) == Report(error, warning', url')
    ensures !Truthy(error) && Truthy(warning) ==> Report(error, warning, url) == Report(Null, warning, url')
  {
  }

  /** A numeric error code is recoverable from the printed line. */
  lemma ErrorCodeReadable(code: SafeInt, warning: Value, url: Value)
    requires code != 0
    ensures Report(Num(code), warning, url) == ErrorLine("ERROR: " + NumberToString(code))
    ensures ParseNumber(Report(Num(code), warning, url).text[|"ERROR: "|..]) == Some(code)
  {
  }

  /** An error object passed back as `err` (line 95) is printed with its message. */
  lemma ErrorObjectReported(message: string, warning: Value, url: Value)
    ensures message != "" ==> Report(NewError(message), warning, url) == ErrorLine("ERROR: Error: " + message)
    ensures message == "" ==> Report(NewError(message), warning, url) == ErrorLine("ERROR: Error")
  {
  }
}
