# swank: option defaults, command-line fallback, outcome reporting and watch decisions

swank is a development web server. It serves a directory over HTTP. It can also
watch the directory and make browsers reload through a live-reload server, and
it can tunnel the port through ngrok. Everything in it except a few decisions
is handed to other packages. This project models those decisions, all in
`swank.js`, and proves what they promise:

- `serve.setDefaults` fills in a configuration object in place. It sets the
  root path, the port (the explicit one, then `$PORT`, then 8000), the host
  name, the logging flag and the live-reload port (35729). When ngrok was
  requested it loads the package, and if that fails it appends a message to the
  error list. Then it calls its continuation. It is modelled as the class
  `Defaults.Options`, whose method `SetDefaults` overwrites the fields and
  appends to a `Defaults.ErrorList`. The method is proved equal to the pure
  function `Defaults.Defaulted`, and the properties are stated on that function.
- `serve.process_args` marks the options as coming from the console. When no
  `--path` was given, it joins the leftover positional arguments with spaces and
  uses them as the root. It then prints one line for the server's outcome:
  an error beats a warning, and a warning beats the URL (`Cli`).
- `serve.watch` handles each watcher callback `(f, curr, prev)`. The "tree
  walked" signal (`f` an object or null, both stats null) only continues
  start-up. Every other callback produces one `/changed?files=f` request to the
  live-reload port and, when logging is on, a log line (`Watch`).

JavaScript values are the datatype `Js.Value`. `Js.Truthy` and `Js.Or` model
what `||` and `if` test, so undefined, null, false, 0, NaN and "" all fall back
to the default. `Js.ToString` models the conversion behind `'ERROR: ' + error`.

Inputs rather than behaviour: `process.env.PORT`, `os.hostname()`, `__dirname`
and the result of `require('ngrok')` form `Defaults.Env`. The resolver
`path.resolve` is a function parameter of the command-line functions.

Where the code and its own comments differ, the model follows the code:

- The comment at swank.js:26 gives `log: true` as the default. `setDefaults`
  (swank.js:113) turns an undefined `log` on only when `console` is truthy,
  which only the command line sets.
- The comment at swank.js:110 says the path defaults to the current working
  directory (and swank.js:21 shows `'.'`). The code uses `__dirname`, the
  directory of the module itself.

Other behaviour of the code that the model keeps:

- The caller's `host` is never kept. It is always `os.hostname()`, or
  `'localhost'` when that is empty (swank.js:112).
- swank.js runs in strict mode (line 1). A truthy `liveReload` that is not an
  object (say `true` or `"x"`) makes the assignment on line 116 throw a
  TypeError, so the continuation is not called. `Defaults.Step.TypeErrorThrown`
  models that.
- "Tree walked" is tested with `typeof f === 'object'`, which is also true
  for `f === null`. So `(null, null, null)` is suppressed as well.
- `serve.watch` refers to `host` and `liveReloadOpts`, which it never defines.
  The model uses what was evidently meant: `opts.host` and
  `opts.liveReload.port`. The inline copy of the branch (swank.js:67-83) uses
  the undefined `log`. The model uses `opts.log` there too, and the same
  function `Watch.OnWatchEvent` stands for both copies. The only difference is
  that the inline copy does nothing when the walk finishes.
- Nothing in swank.js calls `serve.setDefaults` or `serve.watch`. They are
  defined at lines 108 and 128. `process_args` calls `serve` (line 205), whose
  body uses neither. The lemmas that run setDefaults before the command line's
  use of the options or before the watch decision (`Cli.CommandLineLogsByDefault`,
  `Watch.NotifyAfterDefaults`, `Watch.LogAfterDefaults`) describe the evidently
  intended chain setDefaults → watch, not a call sequence the code performs.

## Model

| member | source | states |
|---|---|---|
| Js.Truthy | swank.js:110-116 | ToBoolean, as every `\|\|` here and the tests at lines 118, 202 and 206-208 use it: a value is falsy exactly when it is undefined, null, false, 0, NaN or the empty string |
| Js.Or | swank.js:110-116 | `a \|\| b` gives `a` when it is truthy and `b` otherwise; the result is truthy iff either operand is |
| Js.TypeOf | swank.js:132 | `typeof` is `"object"` exactly for null and objects, and `"string"` exactly for strings |
| Js.Decimal | swank.js:207 | an integer's decimal text is non-empty, all digits, with no leading zero unless the number is 0 |
| Js.DecimalRoundTrip | swank.js:207 | reading a number's decimal text back gives the number |
| Js.NumberToString | swank.js:207 | a number's text starts with `-` exactly when the number is negative |
| Js.NumberToStringRoundTrip | swank.js:207 | printing an integer loses nothing: the text parses back to the same integer |
| Js.ToString | swank.js:207-211 | the text `+` appends is the string itself for strings, and parses back to the number for numbers |
| Js.ErrorToString | swank.js:207 | an error object prints as its name alone when the message is empty, the message alone when the name is empty, and otherwise as the name, `: ` and the message |
| Js.NewError | swank.js:95 | an error object (ngrok's `err`, taken to be made by `new Error(m)`) is truthy and of type `object`, so passed back as `err` it takes the ERROR branch at line 206 |
| Js.ErrorObjectText | swank.js:207 | `'' + new Error(m)` is `Error: m`, or `Error` for an empty message |
| Defaults.EnvPort | swank.js:111 | `process.env.PORT` is undefined or a string; it is truthy exactly when the variable is set to a non-empty text, which it then is, so `PORT=` falls through to 8000 like an unset variable |
| Defaults.HostOf | swank.js:112 | the host is the machine's name, or `localhost` when that is empty; it is never falsy |
| Defaults.Defaulted | swank.js:108-126 | path kept when truthy, otherwise the module directory; port is the explicit one, then `$PORT`, then 8000, and always truthy; host is the machine's; a defined `log` (false and null included) survives, an undefined one becomes `console`'s truthiness; `liveReload` stays the same object with all other keys, and its port becomes 35729 only when falsy; a truthy primitive `liveReload` throws at line 116 after path, port, host and log are written, and liveReload, ngrok and errs stay as they were; `errs` keeps its entries and gains exactly one message iff ngrok was requested and cannot be loaded; ngrok becomes the loaded module when it loads; console, watch and help are untouched |
| Defaults.DefaultedIdempotent | swank.js:108-126 | running setDefaults again on its own result changes no option, and adds the ngrok message again iff the package is still missing |
| Defaults.ErrorList.Push | swank.js:122 | `errs.push(v)` appends `v` and keeps the earlier entries |
| Defaults.Options.SetDefaults | swank.js:108-126 | the object's new fields and the new error list are exactly what `Defaulted` gives; the continuation is called once, with this same object and list, exactly when no TypeError is thrown |
| Cli.Join | swank.js:203 | joining no arguments gives the empty string, and one argument gives it unchanged |
| Cli.JoinSplitRoundTrip | swank.js:203 | joining positional arguments that contain no space with single spaces loses nothing: splitting at spaces gives them back |
| Cli.JoinSnoc | swank.js:203 | joining one more argument appends the separator and that argument to the earlier join |
| Cli.SplitJoinRoundTrip | swank.js:203 | a directory name cut into words at every single space is rebuilt exactly by `join(' ')`, spaces inside the name included |
| Cli.SpacedDirectoryIsRoot | swank.js:202-204 | without `--path`, `swank My Documents` resolves the directory `My Documents`: the words the name was split into become the root under the name itself |
| Cli.PathFallback | swank.js:202-204 | a truthy path is kept; a falsy path with positional arguments left becomes the resolved, space-joined arguments; with none left the path is untouched |
| Cli.CommandLineLogsByDefault | swank.js:113 | if setDefaults ran on the options the command line builds (`console` true, line 199), an unset `log` would become true; the code itself never makes that call |
| Cli.SinglePositionalIsRoot | swank.js:202-204 | one positional directory becomes the resolved root when no path was given, and is ignored otherwise |
| Cli.Report | swank.js:205-213 | the printed line is an ERROR iff the error is truthy, a WARNING iff there is a warning and no error, and the URL iff there is neither; each line carries its argument's text |
| Cli.ReportIgnoresLosers | swank.js:206-212 | once there is an error, the warning and URL do not affect the line; once there is a warning and no error, the URL does not |
| Cli.ErrorCodeReadable | swank.js:207 | a non-zero numeric error (0 is falsy and loses to the warning or URL) is printed as `ERROR: ` followed by text that parses back to the same number |
| Cli.ErrorObjectReported | swank.js:95 | ngrok's `err`, taken to be made by `new Error(m)` and handed on to the callback, prints as `ERROR: Error: m` when `m` is non-empty, and as `ERROR: Error` when it is empty |
| Watch.OnWatchEvent | swank.js:131-146 | a callback is the "tree walked" signal (no notification) iff `f` is an object or null and both stats are null; every other callback gives exactly one URL object: protocol `http`, path `/changed`, query `files=f`, the options' host and live-reload port, with a `File changed: f` line iff logging is on |
| Watch.FileNameAlwaysNotifies | swank.js:132 | a callback naming a file always notifies, with that name as the `files` query |
| Watch.NotifyAfterDefaults | swank.js:135-141 | in the intended chain (never wired up in the code), after setDefaults every notification goes to the machine's host on a truthy port: the caller's live-reload port if it had one, 35729 otherwise |
| Watch.LogAfterDefaults | swank.js:142-144 | in the intended chain (never wired up in the code), after setDefaults a change is logged iff `log` was truthy, or was unset and `console` was truthy |

## Left out

- HTTP serving, middleware, MIME types and request logging (swank.js:54, 164-173): these are calls into connect, serve-static and morgan.
- The live-reload server, the directory watcher and the notification request (swank.js:65-66, 129-130, 145): these are network and filesystem I/O. Only the decision per callback is modelled.
- `url.format`: `Watch.OnWatchEvent` gives the object passed to it. Serialisation and query escaping are in Node's url module, not in this model.
- `serve.tunnel` and the ngrok branches of `serve` (swank.js:60-64, 93-96, 151-162) are a foreign network client and are not part of this model. The `err` that `ngrok.connect` hands to the callback at swank.js:95 is taken to be an Error object as `new Error(m)` builds it (`Js.NewError`); swank.js itself never builds one.
- The body of `serve` (swank.js:17-104) is not modelled, apart from its inline watch branch (swank.js:67-83), which `Watch.OnWatchEvent` also stands for. In that copy the port is the one swank.js:63 has just taken from the tunnel URL; the model takes it from `opts.liveReload`, because the tunnel is not part of this model. The rest of the body reads the undefined names `log`, `ngrok`, `host`, `port` and `warning`, and module loading already fails at swank.js:106 (`conect`).
- Argument parsing with nopt, the help text and the coloured console output (swank.js:40-51, 179-198, 207-211): these belong to other packages or to presentation. `Cli.Report` gives the text without colour codes.
- `path.resolve`, `os.hostname()`, `process.env` and `require('ngrok')` are inputs, as parameters or `Defaults.Env`.
- Js.Value: numbers are the safe integers (|n| ≤ 2^53 - 1) or NaN. Fractions, infinities, `-0` and the larger integers a double can hold (2^60, say) are not modelled, and functions are not distinguished from other objects.
- Js.NumberToString: gives exact decimal digits, which is what JavaScript prints for a safe integer. Larger numbers, which JavaScript rounds and from 1e21 writes in exponent form, are outside `Js.SafeInt` and so outside the model.
- Js.ToString: every object without the error prototype, arrays included, is shown as `[object Object]` (JavaScript prints an array as its elements joined by commas), and an error object through Error.prototype.toString with its own string `name` and `message`. Prototype chains, inherited or non-string `name`/`message`, and user-defined `toString` methods are not modelled.
- Cli.SpacedDirectoryIsRoot: takes the words to be the name cut at every single space. A shell collapses runs of spaces and drops leading and trailing ones, so a name such as `My  Documents` (two spaces) reaches line 203 as two words and is rebuilt with one space; the shell's word splitting is not part of this model.
- Defaults.Options.SetDefaults: `liveReload` is held as a value. When the caller shares that object with other code, the in-place update of its `port` is not visible to that code in this model.
