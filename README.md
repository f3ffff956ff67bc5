# ingress-nginx-errors responder, modelled in Dafny

The model covers the custom default backend for ingress-nginx. It takes two
signalling headers on a request for `/`:
- `X-Code` is the status code of the error page to render.
- `X-Format` is the media type the client accepts.

From these the backend picks a pre-rendered template `"{code}.{subtype}"`
in its templates directory. If that file exists it answers 200 with the
file's bytes. Otherwise it answers 404 with an empty body.

Files:
- `wrappers.dfy` — `Option` and `Result`.
- `decimal.dfy` — the `u32` in the middle of the filename:
  - `Parse` models Rust's `str::parse::<u32>`: empty input, a lone sign, an optional `+`, then a digit loop that checks for overflow.
  - `Render` models `format!("{}", n)`.
  - The parser's meaning is given independently by `IsU32Numeral` and `Value`.
- `filesystem.dfy` — the filesystem as a map from paths (sequences of components) to entries (regular file, directory, or an unreadable entry that records whether it is a directory), with `open` and `read_to_end` as they behave on POSIX.
- `responder.dfy` — the decision made by `Svc::call`:
  - the path gate, `X-Code` with its fallback to 404, and `X-Format` with its fallback to `html`;
  - the filename, the lookup, and the response;
  - the classes `Svc` and `MakeSvc`. `Svc.Call` appends the filename to the `templatesDir` field in place, as `self.templates_dir.push(response)` does. `Svc.CallFixed` is the corrected call, which joins the name onto a copy.
- `connection.dfy` — what that in-place push does to the later requests of one connection (see Findings).

The environment is a set of parameters:
- `Libraries.headerText` stands for `HeaderValue::to_str`.
- `Libraries.parseMime` stands for `Mime::from_str`.
- The `FileTree` argument is the state of the disk when a request is handled.

In these places the model follows the code:
- A template path that opens but cannot be read panics, through `read_to_end(..).unwrap()`. It is not answered with 404. On POSIX a directory opens for reading and then fails to read, so this happens when the path names a directory.
- The templates directory is not immutable: every root request extends it.
- The code has no traversal guard of its own. `NameIsPlainComponent` states what safety rests on: the media-type parser never returns a subtype that contains `/`.
- The code is a `u32`, so anything above 4294967295 falls back to 404. A leading `+` is accepted.

## Model

| member | source | states |
|---|---|---|
| `Decimal.Scan` | src/main.rs:63-68 | the digit loop never reports `Empty`; whatever it accepts is all digits and at least the starting value. Its exact meaning is in `ScanMeaning` and `ScanRejects` |
| `Decimal.Parse` | src/main.rs:63-69 | accepts exactly the strings that are an optional `+` followed by at least one ASCII digit with value at most 4294967295, yields that value, and reports `Empty` exactly for the empty string |
| `Decimal.ScanMeaning` | src/main.rs:63-64 | on a digit string the digit loop yields `acc * 10^n + value` when it fits in 32 bits and reports overflow otherwise |
| `Decimal.ScanRejects` | src/main.rs:63-68 | the digit loop refuses every string that holds a non-digit |
| `Decimal.Render` | src/main.rs:78 | the decimal rendering of a code is a non-empty digit string whose value is the code, with no leading zero except for `0` itself |
| `Decimal.ValueHead` | src/main.rs:63-64 | reading digits from the front agrees with the positional value: first digit times `10^(n-1)` plus the value of the rest |
| `Decimal.RenderParse` | src/main.rs:63-78 | parsing the rendering of any `u32` gives the same value back |
| `Decimal.ParseRender` | src/main.rs:78 | rendering the value of a canonical numeral gives back that numeral |
| `Decimal.ValuePositive` | src/main.rs:78 | a digit string that does not start with `0` has a positive value |
| `Decimal.RenderInjective` | src/main.rs:78 | different codes render differently |
| `Decimal.LeadingZero` | src/main.rs:63-64 | a leading zero does not change the parse, so `0500` reads as 500 |
| `Decimal.RenderTooLarge` | src/main.rs:63-68 | a numeral above 4294967295 is refused as an overflow |
| `Decimal.Examples` | src/main.rs:259-269 | `x500` is an invalid digit, `0500` is 500, and 404 and 500 render as `404` and `500` |
| `FileSystem.Open` | src/main.rs:93 | opening succeeds exactly on an existing entry that is not unreadable and gives that entry; a missing path is `NotFound` |
| `FileSystem.ReadToEnd` | src/main.rs:95-97 | reading succeeds exactly on a regular file and gives all its bytes |
| `FileSystem.NothingBelowNonDirectory` | src/main.rs:92-93 | in a real directory tree nothing exists below a path that is missing or is not a directory of any kind; a directory without read permission can still hold entries |
| `Responder.CodeOf` | src/main.rs:61-71 | the code is 404 when `X-Code` is absent or not a header string; otherwise it is the value of the text when that is a `u32` numeral, and 404 when it is not |
| `Responder.SubtypeOf` | src/main.rs:73-90 | the subtype is that of the parsed `X-Format` media type when the header is present, a header string and a media type, and `html` otherwise |
| `Responder.LoadTemplate` | src/main.rs:93-107 | a regular file gives 200 with exactly its bytes, a directory panics through the `unwrap`, and anything else gives an empty 404 |
| `Responder.Respond` | src/main.rs:49-107 | a path other than `/` gives an empty 404 whatever the headers; every response is 200 or an empty 404; only a root request can panic |
| `Responder.RespondFound` | src/main.rs:92-107 | on `/` the answer is 200 with bytes `b` exactly when the candidate path is a regular file holding `b`, and an empty 404 exactly when the path is missing or unreadable |
| `Responder.FileName` | src/main.rs:78-90 | the filename is the canonical decimal digits of the code, then `.`, then the subtype, and nothing else |
| `Responder.TemplateNameReadsBack` | src/main.rs:61-90 | the code and the subtype a request selects can be read back from its filename: up to the first `.` the name parses as the code, and after it is the subtype |
| `Responder.FileNameInjective` | src/main.rs:78 | different (code, subtype) pairs give different filenames |
| `Responder.TemplateNamesAgree` | src/main.rs:61-90 | two requests select the same file exactly when their codes and their subtypes agree |
| `Responder.FormatFallback` | src/main.rs:73-90 | the filename is `"{code}.html"` exactly when `X-Format` is absent, not a header string, not a media type, or has subtype `html` |
| `Responder.TypeDiscarded` | src/main.rs:76-78 | two formats with the same subtype, such as `application/json` and `text/json`, select the same file |
| `Responder.BadCodeIsDefault` | src/main.rs:61-71 | an `X-Code` that is not a header string or not a `u32` gives the same answer as no `X-Code` |
| `Responder.AbsentCodeIs404` | src/main.rs:61-71 | no `X-Code` gives the same answer as `X-Code: 404` |
| `Responder.AbsentFormatIsHtml` | src/main.rs:73-90 | no `X-Format` gives the same answer as an `X-Format` that parses as `text/html` |
| `Responder.NameIsPlainComponent` | src/main.rs:76-92 | when no parsed subtype holds `/`, the filename holds no `/`, is neither `.` nor `..`, and starts with a digit, so the file looked up sits directly in the templates directory |
| `Responder.FormattedAsJsonTest` | src/main.rs:207-224 | codes 404 and 500 with `application/json` give 200 with the bytes of `404.json` and `500.json` |
| `Responder.FormattedAsHtmlTest` | src/main.rs:226-243 | codes 404 and 500 with `text/html` give 200 with the bytes of `404.html` and `500.html` |
| `Responder.HtmlByDefaultTest` | src/main.rs:245-256 | `X-Code: 500` without `X-Format` gives 200 with the bytes of `500.html` |
| `Responder.ErroneousCodeTest` | src/main.rs:258-269 | `X-Code: x500` gives 200 with the bytes of `404.html` |
| `Responder.ServesRegular` | src/main.rs:92-101 | a root request whose template path is a regular file is answered 200 with exactly that file's bytes |
| `Responder.SelectsRenderedCode` | src/main.rs:61-90 | when `X-Code` reads as the digits of a code and `X-Format` parses to a media type, the request selects `"{code}.{subtype}"` |
| `Responder.ServesFormatted` | src/main.rs:61-101 | a root request whose `X-Code` reads as the digits of a code and whose `X-Format` parses is answered 200 with the bytes of the regular file `files/{code}.{subtype}` |
| `Responder.EmptyNotFoundTests` | src/main.rs:271-295 | `X-Code: 403` with no `403.html`, and any request to `/boo`, give an empty 404 |
| `Responder.Svc.constructor` | src/main.rs:35-37 | a new service holds the given templates directory |
| `Responder.Svc.Call` | src/main.rs:49-108 | the outcome is `Respond` over the directory held before the call; a non-root path leaves `templatesDir` unchanged; a root path appends exactly the template filename and changes nothing else |
| `Responder.Svc.CallFixed` | src/main.rs:49-108 | the corrected call: the outcome is `Respond` over the held directory, which the call leaves unchanged |
| `Responder.MakeSvc.constructor` | src/main.rs:116-118 | a new factory holds the given templates directory |
| `Responder.MakeSvc.Call` | src/main.rs:130-132 | returns a fresh service whose directory equals the factory's, and leaves the factory unchanged |
| `Connection.NextDir` | src/main.rs:92 | after a call the directory is unchanged for a non-root path, and for `/` it is one component longer with the old directory as prefix |
| `Connection.DirAfterStep` | src/main.rs:92 | the directory after the first `i` requests is the directory after the first request, then `i - 1` more |
| `Connection.Serve` | src/main.rs:92-107 | as written, request `i` of a connection is answered over the directory that the `i` calls before it left behind (`DirAfter`); no outcome before the last is a panic; and a connection that answers fewer requests than it received ends in a panic |
| `Connection.ServeFixed` | src/main.rs:92-107 | as intended, every request of a connection gets the outcome a fresh service over the configured directory would give, so a repeated request gets the same outcome; the connection stops only at a panic |
| `Connection.ServeBelowMissing` | src/main.rs:92-93 | once the held directory lies at or below a path that is missing or not a directory of any kind, every request is answered with an empty 404 |
| `Connection.LaterRequestsStarve` | src/main.rs:92-93 | as written, after a first root request whose template path is missing or not a directory of any kind, every later request on the same connection is answered with an empty 404, whatever its path and headers |
| `Connection.RepeatedRequestExample` | src/main.rs:92-93 | with `files/404.html` present, the same header-less request twice gets the file and then an empty 404 as written, and the file both times as intended |
| `Connection.TwoRequestsOnOneConnection` | src/main.rs:130-132 | on the classes: a service from `MakeSvc.Call` answers a first root request over the factory's directory and, on a real tree, any second request with an empty 404 whenever the first template path is missing or not a directory of any kind |
| `Connection.TwoRequestsFixed` | src/main.rs:130-132 | with `Svc.CallFixed`, the same request twice on one service gets the same outcome both times, that of a fresh service over the factory's directory |

## Left out

- The hyper `Service` plumbing is not modelled: `poll_ready`, futures, `Body` and `Response::builder`. It is framework glue with no decision in it.
- The `eprintln!` diagnostics are not modelled; they are only logging. The `ParseError` kind kept by `Decimal.Parse` is what they would print.
- `HeaderValue::to_str` and `Mime::from_str` are parameters, not definitions. They are foreign library code, so any lower-casing or validation they do is not modelled.
- Header-map lookup, meaning case-insensitive names and the first of several values, is not modelled. A request carries the value of `X-Code` and of `X-Format` directly.
- Real file I/O is replaced by a map from paths to entries, read at one instant. Errors other than a missing file, a permission refusal and reading a directory are not modelled.
- A filename containing `/` is kept as one path component. The operating system would split it; `NameIsPlainComponent` gives the condition under which no split can happen.
- `PathBuf::push` is modelled as appending a component. It replaces the path only for an absolute argument, and the filename always starts with a digit, so it is never absolute.
- Command-line parsing, address binding, the startup checks on the templates directory, and `main` are process bootstrap. They are not modelled.
- Paths are normalised sequences of components. The configured `./files` is the component `files`: a leading `.` is dropped, and `.` and `..` inside a path are not resolved.
- A directory without read permission is an `Unreadable` entry that can still hold entries. Search and read permission are not modelled further, and neither are symbolic links.
- Concurrency across connections is not modelled: each connection has its own `Svc`.
- `Connection.Serve`: how hyper dispatches requests on a keep-alive connection is not part of this model. It is assumed to call the connection's one service once per request, in order.

## Findings

| source | as written | input that shows it | evidently intended | confidence | as-written member | corrected member |
|---|---|---|---|---|---|---|
| src/main.rs:92 | `self.templates_dir.push(response)` changes the service's own directory, and one service answers every request on a connection | two requests on one keep-alive connection, each to `/` with no headers, with `files/404.html` present: the second looks up `files/404.html/404.html` and gets an empty 404 | each request is looked up in the configured directory, e.g. by joining the name onto a copy | medium; not executed | `Connection.LaterRequestsStarve` | `Connection.ServeFixed`, `Responder.Svc.CallFixed` |
