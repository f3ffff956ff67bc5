/**
 * The request-to-response decision of the error-page responder: the path
 * gate, the `X-Code` and `X-Format` headers reduced to a template filename
 * `"{code}.{subtype}"`, and the lookup of that file under the templates
 * directory. `Svc` keeps the templates directory as a field that each
 * served request extends in place; `MakeSvc` hands out one `Svc` per
 * connection.
 */
module Responder {
  import opened Wrappers
  import opened FileSystem
  import Decimal

  const Root: string := "/"
  const DefaultFormat: string := "html"
  const DefaultCode: Decimal.U32 := 404

  /** The raw bytes of a header value. */
  type HeaderValue = seq<byte>

  /** What `call` reads of a request: its URI path and the values of `X-Code` and `X-Format`. */
  datatype Request = Request(path: string, xCode: Option<HeaderValue>, xFormat: Option<HeaderValue>)

  /** A parsed media type `typeName/subtype`. */
  datatype MediaType = MediaType(typeName: string, subtype: string)

  /**
   * The two library calls `call` relies on: `HeaderValue::to_str` (None when
   * the value is not a valid header string) and `Mime::from_str` (None when
   * the text is not a media type).
   */
  datatype Libraries = Libraries(headerText: HeaderValue -> Option<string>, parseMime: string -> Option<MediaType>)

  datatype Response = Response(status: nat, body: seq<byte>)

  /** What one call produces: a response, or a panic of the connection's thread of work (the `unwrap` of a failed read). */
  datatype Outcome = Served(response: Response) | Panicked

  const EmptyNotFound: Response := Response(404, [])

  /** The code that selects the template: `X-Code` as a `u32`, else `DefaultCode`. */
  function CodeOf(header: Option<HeaderValue>, libs: Libraries): (code: Decimal.U32)
    ensures header.None? ==> code == DefaultCode
    ensures header.Some? && libs.headerText(header.value).None? ==> code == DefaultCode
    ensures header.Some? && libs.headerText(header.value).Some? ==>
      var text := libs.headerText(header.value).value;
      code == if Decimal.IsU32Numeral(text) then Decimal.NumeralValue(text) else DefaultCode
  {
    match header
    case None => DefaultCode
    case Some(value) =>
      match libs.headerText(value)
      case None => DefaultCode
      case Some(text) =>
        match Decimal.Parse(text)
        case Ok(n) => n
        case Err(_) => DefaultCode
  }

  /** True when `X-Format` is present, a valid header string, and a media type. */
  predicate FormatAccepted(header: Option<HeaderValue>, libs: Libraries) {
    header.Some? && libs.headerText(header.value).Some? &&
    libs.parseMime(libs.headerText(header.value).value).Some?
  }

  /** The subtype that selects the template: that of the `X-Format` media type, else `DefaultFormat`. */
  function SubtypeOf(header: Option<HeaderValue>, libs: Libraries): (subtype: string)
    ensures !FormatAccepted(header, libs) ==> subtype == DefaultFormat
    ensures FormatAccepted(header, libs) ==>
      subtype == libs.parseMime(libs.headerText(header.value).value).value.subtype
  {
    match header
    case None => DefaultFormat
    case Some(value) =>
      match libs.headerText(value)
      case None => DefaultFormat
      case Some(ct) =>
        match libs.parseMime(ct)
        case Some(mime) => mime.subtype
        case None => DefaultFormat
  }

  /**
   * `format!("{}.{}", code, subtype)`: the code's canonical decimal digits
   * (which read back as the code, by `Decimal.RenderParse`), then a dot,
   * then the subtype.
   */
  function FileName(code: Decimal.U32, subtype: string): (name: string)
    ensures var digits := Decimal.Render(code);
      |name| == |digits| + 1 + |subtype| &&
      name[..|digits|] == digits && Decimal.IsCanonical(digits) &&
      name[|digits|] == '.' && name[|digits| + 1..] == subtype
  {
    var digits := Decimal.Render(code);
    var name := digits + "." + subtype;
    assert name[..|digits|] == digits;
    assert name[|digits| + 1..] == subtype;
    name
  }

  /**
   * The template filename a request selects: it starts with the digits of
   * the selected code and ends, after a dot, with the selected subtype.
   */
  function TemplateName(req: Request, libs: Libraries): string {
    FileName(CodeOf(req.xCode, libs), SubtypeOf(req.xFormat, libs))
  }

  /** The outcome of opening `path` and reading it to the end, as the match on `open` does. */
  function LoadTemplate(fs: FileTree, path: Path): (out: Outcome)
    ensures out.Panicked? <==> path in fs && fs[path].Directory?
    ensures out.Served? && out.response.status == 200 <==> path in fs && fs[path].Regular?
    ensures path in fs && fs[path].Regular? ==> out == Served(Response(200, fs[path].bytes))
    ensures out.Served? && out.response.status != 200 ==> out.response == EmptyNotFound
  {
    match Open(fs, path)
    case Err(_) => Served(EmptyNotFound)
    case Ok(file) =>
      match ReadToEnd(file)
      case Ok(bytes) => Served(Response(200, bytes))
      case Err(_) => Panicked
  }

  /**
   * The outcome of one call on a service whose templates directory is `dir`.
   * Every response is 200 or an empty 404.
   */
  function Respond(dir: Path, req: Request, libs: Libraries, fs: FileTree): (out: Outcome)
    ensures req.path != Root ==> out == Served(EmptyNotFound)
    ensures out.Served? ==> out.response.status == 200 || out.response == EmptyNotFound
    ensures out.Panicked? ==> req.path == Root
  {
    if req.path != Root then Served(EmptyNotFound)
    else LoadTemplate(fs, dir + [TemplateName(req, libs)])
  }

  // ---------------------------------------------------------------------
  // Properties of the filename derivation

  /** Different (code, subtype) pairs give different filenames. */
  lemma FileNameInjective(c1: Decimal.U32, s1: string, c2: Decimal.U32, s2: string)
    requires FileName(c1, s1) == FileName(c2, s2)
    ensures c1 == c2 && s1 == s2
  {
    var d1, d2 := Decimal.Render(c1), Decimal.Render(c2);
    var name := FileName(c1, s1);
    assert name[|d1|] == '.' && name[|d2|] == '.';
    assert forall i :: 0 <= i < |d1| ==> name[i] == d1[i] && name[i] != '.';
    assert forall i :: 0 <= i < |d2| ==> name[i] == d2[i] && name[i] != '.';
    assert d1 == name[..|d1|] == d2;
    assert s1 == name[|d1| + 1..] == s2;
    Decimal.RenderInjective(c1, c2);
  }

  /**
   * The code and the subtype can be read back from the filename a request
   * selects: up to its first dot it parses as the code, after it is the subtype.
   */
  lemma TemplateNameReadsBack(req: Request, libs: Libraries)
    ensures var name := TemplateName(req, libs);
      var k := |Decimal.Render(CodeOf(req.xCode, libs))|;
      k < |name| && name[k] == '.' && '.' !in name[..k] &&
      Decimal.Parse(name[..k]) == Ok(CodeOf(req.xCode, libs)) &&
      name[k + 1..] == SubtypeOf(req.xFormat, libs)
  {
  }

  /** Two requests select the same template exactly when their codes and subtypes agree. */
  lemma TemplateNamesAgree(r1: Request, r2: Request, libs: Libraries)
    ensures TemplateName(r1, libs) == TemplateName(r2, libs) <==>
      CodeOf(r1.xCode, libs) == CodeOf(r2.xCode, libs) && SubtypeOf(r1.xFormat, libs) == SubtypeOf(r2.xFormat, libs)
  {
    if TemplateName(r1, libs) == TemplateName(r2, libs) {
      FileNameInjective(CodeOf(r1.xCode, libs), SubtypeOf(r1.xFormat, libs), CodeOf(r2.xCode, libs), SubtypeOf(r2.xFormat, libs));
    }
  }

  /**
   * The filename falls back to `"{code}.html"` exactly when `X-Format` is
   * absent, not a header string, not a media type, or has subtype `html`.
   */
  lemma FormatFallback(req: Request, libs: Libraries)
    ensures TemplateName(req, libs) == FileName(CodeOf(req.xCode, libs), DefaultFormat) <==>
      !FormatAccepted(req.xFormat, libs) ||
      libs.parseMime(libs.headerText(req.xFormat.value).value).value.subtype == DefaultFormat
  {
    if TemplateName(req, libs) == FileName(CodeOf(req.xCode, libs), DefaultFormat) {
      FileNameInjective(CodeOf(req.xCode, libs), SubtypeOf(req.xFormat, libs), CodeOf(req.xCode, libs), DefaultFormat);
    }
  }

  /** Only the subtype of `X-Format` matters: `application/json` and `text/json` select the same file. */
  lemma TypeDiscarded(code: Option<HeaderValue>, f1: HeaderValue, f2: HeaderValue, libs: Libraries)
    requires libs.headerText(f1).Some? && libs.headerText(f2).Some?
    requires libs.parseMime(libs.headerText(f1).value).Some?
    requires libs.parseMime(libs.headerText(f2).value).Some?
    requires libs.parseMime(libs.headerText(f1).value).value.subtype ==
             libs.parseMime(libs.headerText(f2).value).value.subtype
    ensures TemplateName(Request(Root, code, Some(f1)), libs) == TemplateName(Request(Root, code, Some(f2)), libs)
  {
  }

  /** An `X-Code` that is not a `u32` selects the same template as no `X-Code` at all. */
  lemma BadCodeIsDefault(req: Request, v: HeaderValue, libs: Libraries, dir: Path, fs: FileTree)
    requires libs.headerText(v).None? || !Decimal.IsU32Numeral(libs.headerText(v).value)
    ensures Respond(dir, req.(xCode := Some(v)), libs, fs) == Respond(dir, req.(xCode := None), libs, fs)
  {
  }

  /** An absent `X-Code` behaves as `X-Code: 404`. */
  lemma AbsentCodeIs404(req: Request, v: HeaderValue, libs: Libraries, dir: Path, fs: FileTree)
    requires libs.headerText(v) == Some("404")
    ensures Respond(dir, req.(xCode := None), libs, fs) == Respond(dir, req.(xCode := Some(v)), libs, fs)
  {
    Decimal.Examples();
    Decimal.RenderParse(404);
  }

  /** An absent `X-Format` behaves as `X-Format: text/html`. */
  lemma AbsentFormatIsHtml(req: Request, v: HeaderValue, libs: Libraries, dir: Path, fs: FileTree)
    requires libs.headerText(v).Some?
    requires libs.parseMime(libs.headerText(v).value) == Some(MediaType("text", "html"))
    ensures Respond(dir, req.(xFormat := None), libs, fs) == Respond(dir, req.(xFormat := Some(v)), libs, fs)
  {
  }

  /**
   * When the media-type parser never yields a subtype holding `/`, the
   * filename is one plain path component: no `/`, and neither `.` nor `..`,
   * so the file looked up sits directly in the templates directory.
   */
  lemma NameIsPlainComponent(req: Request, libs: Libraries)
    requires forall t :: libs.parseMime(t).Some? ==> '/' !in libs.parseMime(t).value.subtype
    ensures var name := TemplateName(req, libs);
      '/' !in name && name != "." && name != ".." && Decimal.IsDigit(name[0])
  {
    var code, sub := CodeOf(req.xCode, libs), SubtypeOf(req.xFormat, libs);
    var digits := Decimal.Render(code);
    var name := FileName(code, sub);
    assert '/' !in sub;
    assert '/' !in digits by {
      forall i | 0 <= i < |digits| ensures digits[i] != '/' {
        assert Decimal.IsDigit(digits[i]);
      }
    }
    assert name == digits + "." + sub;
    assert Decimal.IsDigit(name[0]);
  }

  // ---------------------------------------------------------------------
  // Properties of the response

  /**
   * On the root path the response is 200 with a file's bytes exactly when
   * the candidate path names that regular file, and empty 404 exactly when
   * the path is missing or cannot be opened.
   */
  lemma RespondFound(dir: Path, req: Request, libs: Libraries, fs: FileTree, bytes: seq<byte>)
    requires req.path == Root
    ensures var path := dir + [TemplateName(req, libs)];
      (Respond(dir, req, libs, fs) == Served(Response(200, bytes)) <==> path in fs && fs[path] == Regular(bytes)) &&
      (Respond(dir, req, libs, fs) == Served(EmptyNotFound) <==> path !in fs || fs[path].Unreadable?)
  {
  }

  /** The templates the source's tests run against: `404.html`, `404.json`, `500.html`, `500.json` under `files`. */
  function TestTree(html404: seq<byte>, json404: seq<byte>, html500: seq<byte>, json500: seq<byte>): FileTree {
    map[["files", "404.html"] := Regular(html404), ["files", "404.json"] := Regular(json404),
        ["files", "500.html"] := Regular(html500), ["files", "500.json"] := Regular(json500)]
  }

  /** A root request whose template names a regular file under `dir` is answered 200 with that file's bytes. */
  lemma ServesRegular(dir: Path, req: Request, libs: Libraries, fs: FileTree, name: string, bytes: seq<byte>)
    requires req.path == Root && TemplateName(req, libs) == name
    requires dir + [name] in fs && fs[dir + [name]] == Regular(bytes)
    ensures Respond(dir, req, libs, fs) == Served(Response(200, bytes))
  {
  }

  /** An `X-Code` reading as the decimal rendering of `code`, with a parsed `X-Format`, selects `"{code}.{subtype}"`. */
  lemma SelectsRenderedCode(req: Request, libs: Libraries, code: Decimal.U32, t: string, mt: MediaType)
    requires req.xCode.Some? && libs.headerText(req.xCode.value) == Some(Decimal.Render(code))
    requires req.xFormat.Some? && libs.headerText(req.xFormat.value) == Some(t) && libs.parseMime(t) == Some(mt)
    ensures TemplateName(req, libs) == FileName(code, mt.subtype)
  {
    Decimal.RenderParse(code);
  }

  /** A root request whose `X-Code` reads as `code` and whose `X-Format` parses is answered with the file `files/{code}.{subtype}`. */
  lemma ServesFormatted(libs: Libraries, fs: FileTree, c: HeaderValue, f: HeaderValue, code: Decimal.U32, t: string, mt: MediaType,
                        name: string, bytes: seq<byte>)
    requires libs.headerText(c) == Some(Decimal.Render(code))
    requires libs.headerText(f) == Some(t) && libs.parseMime(t) == Some(mt)
    requires FileName(code, mt.subtype) == name
    requires ["files", name] in fs && fs[["files", name]] == Regular(bytes)
    ensures Respond(["files"], Request(Root, Some(c), Some(f)), libs, fs) == Served(Response(200, bytes))
  {
    var req := Request(Root, Some(c), Some(f));
    SelectsRenderedCode(req, libs, code, t, mt);
    assert ["files"] + [name] == ["files", name];
    ServesRegular(["files"], req, libs, fs, name, bytes);
  }

  /** The test `formatted_as_json`: codes 404 and 500 with `application/json` serve the `json` files. */
  lemma FormattedAsJsonTest(libs: Libraries, html404: seq<byte>, json404: seq<byte>, html500: seq<byte>, json500: seq<byte>,
                            c404: HeaderValue, c500: HeaderValue, json: HeaderValue)
    requires libs.headerText(c404) == Some("404") && libs.headerText(c500) == Some("500")
    requires libs.headerText(json) == Some("application/json")
    requires libs.parseMime("application/json") == Some(MediaType("application", "json"))
    ensures var fs := TestTree(html404, json404, html500, json500);
      Respond(["files"], Request(Root, Some(c404), Some(json)), libs, fs) == Served(Response(200, json404)) &&
      Respond(["files"], Request(Root, Some(c500), Some(json)), libs, fs) == Served(Response(200, json500))
  {
    Decimal.Examples();
    var fs := TestTree(html404, json404, html500, json500);
    var mt := MediaType("application", "json");
    assert FileName(404, "json") == "404.json";
    ServesFormatted(libs, fs, c404, json, 404, "application/json", mt, "404.json", json404);
    assert FileName(500, "json") == "500.json";
    ServesFormatted(libs, fs, c500, json, 500, "application/json", mt, "500.json", json500);
  }

  /** The test `formatted_as_html`: codes 404 and 500 with `text/html` serve the `html` files. */
  lemma FormattedAsHtmlTest(libs: Libraries, html404: seq<byte>, json404: seq<byte>, html500: seq<byte>, json500: seq<byte>,
                            c404: HeaderValue, c500: HeaderValue, html: HeaderValue)
    requires libs.headerText(c404) == Some("404") && libs.headerText(c500) == Some("500")
    requires libs.headerText(html) == Some("text/html")
    requires libs.parseMime("text/html") == Some(MediaType("text", "html"))
    ensures var fs := TestTree(html404, json404, html500, json500);
      Respond(["files"], Request(Root, Some(c404), Some(html)), libs, fs) == Served(Response(200, html404)) &&
      Respond(["files"], Request(Root, Some(c500), Some(html)), libs, fs) == Served(Response(200, html500))
  {
    Decimal.Examples();
    var fs := TestTree(html404, json404, html500, json500);
    var mt := MediaType("text", "html");
    assert FileName(404, "html") == "404.html";
    ServesFormatted(libs, fs, c404, html, 404, "text/html", mt, "404.html", html404);
    assert FileName(500, "html") == "500.html";
    ServesFormatted(libs, fs, c500, html, 500, "text/html", mt, "500.html", html500);
  }

  /** The test `html_by_default`: without `X-Format` the `html` file is served. */
  lemma HtmlByDefaultTest(libs: Libraries, html404: seq<byte>, json404: seq<byte>, html500: seq<byte>, json500: seq<byte>,
                          c500: HeaderValue)
    requires libs.headerText(c500) == Some("500")
    ensures Respond(["files"], Request(Root, Some(c500), None), libs, TestTree(html404, json404, html500, json500))
      == Served(Response(200, html500))
  {
    Decimal.Examples();
    Decimal.RenderParse(500);
    assert FileName(500, "html") == "500.html";
    assert ["files"] + [FileName(500, "html")] == ["files", "500.html"];
  }

  /** The test `picks_404_for_erroneous_code`: `X-Code: x500` serves `404.html`. */
  lemma ErroneousCodeTest(libs: Libraries, html404: seq<byte>, json404: seq<byte>, html500: seq<byte>, json500: seq<byte>,
                          cx500: HeaderValue)
    requires libs.headerText(cx500) == Some("x500")
    ensures Respond(["files"], Request(Root, Some(cx500), None), libs, TestTree(html404, json404, html500, json500))
      == Served(Response(200, html404))
  {
    Decimal.Examples();
    assert CodeOf(Some(cx500), libs) == 404;
    assert FileName(404, "html") == "404.html";
    assert ["files"] + [FileName(404, "html")] == ["files", "404.html"];
  }

  /** The tests `empty_404_for_codes_without_files` and `empty_404_for_requests_to_pages_other_than_root`. */
  lemma EmptyNotFoundTests(libs: Libraries, html404: seq<byte>, json404: seq<byte>, html500: seq<byte>, json500: seq<byte>,
                           c403: HeaderValue)
    requires libs.headerText(c403) == Some("403")
    ensures var fs := TestTree(html404, json404, html500, json500);
      Respond(["files"], Request(Root, Some(c403), None), libs, fs) == Served(EmptyNotFound) &&
      Respond(["files"], Request("/boo", Some(c403), None), libs, fs) == Served(EmptyNotFound)
  {
    Decimal.RenderParse(403);
    assert Decimal.Render(403) == "403" by {
      assert Decimal.Render(4) == "4";
      assert Decimal.Render(40) == "40";
    }
    assert FileName(403, "html") == "403.html";
    var path := ["files"] + [FileName(403, "html")];
    assert path == ["files", "403.html"];
    assert path !in TestTree(html404, json404, html500, json500);
  }

  // ---------------------------------------------------------------------
  // The services

  /** One service per connection; `templatesDir` grows by one component per root request. */
  class Svc {
    var templatesDir: Path

    constructor (templatesDir: Path)
      ensures this.templatesDir == templatesDir
    {
      this.templatesDir := templatesDir;
    }

    /**
     * Handle one request. A non-root path answers empty 404 and changes
     * nothing; a root path appends the template filename to `templatesDir`
     * and answers from the file at the new `templatesDir`.
     */
    method Call(req: Request, libs: Libraries, fs: FileTree) returns (out: Outcome)
      modifies this
      ensures out == Respond(old(templatesDir), req, libs, fs)
      ensures req.path != Root ==> templatesDir == old(templatesDir)
      ensures req.path == Root ==> templatesDir == old(templatesDir) + [TemplateName(req, libs)]
    {
      if req.path != Root {
        return Served(EmptyNotFound);
      }
      var code := CodeOf(req.xCode, libs);
      var response := FileName(code, SubtypeOf(req.xFormat, libs));
      templatesDir := templatesDir + [response];
      var opening := Open(fs, templatesDir);
      if opening.Err? {
        out := Served(EmptyNotFound);
      } else {
        var read := ReadToEnd(opening.value);
        if read.Err? {
          out := Panicked;
        } else {
          out := Served(Response(200, read.value));
        }
      }
    }

    /**
     * `Call` with the template path joined onto a copy of `templatesDir`
     * instead of pushed onto it: the same outcome as `Call` on its first
     * root request, and the service stays as it was.
     */
    method CallFixed(req: Request, libs: Libraries, fs: FileTree) returns (out: Outcome)
      ensures out == Respond(templatesDir, req, libs, fs)
    {
      if req.path != Root {
        return Served(EmptyNotFound);
      }
      var code := CodeOf(req.xCode, libs);
      var response := FileName(code, SubtypeOf(req.xFormat, libs));
      var path := templatesDir + [response];
      var opening := Open(fs, path);
      if opening.Err? {
        out := Served(EmptyNotFound);
      } else {
        var read := ReadToEnd(opening.value);
        if read.Err? {
          out := Panicked;
        } else {
          out := Served(Response(200, read.value));
        }
      }
    }
  }

  /** The service factory: one fresh `Svc` per connection, each with a copy of the configured directory. */
  class MakeSvc {
    var templatesDir: Path

    constructor (templatesDir: Path)
      ensures this.templatesDir == templatesDir
    {
      this.templatesDir := templatesDir;
    }

    method Call() returns (svc: Svc)
      ensures fresh(svc) && svc.templatesDir == templatesDir
      ensures unchanged(this)
    {
      svc := new Svc(templatesDir);
    }
  }
}
