/**
 * A connection: the server builds one `Svc` per connection with
 * `MakeSvc::call` and hands it every request that arrives on that
 * connection. Because `Svc::call` pushes the filename onto its own
 * `templates_dir`, the directory seen by a request depends on the root
 * requests before it on the same connection. `Serve` is that behaviour;
 * `ServeFixed` is the intended one, in which every request is answered
 * against the configured directory.
 */
module Connection {
  import opened Wrappers
  import opened FileSystem
  import opened Responder
  import Decimal

  /** `templatesDir` after one call, as `Svc.Call` leaves it. */
  function NextDir(dir: Path, req: Request, libs: Libraries): (next: Path)
    ensures req.path != Root ==> next == dir
    ensures req.path == Root ==> |next| == |dir| + 1 && next[..|dir|] == dir
  {
    if req.path == Root then dir + [TemplateName(req, libs)] else dir
  }

  /** `templatesDir` after the calls for `reqs`, one `NextDir` per request, starting from `dir`. */
  function DirAfter(dir: Path, reqs: seq<Request>, libs: Libraries): Path
    decreases |reqs|
  {
    if reqs == [] then dir else DirAfter(NextDir(dir, reqs[0], libs), reqs[1..], libs)
  }

  /** The directory after the first `i` requests is the one after the first request, then `i - 1` more. */
  lemma DirAfterStep(dir: Path, reqs: seq<Request>, libs: Libraries)
    requires |reqs| > 0
    ensures forall i :: 1 <= i <= |reqs| ==>
      DirAfter(dir, reqs[..i], libs) == DirAfter(NextDir(dir, reqs[0], libs), reqs[1..][..i - 1], libs)
  {
    forall i | 1 <= i <= |reqs|
      ensures DirAfter(dir, reqs[..i], libs) == DirAfter(NextDir(dir, reqs[0], libs), reqs[1..][..i - 1], libs)
    {
      assert reqs[..i][0] == reqs[0];
      assert reqs[..i][1..] == reqs[1..][..i - 1];
    }
  }

  /**
   * The outcomes of the requests of one connection, served by one `Svc`
   * starting from `dir`, as written: request `i` is answered over the
   * directory the calls before it left behind. A panic ends the
   * connection's task, so no outcome follows it.
   */
  function Serve(dir: Path, reqs: seq<Request>, libs: Libraries, fs: FileTree): (outs: seq<Outcome>)
    ensures |outs| <= |reqs|
    ensures forall i :: 0 <= i < |outs| ==> outs[i] == Respond(DirAfter(dir, reqs[..i], libs), reqs[i], libs, fs)
    ensures forall i :: 0 <= i < |outs| - 1 ==> !outs[i].Panicked?
    ensures |outs| < |reqs| ==> |outs| > 0 && outs[|outs| - 1].Panicked?
    decreases |reqs|
  {
    if reqs == [] then []
    else
      var out := Respond(dir, reqs[0], libs, fs);
      if out.Panicked? then [out]
      else
        var rest := Serve(NextDir(dir, reqs[0], libs), reqs[1..], libs, fs);
        DirAfterStep(dir, reqs, libs);
        assert reqs[..0] == [];
        [out] + rest
  }

  /**
   * The intended behaviour: each request of the connection is answered as
   * by a fresh service over `base`, so the outcome of a request does not
   * depend on the requests before it.
   */
  function ServeFixed(base: Path, reqs: seq<Request>, libs: Libraries, fs: FileTree): (outs: seq<Outcome>)
    ensures |outs| <= |reqs|
    ensures forall i :: 0 <= i < |outs| ==> outs[i] == Respond(base, reqs[i], libs, fs)
    ensures forall i :: 0 <= i < |outs| - 1 ==> !outs[i].Panicked?
    ensures |outs| < |reqs| ==> |outs| > 0 && outs[|outs| - 1].Panicked?
    decreases |reqs|
  {
    if reqs == [] then []
    else
      var out := Respond(base, reqs[0], libs, fs);
      if out.Panicked? then [out]
      else [out] + ServeFixed(base, reqs[1..], libs, fs)
  }

  /**
   * Once `dir` lies at or below a path that is missing or not a directory,
   * every request of the connection is answered with an empty 404.
   */
  lemma {:induction false} ServeBelowMissing(p: Path, dir: Path, reqs: seq<Request>, libs: Libraries, fs: FileTree)
    requires IsTree(fs)
    requires |p| >= 1 && (p !in fs || !IsContainer(fs[p]))
    requires dir == p || StrictlyBelow(dir, p)
    ensures var outs := Serve(dir, reqs, libs, fs);
      |outs| == |reqs| && forall i :: 0 <= i < |outs| ==> outs[i] == Served(EmptyNotFound)
    decreases |reqs|
  {
    if reqs != [] {
      var req := reqs[0];
      if req.path == Root {
        var path := dir + [TemplateName(req, libs)];
        assert path[..|p|] == dir[..|p|];
        NothingBelowNonDirectory(fs, p, path);
      }
      var next := NextDir(dir, req, libs);
      assert next[..|p|] == dir[..|p|];
      ServeBelowMissing(p, next, reqs[1..], libs, fs);
    }
  }

  /**
   * The stale directory, as written: on a real directory tree, after a
   * first root request whose template path is not a directory of any kind,
   * every later request on the same connection is answered with an empty
   * 404, whatever its path and headers.
   */
  lemma LaterRequestsStarve(base: Path, reqs: seq<Request>, libs: Libraries, fs: FileTree)
    requires IsTree(fs)
    requires |reqs| > 0 && reqs[0].path == Root
    requires var p := base + [TemplateName(reqs[0], libs)]; p !in fs || !IsContainer(fs[p])
    ensures var outs := Serve(base, reqs, libs, fs);
      |outs| == |reqs| && forall i :: 1 <= i < |outs| ==> outs[i] == Served(EmptyNotFound)
  {
    var p := base + [TemplateName(reqs[0], libs)];
    ServeBelowMissing(p, p, reqs[1..], libs, fs);
  }

  /**
   * A concrete case: `files/404.html` exists and the same request without
   * headers arrives twice. As written the second answer is an empty 404
   * (the lookup is `files/404.html/404.html`); as intended both get the file.
   */
  lemma RepeatedRequestExample(libs: Libraries, page: seq<byte>)
    ensures var fs := map[["files", "404.html"] := Regular(page)];
      var req := Request(Root, None, None);
      Serve(["files"], [req, req], libs, fs) == [Served(Response(200, page)), Served(EmptyNotFound)] &&
      ServeFixed(["files"], [req, req], libs, fs) == [Served(Response(200, page)), Served(Response(200, page))]
  {
    var fs := map[["files", "404.html"] := Regular(page)];
    var req := Request(Root, None, None);
    Decimal.Examples();
    assert TemplateName(req, libs) == "404.html";
    assert ["files"] + ["404.html"] == ["files", "404.html"];
    assert ["files", "404.html"] + ["404.html"] !in fs;
    assert [req, req][1..] == [req];
  }

  /**
   * The two calls of one connection made on the classes themselves: a
   * service from the factory answers the first root request from the
   * configured directory and, on a real tree where that template path is
   * not a directory of any kind, any second request with an empty 404.
   */
  method TwoRequestsOnOneConnection(factory: MakeSvc, r1: Request, r2: Request, libs: Libraries, fs: FileTree)
    returns (o1: Outcome, o2: Outcome)
    requires IsTree(fs) && r1.path == Root
    ensures o1 == Respond(factory.templatesDir, r1, libs, fs)
    ensures var p := factory.templatesDir + [TemplateName(r1, libs)];
      p !in fs || !IsContainer(fs[p]) ==> o2 == Served(EmptyNotFound)
  {
    var svc := factory.Call();
    o1 := svc.Call(r1, libs, fs);
    var p := svc.templatesDir;
    o2 := svc.Call(r2, libs, fs);
    if r2.path == Root && (p !in fs || !IsContainer(fs[p])) {
      var path := p + [TemplateName(r2, libs)];
      assert path[..|p|] == p;
      NothingBelowNonDirectory(fs, p, path);
    }
  }

  /**
   * The fix on the class: `Svc.CallFixed` leaves the service's directory
   * alone, so the same request twice on one connection gets the same
   * outcome, that of a fresh service over the factory's directory.
   */
  method TwoRequestsFixed(factory: MakeSvc, req: Request, libs: Libraries, fs: FileTree)
    returns (o1: Outcome, o2: Outcome)
    ensures o1 == o2 == Respond(factory.templatesDir, req, libs, fs)
  {
    var svc := factory.Call();
    o1 := svc.CallFixed(req, libs, fs);
    o2 := svc.CallFixed(req, libs, fs);
  }
}
