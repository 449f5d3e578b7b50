/** The server's reading side: `assertString` and the `getFilesData`
    middleware that walks the document by the segments of the request path. */
module Lookup {
  import opened Options
  import opened JsonValues

  /** A JavaScript value as `assertString` may receive it. */
  datatype Any = Undefined | Null | Boolean(b: bool) | Value(json: Json)

  /** A value, or the `Error` thrown with its message. */
  datatype Result<T> = Success(value: T) | Thrown(message: string)

  /** `assertString` hands back a string argument unchanged and throws
      `errMsg` for anything else. */
  function AssertString(variable: Any, errMsg: string): (r: Result<string>)
    ensures r.Success? <==> variable.Value? && variable.json.JString?
    ensures r.Success? ==> r.value == variable.json.str
    ensures r.Thrown? ==> r.message == errMsg
  {
    if !(variable.Value? && variable.json.JString?) then Thrown(errMsg) else Success(variable.json.str)
  }

  /** `s.split("/")`: the pieces between the slashes, an empty piece for
      each slash at an end or next to another slash. */
  function Split(s: string): (pieces: seq<string>)
    ensures |pieces| > 0
    ensures forall i | 0 <= i < |pieces| :: '/' !in pieces[i]
  {
    if s == [] then [""]
    else
      var rest := Split(s[1..]);
      if s[0] == '/' then [""] + rest else [[s[0]] + rest[0]] + rest[1..]
  }

  /** The pieces put back together with a slash between each two. */
  function Join(pieces: seq<string>): string
    requires |pieces| > 0
  {
    if |pieces| == 1 then pieces[0] else pieces[0] + "/" + Join(pieces[1..])
  }

  /** Splitting loses nothing: joining the pieces gives the string back. */
  lemma {:induction false} JoinSplit(s: string)
    ensures Join(Split(s)) == s
  {
    if s != [] {
      var rest := Split(s[1..]);
      JoinSplit(s[1..]);
      if s[0] == '/' {
        assert Split(s)[1..] == rest;
      } else if |rest| > 1 {
        var pieces := Split(s);
        assert pieces[1..] == rest[1..];
        assert Join(rest) == rest[0] + "/" + Join(rest[1..]);
      }
    }
  }

  /** Pieces without slashes come back from the string they join into. */
  lemma {:induction false} SplitJoin(pieces: seq<string>)
    requires |pieces| > 0 && forall i | 0 <= i < |pieces| :: '/' !in pieces[i]
    ensures Split(Join(pieces)) == pieces
    decreases |Join(pieces)|
  {
    var s := Join(pieces);
    if pieces[0] == [] {
      if |pieces| > 1 {
        assert s == "/" + Join(pieces[1..]);
        assert s[1..] == Join(pieces[1..]);
        SplitJoin(pieces[1..]);
      }
    } else {
      var w := pieces[0][1..];
      var shorter := [w] + pieces[1..];
      assert shorter[1..] == pieces[1..];
      assert s == [pieces[0][0]] + Join(shorter) by {
        if |pieces| > 1 {
          assert pieces[0] == [pieces[0][0]] + w;
        }
      }
      assert '/' !in w by {
        assert forall c | c in w :: c in pieces[0];
      }
      assert s[1..] == Join(shorter);
      SplitJoin(shorter);
      assert [pieces[0][0]] + w == pieces[0];
    }
  }

  /** The node reached from `node` by descending key by key along `path`, or
      `None` as soon as a key is `undefined` at its level. */
  function Resolve(node: Json, path: seq<string>): Option<Json>
    decreases |path|
  {
    if path == [] then Some(node)
    else
      match Member(node, path[0])
      case None => None
      case Some(child) => Resolve(child, path[1..])
  }

  /** Walking `p + q` is walking `p`, then `q` from where `p` ended. */
  lemma {:induction false} ResolveAppend(node: Json, p: seq<string>, q: seq<string>)
    ensures Resolve(node, p + q) == match Resolve(node, p) case None => None case Some(n) => Resolve(n, q)
    decreases |p|
  {
    if p == [] {
      assert p + q == q;
    } else {
      assert (p + q)[1..] == p[1..] + q;
      match Member(node, p[0]) {
        case None =>
        case Some(child) => ResolveAppend(child, p[1..], q);
      }
    }
  }

  /** Resolution is prefix-closed: when a path resolves, so does each of its prefixes. */
  lemma ResolvePrefix(node: Json, path: seq<string>, j: nat)
    requires j <= |path| && Resolve(node, path).Some?
    ensures Resolve(node, path[..j]).Some?
  {
    ResolveAppend(node, path[..j], path[j..]);
    assert path[..j] + path[j..] == path;
  }

  /** A path fails to resolve exactly when some prefix resolves and the next
      key is missing there: the walk stops at the first absent key. */
  lemma ResolveFailsAtAbsentKey(node: Json, path: seq<string>)
    ensures Resolve(node, path).None? <==>
      exists j | 0 <= j < |path| :: Resolve(node, path[..j]).Some? && Member(Resolve(node, path[..j]).value, path[j]).None?
  {
    if Resolve(node, path).None? {
      var j := FirstAbsent(node, path);
    } else {
      forall j | 0 <= j < |path| && Resolve(node, path[..j]).Some?
        ensures Member(Resolve(node, path[..j]).value, path[j]).Some?
      {
        ResolveAppend(node, path[..j], path[j..]);
        assert path[..j] + path[j..] == path;
        assert path[j..][0] == path[j];
      }
    }
  }

  /** The position of the first key the walk does not find. */
  lemma {:induction false} FirstAbsent(node: Json, path: seq<string>) returns (j: nat)
    requires Resolve(node, path).None?
    ensures j < |path| && Resolve(node, path[..j]).Some? && Member(Resolve(node, path[..j]).value, path[j]).None?
    decreases |path|
  {
    match Member(node, path[0]) {
      case None =>
        j := 0;
      case Some(child) =>
        var k := FirstAbsent(child, path[1..]);
        j := k + 1;
        ResolveAppend(node, [path[0]], path[1..][..k]);
        assert [path[0]] + path[1..][..k] == path[..j];
        assert path[1..][k] == path[j];
    }
  }

  /** What the middleware leaves for the next handler: `req.myPath` and
      `req.filesData` set, or a 404 response with neither of them set. */
  datatype Outcome =
    | Next(myPath: seq<string>, filesData: Option<Json>)
    | NotFound(status: int, body: string)

  /** `getFilesData(files)` on a request whose wildcard is `param`: an empty
      wildcard gives the empty path and `null` without any lookup; otherwise
      the wildcard less its last character, split on "/", is walked key by
      key, with 404 "Not found." at the first key that is absent. */
  method GetFilesData(files: Json, param: string) returns (out: Outcome)
    ensures param == "" ==> out == Next([], None)
    ensures param != "" ==>
      var path := Split(param[..|param| - 1]);
      match Resolve(files, path)
      case Some(node) => out == Next(path, Some(node))
      case None => out == NotFound(404, "Not found.")
  {
    var begin: seq<string> := [];
    if param == "" {
      return Next(begin, None);
    }
    var filesCopy := files;
    var path := Split(param[..|param| - 1]);
    for i := 0 to |path|
      invariant Resolve(files, path) == Resolve(filesCopy, path[i..])
    {
      assert path[i..][1..] == path[i + 1..];
      var child := Member(filesCopy, path[i]);
      if child.None? {
        return NotFound(404, "Not found.");
      }
      filesCopy := child.value;
    }
    begin := begin + path;
    out := Next(begin, Some(filesCopy));
  }
}
