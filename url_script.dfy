/** Nette's extended HTTP URL: a URL path together with a script path,
    from which the script path proper, the base path and the path info
    are derived.

    For the request path `/admin/script.php/pathinfo/` with the script
    path `/admin/script.php`, the path info is `/pathinfo/` and the base
    path (the directory holding the script) is `/admin/`. */
module NetteHttp {
  import opened PhpString

  class UrlScript {
    /** The request path of the underlying URL. */
    var path: string
    /** The script path as set by the caller; "" when unset. */
    var scriptPath: string

    constructor (path: string, scriptPath: string := "")
      ensures this.path == path && this.scriptPath == scriptPath
      ensures scriptPath == "" ==> GetScriptPath() == path && GetPathInfo() == ""
    {
      this.path := path;
      new;
      var _ := SetScriptPath(scriptPath);
    }

    /** Stores `value` verbatim; returns this object for chaining. */
    method SetScriptPath(value: string) returns (self: UrlScript)
      modifies this`scriptPath
      ensures self == this
      ensures scriptPath == value && path == old(path)
      ensures Truthy(value) ==> GetScriptPath() == value
      ensures !Truthy(value) ==> GetScriptPath() == path
    {
      scriptPath := value;
      self := this;
    }

    /** The explicit script path, unless it is falsy ("" or "0"), in
        which case the whole request path stands for the script. */
    function GetScriptPath(): (r: string)
      reads this
      ensures r == scriptPath || r == path
      ensures scriptPath != "" && scriptPath != "0" ==> r == scriptPath
      ensures scriptPath == "" || scriptPath == "0" ==> r == path
    {
      if Truthy(scriptPath) then scriptPath else path
    }

    /** The prefix of `path` as long as the script path up to and
        including its last `/`; "" when the script path has no `/`. */
    function GetBasePath(): (r: string)
      reads this
      ensures r <= path
      ensures '/' !in GetScriptPath() ==> r == ""
    {
      match StrRPos(GetScriptPath(), '/')
      case None => ""
      case Some(pos) => SubstrPrefix(path, pos + 1)
    }

    /** What follows the script path in `path`: the suffix of `path` from
        the script path's length on, "" when that reaches past the end. */
    function GetPathInfo(): (r: string)
      reads this
      ensures |GetScriptPath()| <= |path| ==> path[..|GetScriptPath()|] + r == path
      ensures |GetScriptPath()| >= |path| ==> r == ""
    {
      SubstrFrom(path, |GetScriptPath()|)
    }
  }

  /** The length of the base path is one past the last `/` of the script
      path, cut to the length of `path`. */
  lemma BasePathLength(u: UrlScript, pos: nat)
    requires pos < |u.GetScriptPath()| && u.GetScriptPath()[pos] == '/'
    requires '/' !in u.GetScriptPath()[pos + 1..]
    ensures u.GetBasePath() == u.path[..Min(pos + 1, |u.path|)]
  {
  }

  /** The base path is empty exactly when the script path has no `/`,
      or when `path` itself is empty. */
  lemma BasePathEmpty(u: UrlScript)
    ensures u.GetBasePath() == "" <==> ('/' !in u.GetScriptPath() || u.path == "")
  {
  }

  /** When the script path is a prefix of `path` and holds a `/`, the
      base path is the script path's directory: a prefix of the script
      path that ends with `/`, the rest of the script path holding no
      further `/`. */
  lemma BasePathIsDirectory(u: UrlScript)
    requires u.GetScriptPath() <= u.path
    requires '/' in u.GetScriptPath()
    ensures u.GetBasePath() <= u.GetScriptPath()
    ensures |u.GetBasePath()| > 0 && u.GetBasePath()[|u.GetBasePath()| - 1] == '/'
    ensures '/' !in u.GetScriptPath()[|u.GetBasePath()|..]
  {
  }

  /** The base path reaches every `/` of the script path: no `/` of the
      script path lies beyond it, whether or not the two paths agree.
      A corollary of `BasePathLength` and the contract of `StrRPos`. */
  lemma BasePathCoversEverySlash(u: UrlScript, k: nat)
    requires k < |u.GetScriptPath()| && u.GetScriptPath()[k] == '/'
    requires k < |u.path|
    ensures k < |u.GetBasePath()|
  {
  }

  /** The script path followed by the path info gives back `path`
      exactly when the script path is a prefix of `path`. */
  lemma ScriptPathAndPathInfo(u: UrlScript)
    ensures u.GetScriptPath() + u.GetPathInfo() == u.path <==> u.GetScriptPath() <= u.path
  {
  }

  /** An explicit script path that is a prefix of `path` splits `path`
      into the script path and the path info. */
  lemma SplitAtScriptPath(u: UrlScript)
    requires u.scriptPath <= u.path
    ensures u.GetScriptPath() + u.GetPathInfo() == u.path
    ensures u.GetPathInfo() == u.path[|u.GetScriptPath()|..]
  {
  }

  /** With no usable script path the whole of `path` is the script: the
      path info is empty and the base path runs to the last `/` of
      `path`. */
  lemma UnsetScriptPath(u: UrlScript)
    requires !Truthy(u.scriptPath)
    ensures u.GetScriptPath() == u.path && u.GetPathInfo() == ""
    ensures forall p :: 0 <= p < |u.path| && u.path[p] == '/' && '/' !in u.path[p + 1..] ==>
      u.GetBasePath() == u.path[..p + 1]
  {
  }

  /** The example of the class documentation. */
  lemma AdminScriptExample(u: UrlScript)
    requires u.path == "/admin/script.php/pathinfo/" && u.scriptPath == "/admin/script.php"
    ensures u.GetScriptPath() == "/admin/script.php"
    ensures u.GetPathInfo() == "/pathinfo/"
    ensures u.GetBasePath() == "/admin/"
  {
  }

  /** A directory index as the script. */
  lemma DirectoryIndexExample(u: UrlScript)
    requires u.path == "/admin/" && u.scriptPath == "/admin/"
    ensures u.GetBasePath() == "/admin/" && u.GetPathInfo() == ""
  {
  }

  /** No script path set: `/foo` is its own script, in directory `/`. */
  lemma UnsetExample(u: UrlScript)
    requires u.path == "/foo" && u.scriptPath == ""
    ensures u.GetScriptPath() == "/foo" && u.GetBasePath() == "/" && u.GetPathInfo() == ""
  {
  }

  /** "0" is falsy in PHP, so it too falls back to `path`. */
  lemma ZeroScriptPathExample(u: UrlScript)
    requires u.path == "/a/b" && u.scriptPath == "0"
    ensures u.GetScriptPath() == "/a/b" && u.GetBasePath() == "/a/" && u.GetPathInfo() == ""
  {
  }

  /** A script path longer than `path` leaves an empty path info. */
  lemma LongScriptPathExample(u: UrlScript)
    requires u.path == "/a" && u.scriptPath == "/a/b"
    ensures u.GetPathInfo() == ""
  {
  }

  /** The `/` is searched for in the script path but the slice is cut
      from `path`: when the two disagree, the base path is a piece of
      `path` that need not end with `/`. */
  lemma BasePathSlicesPath(u: UrlScript)
    requires u.path == "/abcdef" && u.scriptPath == "/x/y"
    ensures u.GetBasePath() == "/ab"
  {
  }

  /** Positions are byte positions: the script path `/é/y` is the five
      bytes `/`, 0xC3, 0xA9, `/`, `y`, so its last `/` is at 3 and the base
      path cut from `/abcdef` is `/abc`. */
  lemma MultiByteScriptPathExample(u: UrlScript)
    requires u.path == "/abcdef" && u.scriptPath == ['/', 0xC3 as char, 0xA9 as char, '/', 'y']
    ensures u.GetBasePath() == "/abc"
    ensures u.GetPathInfo() == "ef"
  {
  }
}
