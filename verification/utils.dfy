/** The small value predicates and path helpers of the core utilities. */
module Utils {
  import opened Wrappers
  import opened Js
  import Strings

  /** `String(s || '')`: the text that `trim` works on. */
  function TrimSource(v: Value): (s: string)
    ensures !Truthy(v) ==> s == ""
    ensures v.Str? ==> s == v.s
  {
    if !Truthy(v) then "" else if v.Str? then v.s else ToStr(v)
  }

  /** `String(s || '').trim()`. */
  function Trim(v: Value): (r: string)
    ensures !Truthy(v) ==> r == ""
    ensures r == [] || (!Strings.IsSpace(r[0]) && !Strings.IsSpace(r[|r| - 1]))
    ensures v.Str? && (v.s == [] || (!Strings.IsSpace(v.s[0]) && !Strings.IsSpace(v.s[|v.s| - 1]))) ==> r == v.s
    ensures v.Str? && r == [] ==> forall i :: 0 <= i < |v.s| ==> Strings.IsSpace(v.s[i])
  {
    var s := TrimSource(v);
    TrimEnds(s);
    Strings.Trim(s)
  }

  /** trim leaves no white space at either end. */
  lemma TrimEnds(s: string)
    ensures var r := Strings.Trim(s); r == [] || (!Strings.IsSpace(r[0]) && !Strings.IsSpace(r[|r| - 1]))
  {
  }

  /** trim keeps the source text between its leading and its trailing white space. */
  lemma TrimIsInnerSlice(v: Value)
    ensures Strings.InnerSlice(TrimSource(v), Trim(v))
  {
    var s := TrimSource(v);
    assert Trim(v) == Strings.Trim(s);
    Strings.TrimIsInnerSlice(s);
  }

  /** `o && typeof o === 'object'`, read as a boolean. */
  function IsObject(v: Value): (r: bool)
    ensures r <==> v.Arr? || v.Obj?
  {
    Truthy(v) && IsObjectLike(v)
  }

  /** A plain (non-array) object with at least one own value that is not undefined. */
  function IsNonEmptyObject(v: Value): (r: bool)
    ensures r <==> v.Obj? && exists k :: k in v.props && v.props[k] != Undefined
    ensures r ==> IsObject(v)
  {
    IsObject(v) && !v.Arr? && exists k :: k in v.props && Get(v, k) != Undefined
  }

  /** `(argv1 || '').replace(/\\/g, '/')`. */
  function ModulePath(argv1: Option<string>): (r: string)
    ensures forall i :: 0 <= i < |r| ==> r[i] != '\\'
    ensures argv1.None? ==> r == ""
    ensures argv1.Some? ==> |r| == |argv1.value|
    ensures argv1.Some? ==> forall i :: 0 <= i < |r| ==> r[i] == if argv1.value[i] == '\\' then '/' else argv1.value[i]
  {
    Strings.ReplaceAllChar(argv1.GetOr(""), '\\', '/')
  }

  /**
   * `url.replace(/file:\/+/, '')`: the leftmost "file:" followed by at least
   * one slash is removed together with all the slashes that follow it.
   */
  function StripFileScheme(url: string): (r: string)
    ensures Strings.IndexOf(url, "file:/").None? ==> r == url
    ensures Strings.IndexOf(url, "file:/").Some? ==>
      var i := Strings.IndexOf(url, "file:/").value;
      && i <= |r| && |r| + 6 <= |url|
      && r[..i] == url[..i]
      && (r[i..] == [] || r[i] != '/')
      && r == url[..i] + Strings.DropLeading(url[i + 5..], '/')
  {
    match Strings.IndexOf(url, "file:/")
    case None => url
    case Some(i) =>
      assert url[i..i + 6] == "file:/";
      assert url[i + 5] == '/';
      var rest := Strings.DropLeading(url[i + 5..], '/');
      var r := url[..i] + rest;
      assert r[..i] == url[..i] && r[i..] == rest;
      r
  }

  /** isMainModule as written: the stripped url compared with the normalised argv[1]. */
  function IsMainModuleAsWritten(url: string, argv1: Option<string>): (r: bool)
    ensures r ==> argv1.Some? && argv1.value != ""
    ensures r <==> ModulePath(argv1) != "" && StripFileScheme(url) == ModulePath(argv1)
  {
    var modulePath := ModulePath(argv1);
    modulePath != "" && StripFileScheme(url) == modulePath
  }

  /**
   * On a POSIX system the entry script's url is "file://" followed by its
   * absolute path; the slash run swallows the path's own leading '/', so the
   * comparison as written fails for the very module that was started.
   */
  lemma PosixEntryNotRecognised()
    ensures !IsMainModuleAsWritten("file:///app.js", Some("/app.js"))
  {
    var url := "file:///app.js";
    assert Strings.OccursAt(url, "file:/", 0);
    assert Strings.IndexOf(url, "file:/") == Some(0);
    assert StripFileScheme(url)[0] != '/';
  }

  /**
   * The check as evidently intended: the same normalisation on both sides,
   * with leading slashes ignored, so that "file:///C:/x.js" matches "C:\x.js"
   * and "file:///home/x.js" matches "/home/x.js".
   */
  function IsMainModule(url: string, argv1: Option<string>): (r: bool)
    ensures r ==> argv1.Some? && argv1.value != ""
    ensures IsMainModuleAsWritten(url, argv1) && (ModulePath(argv1)[0] != '/') ==> r
  {
    var modulePath := ModulePath(argv1);
    var stripped := StripFileScheme(url);
    if modulePath != "" && stripped == modulePath then
      assert Strings.DropLeading(stripped, '/') == Strings.DropLeading(modulePath, '/');
      true
    else
      modulePath != "" && Strings.DropLeading(stripped, '/') == Strings.DropLeading(modulePath, '/')
  }

  /** An absolute POSIX path without backslashes is recognised from its file url. */
  lemma PosixEntryRecognised(p: string)
    requires |p| >= 1 && p[0] == '/'
    requires forall i :: 0 <= i < |p| ==> p[i] != '\\'
    ensures IsMainModule("file://" + p, Some(p))
  {
    var url := "file://" + p;
    assert url[0..6] == "file:/";
    assert Strings.OccursAt(url, "file:/", 0);
    assert Strings.IndexOf(url, "file:/") == Some(0);
    assert ModulePath(Some(p)) == p;
    assert url[5..] == "//" + p;
    DropLeadingSlashes("//", p);
    assert StripFileScheme(url) == Strings.DropLeading(p, '/');
  }

  /** Dropping a leading run of slashes does not depend on how many there were. */
  lemma {:induction false} DropLeadingSlashes(slashes: string, p: string)
    requires forall i :: 0 <= i < |slashes| ==> slashes[i] == '/'
    ensures Strings.DropLeading(slashes + p, '/') == Strings.DropLeading(p, '/')
  {
    if slashes != [] {
      assert (slashes + p)[0] == '/';
      assert (slashes + p)[1..] == slashes[1..] + p;
      DropLeadingSlashes(slashes[1..], p);
    } else {
      assert slashes + p == p;
    }
  }
}
