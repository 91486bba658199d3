/**
 * The favicon middleware: which requests it answers, the SVG it serves
 * (the project's favicon, or a placeholder, with the first
 * `fill="currentColor"` painted in the primary colour), and the status and
 * headers it sets on the response, one after another. The SHA-1 digest
 * behind the ETag is a parameter.
 */
module Favicon {
  import opened Wrappers
  import Strings

  /** The placeholder served when the project has no favicon. */
  const NoFavicon: string := "<svg><!-- No favicon provided --></svg>"

  /** The attribute painted in the primary colour. */
  const CurrentColorFill: string := "fill=\"currentColor\""

  const OneYearMs: nat := 60 * 60 * 24 * 365 * 1000

  /** The characters `.` does not match in a JavaScript regular expression. */
  predicate IsLineTerminator(c: char) {
    c == '\n' || c == '\r' || c == '\U{2028}' || c == '\U{2029}'
  }

  /**
   * `/\/favicon.svg$/.test(path)`: the path ends with "/favicon", any one
   * character other than a line terminator, and "svg".
   */
  predicate IsFaviconPath(path: string) {
    && |path| >= 12
    && path[|path| - 12..|path| - 4] == "/favicon"
    && !IsLineTerminator(path[|path| - 4])
    && path[|path| - 3..] == "svg"
  }

  /** The dot in the pattern is not escaped: any character may stand between "favicon" and "svg". */
  lemma DotMatchesAnyCharacter(prefix: string, c: char)
    requires !IsLineTerminator(c)
    ensures IsFaviconPath(prefix + "/favicon.svg")
    ensures IsFaviconPath(prefix + "/favicon" + [c] + "svg")
    ensures !IsFaviconPath(prefix + "/favicon.svg/")
  {
    var p := prefix + "/favicon" + [c] + "svg";
    assert p[|p| - 12..|p| - 4] == "/favicon" && p[|p| - 4] == c && p[|p| - 3..] == "svg";
    var q := prefix + "/favicon.svg";
    assert q[|q| - 12..|q| - 4] == "/favicon" && q[|q| - 3..] == "svg";
    var t := prefix + "/favicon.svg/";
    assert t[|t| - 3..] == "vg/";
  }

  /** The number of bytes a character takes in UTF-8. */
  function Utf8Width(c: char): nat {
    if c as int < 0x80 then 1
    else if c as int < 0x800 then 2
    else if c as int < 0x10000 then 3
    else 4
  }

  /** `Buffer.byteLength(s, 'utf8')`. */
  function Utf8Length(s: string): nat {
    if s == [] then 0 else Utf8Length(s[..|s| - 1]) + Utf8Width(s[|s| - 1])
  }

  /** The number of UTF-16 code units a character takes: two for one outside the Basic Multilingual Plane. */
  function Utf16Width(c: char): nat {
    if c as int < 0x10000 then 1 else 2
  }

  /** `s.length`: the JavaScript length of a string, in UTF-16 code units. */
  function Utf16Length(s: string): nat {
    if s == [] then 0 else Utf16Length(s[..|s| - 1]) + Utf16Width(s[|s| - 1])
  }

  /**
   * A string never has more UTF-16 units than UTF-8 bytes, and the two
   * counts agree exactly when every character is ASCII.
   */
  lemma {:induction false} LengthsAgreeIffAscii(s: string)
    ensures Utf16Length(s) <= Utf8Length(s)
    ensures Utf16Length(s) == Utf8Length(s) <==> forall i :: 0 <= i < |s| ==> s[i] as int < 0x80
  {
    if s != [] {
      var init := s[..|s| - 1];
      LengthsAgreeIffAscii(init);
      if forall i :: 0 <= i < |s| ==> s[i] as int < 0x80 {
        forall i | 0 <= i < |init| ensures init[i] as int < 0x80 {
          assert init[i] == s[i];
        }
      } else if forall i :: 0 <= i < |init| ==> init[i] as int < 0x80 {
        assert !(s[|s| - 1] as int < 0x80) by {
          forall i | 0 <= i < |s| - 1 ensures s[i] as int < 0x80 {
            assert s[i] == init[i];
          }
        }
      } else {
        assert Utf16Length(init) < Utf8Length(init);
      }
    }
  }

  /** Up to the first `n` characters of `s`, as `s.substring(0, n)`. */
  function Prefix(s: string, n: nat): (r: string)
    ensures |r| <= n && Strings.StartsWith(s, r)
    ensures |s| >= n ==> |r| == n
  {
    if |s| <= n then s else s[..n]
  }

  /** etagS: the quoted UTF-8 byte length in hexadecimal, a dash and the first 27 characters of the base64 SHA-1. */
  function ETag(entity: string, sha1Base64: string -> string): string {
    "\"" + Strings.NatToHex(Utf8Length(entity)) + "-" + Prefix(sha1Base64(entity), 27) + "\""
  }

  /**
   * The ETag reads back: it is quoted, its first dash ends the length
   * field, which is the entity's byte length in hexadecimal, and what
   * follows is a prefix of at most 27 characters of the digest.
   */
  lemma ETagFields(entity: string, sha1Base64: string -> string)
    ensures var tag := ETag(entity, sha1Base64);
      && |tag| >= 4 && tag[0] == '"' && tag[|tag| - 1] == '"'
      && Strings.IndexOf(tag, "-").Some?
      && var i := Strings.IndexOf(tag, "-").value;
      && 2 <= i < |tag| - 1
      && tag[1..i] == Strings.NatToHex(Utf8Length(entity))
      && |tag[i + 1..|tag| - 1]| <= 27
      && Strings.StartsWith(sha1Base64(entity), tag[i + 1..|tag| - 1])
  {
    var hex := Strings.NatToHex(Utf8Length(entity));
    var hash := Prefix(sha1Base64(entity), 27);
    var tag := ETag(entity, sha1Base64);
    var i := |hex| + 1;
    assert tag == "\"" + hex + "-" + hash + "\"";
    assert Strings.OccursAt(tag, "-", i) by {
      assert tag[i..i + 1] == "-";
    }
    forall j | 0 <= j < i ensures !Strings.OccursAt(tag, "-", j) {
      if j >= 1 {
        assert tag[j] == hex[j - 1];
        assert Strings.IsHexDigit(hex[j - 1]);
        assert tag[j..j + 1] == [tag[j]];
      } else {
        assert tag[0..1] == "\"";
      }
    }
    assert Strings.IndexOf(tag, "-") == Some(i);
    assert tag[1..i] == hex;
    assert tag[i + 1..|tag| - 1] == hash;
  }

  /** `assets?.favicon || placeholder`: the project's favicon, or the placeholder when it has none or it is empty. */
  function FaviconSource(favicon: Option<string>): string {
    if favicon.Some? && favicon.value != "" then favicon.value else NoFavicon
  }

  /** The attribute that paints in a colour. */
  function Paint(color: string): (r: string)
    ensures |r| == |color| + 7
  {
    "fill=\"" + color + "\""
  }

  /**
   * getFaviconSvg: the favicon (or the placeholder) with its first
   * `fill="currentColor"`, and only that one, replaced by
   * `fill="<primary colour>"`.
   */
  function GetFaviconSvg(favicon: Option<string>, primaryColor: string): (r: string)
    ensures var svg := FaviconSource(favicon);
      && (Strings.IndexOf(svg, CurrentColorFill).None? ==> r == svg)
      && (Strings.IndexOf(svg, CurrentColorFill).Some? ==>
            var i := Strings.IndexOf(svg, CurrentColorFill).value;
            && (forall j :: 0 <= j < i ==> !Strings.OccursAt(svg, CurrentColorFill, j))
            && r == svg[..i] + Paint(primaryColor) + svg[i + |CurrentColorFill|..])
  {
    Strings.ReplaceFirst(FaviconSource(favicon), CurrentColorFill, Paint(primaryColor))
  }

  /** The placeholder has no `=` sign, so it holds no attribute to paint. */
  lemma PlaceholderHasNoEquals()
    ensures forall k :: 0 <= k < |NoFavicon| ==> NoFavicon[k] != '='
  {
    assert '=' !in NoFavicon;
  }

  /** Without a favicon the placeholder is served as it is: it has nothing to paint. */
  lemma PlaceholderIsUnpainted(primaryColor: string)
    ensures GetFaviconSvg(None, primaryColor) == NoFavicon
    ensures GetFaviconSvg(Some(""), primaryColor) == NoFavicon
  {
    PlaceholderHasNoEquals();
    var pat := CurrentColorFill;
    assert pat[4] == '=';
    forall j ensures !Strings.OccursAt(NoFavicon, pat, j) {
      if 0 <= j && j + |pat| <= |NoFavicon| {
        assert NoFavicon[j..j + |pat|][4] == NoFavicon[j + 4];
      }
    }
  }

  /** Only the first occurrence is painted: any later `fill="currentColor"` is still there, shifted by the colour's length. */
  lemma LaterFillsKept(favicon: string, primaryColor: string, k: nat)
    requires favicon != ""
    requires Strings.IndexOf(favicon, CurrentColorFill).Some?
    requires Strings.IndexOf(favicon, CurrentColorFill).value + |CurrentColorFill| <= k
    requires Strings.OccursAt(favicon, CurrentColorFill, k)
    ensures Strings.OccursAt(GetFaviconSvg(Some(favicon), primaryColor), CurrentColorFill, k + |primaryColor| + 7 - |CurrentColorFill|)
  {
    var i := Strings.IndexOf(favicon, CurrentColorFill).value;
    assert GetFaviconSvg(Some(favicon), primaryColor)
      == favicon[..i] + Paint(primaryColor) + favicon[i + |CurrentColorFill|..];
    SpliceKeepsLater(favicon, i, CurrentColorFill, Paint(primaryColor), k);
  }

  /** Replacing `pat` at `i` keeps a later occurrence of it, shifted by the change in length. */
  lemma SpliceKeepsLater(s: string, i: nat, pat: string, rep: string, k: nat)
    requires i + |pat| <= k && Strings.OccursAt(s, pat, k)
    ensures Strings.OccursAt(s[..i] + rep + s[i + |pat|..], pat, k + |rep| - |pat|)
  {
    var head := s[..i] + rep;
    var tail := s[i + |pat|..];
    var k' := k - (i + |pat|);
    assert tail[k'..k' + |pat|] == s[k..k + |pat|];
    KeptInTail(head + tail, head, tail, pat, k', k + |rep| - |pat|);
  }

  lemma KeptInTail(r: string, head: string, tail: string, pat: string, k: nat, at: int)
    requires r == head + tail && at == |head| + k
    requires k + |pat| <= |tail| && tail[k..k + |pat|] == pat
    ensures Strings.OccursAt(r, pat, at)
  {
    assert r[|head|..] == tail;
    assert r[|head| + k..|head| + k + |pat|] == tail[k..k + |pat|];
  }

  /** `public, max-age=<one year in seconds>`. */
  function CacheControl(): (r: string)
    ensures r == "public, max-age=31536000"
  {
    assert OneYearMs / 1000 == 31536000;
    assert Strings.NatToString(3) == "3";
    assert Strings.NatToString(31) == "31";
    assert Strings.NatToString(315) == "315";
    assert Strings.NatToString(3153) == "3153";
    assert Strings.NatToString(31536) == "31536";
    assert Strings.NatToString(315360) == "315360";
    assert Strings.NatToString(3153600) == "3153600";
    "public, max-age=" + Strings.NatToString(OneYearMs / 1000)
  }

  /** The Content-Length header as the middleware sets it: the string's JavaScript length. */
  function ContentLengthAsWritten(svg: string): (r: string)
    ensures Strings.AllDigits(r) && Strings.ParseDigits(r) == Utf16Length(svg)
  {
    Strings.ParseNatToString(Utf16Length(svg));
    Strings.NatToString(Utf16Length(svg))
  }

  /** The Content-Length header for a body sent as UTF-8: its byte length. */
  function ContentLength(svg: string): (r: string)
    ensures Strings.AllDigits(r) && Strings.ParseDigits(r) == Utf8Length(svg)
  {
    Strings.ParseNatToString(Utf8Length(svg));
    Strings.NatToString(Utf8Length(svg))
  }

  /** Both counts add up over a concatenation. */
  lemma {:induction false} LengthsAppend(a: string, b: string)
    ensures Utf8Length(a + b) == Utf8Length(a) + Utf8Length(b)
    ensures Utf16Length(a + b) == Utf16Length(a) + Utf16Length(b)
    decreases |b|
  {
    if b == [] {
      assert a + b == a;
    } else {
      assert (a + b)[..|a + b| - 1] == a + b[..|b| - 1];
      LengthsAppend(a, b[..|b| - 1]);
    }
  }

  /** An ASCII string takes one byte and one UTF-16 unit per character. */
  lemma {:induction false} AsciiLengths(s: string)
    requires forall i :: 0 <= i < |s| ==> s[i] as int < 0x80
    ensures Utf8Length(s) == |s| && Utf16Length(s) == |s|
  {
    if s != [] {
      AsciiLengths(s[..|s| - 1]);
    }
  }

  /**
   * As written, a favicon with one non-ASCII character, such as the "\U{E9}"
   * of "<svg>\U{E9}</svg>" (one UTF-16 unit, two UTF-8 bytes), is announced
   * one byte shorter than the body sent, while its own ETag counts the
   * bytes correctly.
   */
  lemma ContentLengthUnderstatesBody()
    ensures var svg := "<svg>\U{E9}</svg>";
      && Strings.ParseDigits(ContentLengthAsWritten(svg)) == 12
      && Utf8Length(svg) == 13
      && ContentLength(svg) == "13"
  {
    var open, e, close := "<svg>", "\U{E9}", "</svg>";
    AsciiLengths(open);
    AsciiLengths(close);
    LengthsAppend(open, e);
    LengthsAppend(open + e, close);
    assert open + e + close == "<svg>\U{E9}</svg>";
    Strings.ParseNatToString(12);
    assert Strings.NatToString(1) == "1";
    assert Strings.NatToString(13) == "13";
  }

  /** A response under construction: its status code, its headers and, once ended, the body it was ended with. */
  class HttpResponse {
    var statusCode: int
    var headers: map<string, string>
    var body: Option<string>

    /** A fresh response: status 200, no headers, not yet ended. */
    constructor()
      ensures statusCode == 200 && headers == map[] && body.None?
    {
      statusCode := 200;
      headers := map[];
      body := None;
    }

    /** `res.setHeader(name, value)`: the header is set, replacing any earlier value. */
    method SetHeader(name: string, value: string)
      modifies this`headers
      ensures headers == old(headers)[name := value]
    {
      headers := headers[name := value];
    }

    /** `res.end(body)`. */
    method End(content: string)
      modifies this`body
      ensures body == Some(content)
    {
      body := Some(content);
    }
  }

  /** The headers a GET or HEAD of the favicon adds, in the order they are set. */
  function ServedHeaders(before: map<string, string>, svg: string, contentLength: string,
                         sha1Base64: string -> string): map<string, string> {
    before["Cache-Control" := CacheControl()]["ETag" := ETag(svg, sha1Base64)]
      ["Content-Length" := contentLength]["Content-Type" := "image/svg+xml"]
  }

  /**
   * The faviconSvg middleware as written: any other path goes on to the
   * next handler untouched; a method other than GET and HEAD is refused
   * (OPTIONS with 200, anything else with 405) with an empty body listing
   * the allowed methods; GET and HEAD get the SVG, cacheable for a year,
   * with its ETag, its content type and, as Content-Length, its JavaScript
   * string length.
   */
  method FaviconSvg(path: string, httpMethod: string, favicon: Option<string>, primaryColor: string,
                    sha1Base64: string -> string, res: HttpResponse)
    returns (callsNext: bool)
    modifies res
    ensures callsNext <==> !IsFaviconPath(path)
    ensures callsNext ==> unchanged(res)
    ensures !callsNext && httpMethod != "GET" && httpMethod != "HEAD" ==>
      && res.statusCode == (if httpMethod == "OPTIONS" then 200 else 405)
      && res.headers == old(res.headers)["Allow" := "GET, HEAD, OPTIONS"]["Content-Length" := "0"]
      && res.body == Some("")
    ensures !callsNext && (httpMethod == "GET" || httpMethod == "HEAD") ==>
      var svg := GetFaviconSvg(favicon, primaryColor);
      && res.statusCode == 200
      && res.headers == ServedHeaders(old(res.headers), svg, ContentLengthAsWritten(svg), sha1Base64)
      && res.body == Some(svg)
  {
    var svg := GetFaviconSvg(favicon, primaryColor);
    callsNext := Serve(path, httpMethod, svg, ContentLengthAsWritten(svg), sha1Base64, res);
  }

  /** The middleware with the Content-Length corrected to the body's UTF-8 byte length. */
  method FaviconSvgCorrected(path: string, httpMethod: string, favicon: Option<string>, primaryColor: string,
                             sha1Base64: string -> string, res: HttpResponse)
    returns (callsNext: bool)
    modifies res
    ensures callsNext <==> !IsFaviconPath(path)
    ensures callsNext ==> unchanged(res)
    ensures !callsNext && httpMethod != "GET" && httpMethod != "HEAD" ==>
      && res.statusCode == (if httpMethod == "OPTIONS" then 200 else 405)
      && res.headers == old(res.headers)["Allow" := "GET, HEAD, OPTIONS"]["Content-Length" := "0"]
      && res.body == Some("")
    ensures !callsNext && (httpMethod == "GET" || httpMethod == "HEAD") ==>
      var svg := GetFaviconSvg(favicon, primaryColor);
      && res.statusCode == 200
      && res.headers == ServedHeaders(old(res.headers), svg, ContentLength(svg), sha1Base64)
      && res.body == Some(svg)
  {
    var svg := GetFaviconSvg(favicon, primaryColor);
    callsNext := Serve(path, httpMethod, svg, ContentLength(svg), sha1Base64, res);
  }

  /** The steps both middlewares share, given the SVG and the Content-Length to announce. */
  method Serve(path: string, httpMethod: string, svg: string, contentLength: string,
               sha1Base64: string -> string, res: HttpResponse)
    returns (callsNext: bool)
    modifies res
    ensures callsNext <==> !IsFaviconPath(path)
    ensures callsNext ==> unchanged(res)
    ensures !callsNext && httpMethod != "GET" && httpMethod != "HEAD" ==>
      && res.statusCode == (if httpMethod == "OPTIONS" then 200 else 405)
      && res.headers == old(res.headers)["Allow" := "GET, HEAD, OPTIONS"]["Content-Length" := "0"]
      && res.body == Some("")
    ensures !callsNext && (httpMethod == "GET" || httpMethod == "HEAD") ==>
      && res.statusCode == 200
      && res.headers == ServedHeaders(old(res.headers), svg, contentLength, sha1Base64)
      && res.body == Some(svg)
  {
    if !IsFaviconPath(path) {
      return true;
    }
    callsNext := false;
    if httpMethod != "GET" && httpMethod != "HEAD" {
      res.statusCode := if httpMethod == "OPTIONS" then 200 else 405;
      res.SetHeader("Allow", "GET, HEAD, OPTIONS");
      res.SetHeader("Content-Length", "0");
      res.End("");
      return;
    }
    res.SetHeader("Cache-Control", CacheControl());
    res.SetHeader("ETag", ETag(svg, sha1Base64));
    res.SetHeader("Content-Length", contentLength);
    res.SetHeader("Content-Type", "image/svg+xml");
    res.statusCode := 200;
    res.End(svg);
  }

  /**
   * As written, the announced length is the body's byte length exactly when
   * the SVG is all ASCII.
   */
  lemma ServedLengthAsWritten(before: map<string, string>, favicon: Option<string>, primaryColor: string,
                              sha1Base64: string -> string)
    ensures var svg := GetFaviconSvg(favicon, primaryColor);
      var h := ServedHeaders(before, svg, ContentLengthAsWritten(svg), sha1Base64);
      && "Content-Length" in h && Strings.AllDigits(h["Content-Length"])
      && (Strings.ParseDigits(h["Content-Length"]) == Utf8Length(svg) <==> forall i :: 0 <= i < |svg| ==> svg[i] as int < 0x80)
  {
    LengthsAgreeIffAscii(GetFaviconSvg(favicon, primaryColor));
  }

  /**
   * A corrected served favicon is announced with its true size: the Content-Length
   * is the byte length of the body, the same number the ETag's length
   * field gives in hexadecimal.
   */
  lemma ServedLengthMatchesBody(before: map<string, string>, favicon: Option<string>, primaryColor: string,
                                sha1Base64: string -> string)
    ensures var svg := GetFaviconSvg(favicon, primaryColor);
      var h := ServedHeaders(before, svg, ContentLength(svg), sha1Base64);
      && "Content-Length" in h && Strings.AllDigits(h["Content-Length"])
      && Strings.ParseDigits(h["Content-Length"]) == Utf8Length(svg)
      && "ETag" in h && h["ETag"][1..|Strings.NatToHex(Utf8Length(svg))| + 1] == Strings.NatToHex(Utf8Length(svg))
      && h["Cache-Control"] == "public, max-age=31536000" && h["Content-Type"] == "image/svg+xml"
  {
    var svg := GetFaviconSvg(favicon, primaryColor);
    ETagFields(svg, sha1Base64);
    var tag := ETag(svg, sha1Base64);
    assert tag[1..|Strings.NatToHex(Utf8Length(svg))| + 1] == Strings.NatToHex(Utf8Length(svg));
  }
}
