/**
 * Artifact naming: `sanitize` turns a target URL into a file name, and the
 * fetch and screenshot stages store their artifacts under that name in
 * their own directory.
 */
module Artifacts {
  import opened Text

  const OutputDir: string := "output"
  const ScreenDir: string := "screenshots"
  const HttpScheme: string := "http://"
  const HttpsScheme: string := "https://"

  /**
   * `sanitize`: remove every `http://`, then every `https://`, then turn every
   * `/` into `_`. The name has no path separator and is never longer than the URL.
   */
  function Sanitize(url: string): (r: string)
    ensures '/' !in r
    ensures |r| <= |url|
  {
    var a := ReplaceAll(url, HttpScheme, "");
    var b := ReplaceAll(a, HttpsScheme, "");
    var c := ReplaceAll(b, "/", "_");
    ReplaceAllShrinks(url, HttpScheme, "");
    ReplaceAllShrinks(a, HttpsScheme, "");
    ReplaceAllChar(b, '/', '_');
    assert forall k :: 0 <= k < |c| ==> c[k] != '/';
    c
  }

  /** Both scheme markers contain a `/`, so neither can be left in a sanitized name. */
  lemma SanitizeHasNoScheme(url: string)
    ensures !Contains(Sanitize(url), HttpScheme)
    ensures !Contains(Sanitize(url), HttpsScheme)
  {
    var r := Sanitize(url);
    if Contains(r, HttpScheme) {
      ContainsChars(r, HttpScheme, '/');
    }
    if Contains(r, HttpsScheme) {
      ContainsChars(r, HttpsScheme, '/');
    }
  }

  /** Sanitizing a sanitized name changes nothing: every pass is a no-op on it. */
  lemma SanitizeIdempotent(url: string)
    ensures Sanitize(Sanitize(url)) == Sanitize(url)
  {
    var r := Sanitize(url);
    SanitizeHasNoScheme(url);
    ReplaceAllAbsent(r, HttpScheme, "");
    ReplaceAllAbsent(r, HttpsScheme, "");
    if Contains(r, "/") {
      ContainsChars(r, "/", '/');
    }
    ReplaceAllAbsent(r, "/", "_");
  }

  /**
   * A URL with no scheme marker anywhere keeps its length and its characters,
   * except that each `/` becomes `_`.
   */
  lemma SanitizeSchemeFree(url: string)
    requires !Contains(url, HttpScheme) && !Contains(url, HttpsScheme)
    ensures |Sanitize(url)| == |url|
    ensures forall k :: 0 <= k < |url| ==>
              Sanitize(url)[k] == (if url[k] == '/' then '_' else url[k])
  {
    ReplaceAllAbsent(url, HttpScheme, "");
    ReplaceAllAbsent(url, HttpsScheme, "");
    ReplaceAllChar(url, '/', '_');
  }

  /** `http://` at the front of a URL is simply dropped by the first pass. */
  lemma HttpPassDropsHttp(rest: string)
    ensures ReplaceAll(HttpScheme + rest, HttpScheme, "") == ReplaceAll(rest, HttpScheme, "")
  {
    var s := HttpScheme + rest;
    assert HttpScheme <= s;
    assert s[|HttpScheme|..] == rest;
  }

  /** The first pass finds no `http://` inside a leading `https://`, so it copies it. */
  lemma HttpPassKeepsHttps(rest: string)
    ensures ReplaceAll(HttpsScheme + rest, HttpScheme, "") == HttpsScheme + ReplaceAll(rest, HttpScheme, "")
  {
    var s := HttpsScheme + rest;
    forall j | 0 <= j < |HttpsScheme| ensures !(HttpScheme <= s[j..]) {
      assert s[j..][0] == HttpsScheme[j];
      if j == 0 {
        assert s[j..][4] == 's';
      }
    }
    ReplaceAllKeepsPrefix(s, |HttpsScheme|, HttpScheme, "");
    assert s[..|HttpsScheme|] == HttpsScheme;
    assert s[|HttpsScheme|..] == rest;
  }

  /**
   * The scheme does not reach the artifact name: `http://` + rest, `https://` + rest
   * and rest itself all sanitize to the same name.
   */
  lemma SanitizeSchemeInsensitive(rest: string)
    ensures Sanitize(HttpScheme + rest) == Sanitize(rest)
    ensures Sanitize(HttpsScheme + rest) == Sanitize(rest)
  {
    HttpPassDropsHttp(rest);
    HttpPassKeepsHttps(rest);
    var a := ReplaceAll(rest, HttpScheme, "");
    var s := HttpsScheme + a;
    assert HttpsScheme <= s;
    assert s[|HttpsScheme|..] == a;
    assert ReplaceAll(s, HttpsScheme, "") == ReplaceAll(a, HttpsScheme, "");
  }

  /** A URL without a scheme only has its `/` turned into `_`. */
  lemma SanitizePlainExample()
    ensures Sanitize("a.com/x") == "a.com_x"
  {
    NoSchemeWithoutColon("a.com/x");
    SanitizeSchemeFree("a.com/x");
  }

  /** The two scheme variants of `a.com/x` collide on the name `a.com_x`. */
  lemma SanitizeCollision()
    ensures Sanitize("https://a.com/x") == Sanitize("http://a.com/x") == "a.com_x"
  {
    SanitizeSchemeInsensitive("a.com/x");
    assert HttpScheme + "a.com/x" == "http://a.com/x";
    assert HttpsScheme + "a.com/x" == "https://a.com/x";
    SanitizePlainExample();
  }

  /** Around an embedded `http://`, text without `:` only has its `/` turned into `_`. */
  lemma SanitizeDropsEmbedded(pre: string, rest: string)
    requires ':' !in pre && ':' !in rest
    ensures Sanitize(pre + HttpScheme + rest) == ReplaceAll(pre + rest, "/", "_")
  {
    NoSchemeWithoutColon(pre);
    HttpPassDropsEmbedded(pre, rest);
    NoSchemeWithoutColon(rest);
    ReplaceAllAbsent(rest, HttpScheme, "");
    var a := pre + rest;
    assert ':' !in a;
    NoSchemeWithoutColon(a);
    ReplaceAllAbsent(a, HttpsScheme, "");
  }

  /** A scheme marker is removed wherever it occurs, not only at the front of the URL. */
  lemma SanitizeStripsEmbeddedScheme()
    ensures Sanitize("a.com/?u=http://b") == "a.com_?u=b"
  {
    var pre, rest := "a.com/?u=", "b";
    var u := pre + HttpScheme + rest;
    assert pre + HttpScheme == "a.com/?u=http://";
    assert u == "a.com/?u=http://b";
    SanitizeDropsEmbedded(pre, rest);
    var a := pre + rest;
    assert a == "a.com/?u=b";
    ReplaceAllChar(a, '/', '_');
    assert ReplaceAll(a, "/", "_") == "a.com_?u=b";
  }

  /** A string without `:` holds neither scheme marker. */
  lemma NoSchemeWithoutColon(s: string)
    requires ':' !in s
    ensures !Contains(s, HttpScheme) && !Contains(s, HttpsScheme)
  {
    if Contains(s, HttpScheme) {
      ContainsChars(s, HttpScheme, ':');
    }
    if Contains(s, HttpsScheme) {
      ContainsChars(s, HttpsScheme, ':');
    }
  }

  /**
   * An `http://` after text that holds no `http://` of its own is dropped by the
   * first pass: the marker does not overlap itself, so no match can start inside
   * that text, not even one reaching into the marker.
   */
  lemma HttpPassDropsEmbedded(pre: string, rest: string)
    requires !Contains(pre, HttpScheme)
    ensures ReplaceAll(pre + HttpScheme + rest, HttpScheme, "") == pre + ReplaceAll(rest, HttpScheme, "")
  {
    var s := pre + HttpScheme + rest;
    var n := |HttpScheme|;
    assert NoMatchBefore(s, HttpScheme, |pre|) by {
      forall j | 0 <= j < |pre| ensures !(HttpScheme <= s[j..]) {
        if j + n <= |pre| {
          assert !OccursAt(pre, HttpScheme, j);
          assert s[j..][..n] == pre[j..j + n];
        } else {
          var d := |pre| - j;
          assert s[j..][d] == s[|pre|] == 'h';
          assert HttpScheme[d] != 'h';
        }
      }
    }
    ReplaceAllKeepsPrefix(s, |pre|, HttpScheme, "");
    assert s[..|pre|] == pre;
    assert s[|pre|..] == HttpScheme + rest;
    HttpPassDropsHttp(rest);
  }

  /** `hhttp://x` keeps its first `h`: the first pass gives `hx`. */
  lemma HttpPassAfterStrayH()
    ensures ReplaceAll("hhttp://x", HttpScheme, "") == "hx"
  {
    var pre, rest := "h", "x";
    NoSchemeWithoutColon(pre);
    HttpPassDropsEmbedded(pre, rest);
    NoSchemeWithoutColon(rest);
    ReplaceAllAbsent(rest, HttpScheme, "");
    assert pre + HttpScheme + rest == "hhttp://x";
  }

  /** The path of an artifact: `<dir>/<sanitized name><extension>`. */
  function ArtifactPath(dir: string, url: string, ext: string): (p: string)
    ensures |p| == |dir| + 1 + |Sanitize(url)| + |ext|
    ensures p[..|dir| + 1] == dir + "/"
    ensures p[|dir| + 1..|p| - |ext|] == Sanitize(url)
    ensures p[|p| - |ext|..] == ext
  {
    dir + "/" + Sanitize(url) + ext
  }

  /** Where `fetchHTML` stores the page body. */
  function HtmlPath(url: string): (p: string)
    ensures |p| >= |OutputDir| + 6
    ensures p[..|OutputDir| + 1] == OutputDir + "/" && p[|p| - 5..] == ".html"
  {
    ArtifactPath(OutputDir, url, ".html")
  }

  /** Where `takeScreenshot` stores the image. */
  function PngPath(url: string): (p: string)
    ensures |p| >= |ScreenDir| + 5
    ensures p[..|ScreenDir| + 1] == ScreenDir + "/" && p[|p| - 4..] == ".png"
  {
    ArtifactPath(ScreenDir, url, ".png")
  }

  /**
   * An artifact lands directly in its directory: after `<dir>/` the path has no
   * further separator, whatever the URL holds.
   */
  lemma ArtifactInDirectory(dir: string, url: string, ext: string)
    requires '/' !in ext
    ensures '/' !in ArtifactPath(dir, url, ext)[|dir| + 1..]
  {
    var p := ArtifactPath(dir, url, ext);
    assert p[|dir| + 1..] == Sanitize(url) + ext;
  }

  /** Two URLs share an artifact path exactly when they share a sanitized name. */
  lemma ArtifactPathCollides(dir: string, ext: string, u: string, v: string)
    ensures ArtifactPath(dir, u, ext) == ArtifactPath(dir, v, ext) <==> Sanitize(u) == Sanitize(v)
  {
    var p, q := ArtifactPath(dir, u, ext), ArtifactPath(dir, v, ext);
    if p == q {
      assert Sanitize(u) == p[|dir| + 1..|p| - |ext|] == q[|dir| + 1..|q| - |ext|] == Sanitize(v);
    }
  }

  /**
   * Last write wins: the `http://` and `https://` forms of a target write both
   * artifacts to the same two files.
   */
  lemma SchemeVariantsShareArtifacts(rest: string)
    ensures HtmlPath(HttpScheme + rest) == HtmlPath(HttpsScheme + rest) == HtmlPath(rest)
    ensures PngPath(HttpScheme + rest) == PngPath(HttpsScheme + rest) == PngPath(rest)
  {
    SanitizeSchemeInsensitive(rest);
  }

  /** A page body and a screenshot never share a path. */
  lemma HtmlAndPngDiffer(u: string, v: string)
    ensures HtmlPath(u) != PngPath(v)
  {
    var p, q := HtmlPath(u), PngPath(v);
    assert p[..|OutputDir| + 1][0] == 'o';
    assert q[..|ScreenDir| + 1][0] == 's';
  }
}
