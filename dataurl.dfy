/** The anchored, single-match removal of a base64 image data-URL prefix that both engine adapters
    perform: `imageData.replace(/^data:image\/\w+;base64,/, "")`. */
module DataUrl {

  const Scheme: string := "data:image/"
  const Marker: string := ";base64,"

  /** The characters `\w` matches: ASCII letters, digits and the underscore. */
  predicate IsWordChar(c: char) {
    ('A' <= c <= 'Z') || ('a' <= c <= 'z') || ('0' <= c <= '9') || c == '_'
  }

  predicate IsWord(w: string) {
    |w| > 0 && forall i :: 0 <= i < |w| ==> IsWordChar(w[i])
  }

  /** `p` is a string the pattern matches as a whole: the scheme, one or more word characters,
      then the base64 marker. */
  predicate IsPrefix(p: string) {
    && |p| > |Scheme| + |Marker|
    && p[..|Scheme|] == Scheme
    && p[|p| - |Marker|..] == Marker
    && forall i :: |Scheme| <= i < |p| - |Marker| ==> IsWordChar(p[i])
  }

  /** The length of the run of word characters that `s` starts with. */
  function WordRun(s: string): (n: nat)
    ensures n <= |s|
    ensures forall i :: 0 <= i < n ==> IsWordChar(s[i])
    ensures n < |s| ==> !IsWordChar(s[n])
  {
    if s == [] || !IsWordChar(s[0]) then 0 else 1 + WordRun(s[1..])
  }

  /** A match can only end right after the run of word characters that follows the scheme,
      because the marker begins with ';', which is not a word character. */
  lemma PrefixEndsAfterWordRun(s: string, k: nat)
    requires k <= |s| && IsPrefix(s[..k])
    ensures |Scheme| <= |s|
    ensures k == |Scheme| + WordRun(s[|Scheme|..]) + |Marker|
  {
    var n := WordRun(s[|Scheme|..]);
    var w := k - |Marker| - |Scheme|;
    assert s[..k][k - |Marker|] == Marker[0];
    assert forall i :: 0 <= i < w ==> IsWordChar(s[|Scheme|..][i]) by {
      forall i | 0 <= i < w ensures IsWordChar(s[|Scheme|..][i]) {
        assert s[|Scheme|..][i] == s[..k][|Scheme| + i];
      }
    }
    assert !IsWordChar(s[|Scheme|..][w]);
  }

  /** The pattern matches at most one prefix of any string. */
  lemma PrefixUnique(s: string, k1: nat, k2: nat)
    requires k1 <= |s| && k2 <= |s| && IsPrefix(s[..k1]) && IsPrefix(s[..k2])
    ensures k1 == k2
  {
    PrefixEndsAfterWordRun(s, k1);
    PrefixEndsAfterWordRun(s, k2);
  }

  /** The length of the prefix the pattern matches, or 0 when it does not match. */
  function MatchLength(s: string): (n: nat)
    ensures n <= |s|
    ensures n > 0 ==> IsPrefix(s[..n])
    ensures n == 0 ==> forall k :: 0 <= k <= |s| ==> !IsPrefix(s[..k])
  {
    if |s| < |Scheme| || s[..|Scheme|] != Scheme then
      assert forall k :: 0 <= k <= |s| && IsPrefix(s[..k]) ==> s[..|Scheme|] == s[..k][..|Scheme|];
      0
    else
      var w := WordRun(s[|Scheme|..]);
      var end := |Scheme| + w;
      if w > 0 && end + |Marker| <= |s| && s[end..end + |Marker|] == Marker then
        var p := s[..end + |Marker|];
        assert p[..|Scheme|] == Scheme;
        assert p[|p| - |Marker|..] == Marker;
        assert forall i :: |Scheme| <= i < |p| - |Marker| ==> p[i] == s[|Scheme|..][i - |Scheme|];
        end + |Marker|
      else
        assert forall k :: 0 <= k <= |s| ==> !IsPrefix(s[..k]) by {
          forall k | 0 <= k <= |s| && IsPrefix(s[..k]) ensures false {
            PrefixEndsAfterWordRun(s, k);
          }
        }
        0
  }

  /** `s` with its leading data-URL prefix removed, if it has one. The removed part is a match of
      the pattern; when nothing is removed, no prefix of `s` matches. */
  function Strip(s: string): (r: string)
    ensures |r| <= |s| && s == s[..|s| - |r|] + r
    ensures |r| < |s| ==> IsPrefix(s[..|s| - |r|])
    ensures r == s ==> forall k :: 0 <= k <= |s| ==> !IsPrefix(s[..k])
  {
    var n := MatchLength(s);
    assert s == s[..n] + s[n..];
    s[n..]
  }

  /** Whatever follows a well-formed prefix is exactly what is left after stripping. */
  lemma StripWrapped(w: string, rest: string)
    requires IsWord(w)
    ensures Strip(Scheme + w + Marker + rest) == rest
  {
    var s := Scheme + w + Marker + rest;
    var k := |Scheme| + |w| + |Marker|;
    var p := s[..k];
    assert p == Scheme + w + Marker;
    assert forall i :: |Scheme| <= i < |p| - |Marker| ==> p[i] == w[i - |Scheme|];
    assert IsPrefix(p);
    var r := Strip(s);
    if |r| < |s| {
      PrefixUnique(s, k, |s| - |r|);
    }
  }

  /** Only an image type made of word characters is recognised: when the word run after the
      scheme is followed by anything but ';', the string passes unchanged. */
  lemma NonWordTypeUnchanged(w: string, c: char, rest: string)
    requires IsWord(w) && !IsWordChar(c) && c != ';'
    ensures Strip(Scheme + w + [c] + rest) == Scheme + w + [c] + rest
  {
    var s := Scheme + w + [c] + rest;
    var t := s[|Scheme|..];
    assert t == w + [c] + rest;
    assert forall i :: 0 <= i < |w| ==> IsWordChar(t[i]);
    assert WordRun(t) == |w| by {
      assert !IsWordChar(t[|w|]);
    }
    forall k | 0 <= k <= |s| && IsPrefix(s[..k]) ensures false {
      PrefixEndsAfterWordRun(s, k);
    }
  }

  /** An SVG data URL, whose type `svg+xml` contains '+', is left as it is. */
  lemma SvgDataUrlUnchanged()
    ensures Strip("data:image/svg+xml;base64,PHN2Zz4=") == "data:image/svg+xml;base64,PHN2Zz4="
  {
    assert "data:image/svg+xml;base64,PHN2Zz4=" == Scheme + "svg" + ['+'] + "xml;base64,PHN2Zz4=";
    NonWordTypeUnchanged("svg", '+', "xml;base64,PHN2Zz4=");
  }

  /** The pattern is anchored: a data URL that does not start the string is not removed. */
  lemma NotAtStartUnchanged(rest: string)
    ensures Strip(" " + Scheme + "png" + Marker + rest) == " " + Scheme + "png" + Marker + rest
  {
    var s := " " + Scheme + "png" + Marker + rest;
    assert s[0] != Scheme[0];
    assert s[..|Scheme|] != Scheme;
  }
}
