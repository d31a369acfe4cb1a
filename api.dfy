/**
 * The API base URL and the path join (src/lib/api.ts). The configured raw
 * base is trimmed, given the secure scheme when it has none, and stripped of
 * its trailing slashes; paths are joined to it with one slash.
 */
module Api {
  import opened Wrappers
  import opened Text

  /** The raw base used when no base URL is configured. */
  const DefaultRawBase := "http://localhost:3000"

  /** The configured value, or the default when it is unset (`??` only replaces `undefined` and `null`, never `""`). */
  function RawBase(configured: Option<string>): (raw: string)
    ensures configured.None? ==> raw == DefaultRawBase
    ensures configured.Some? ==> raw == configured.value
  {
    match configured
    case Some(value) => value
    case None => DefaultRawBase
  }

  /** The first four characters of `s` spell `http`, letters in any case. */
  predicate HttpLetters(s: string)
  {
    && |s| >= 4
    && AsciiLower(s[0]) == 'h' && AsciiLower(s[1]) == 't'
    && AsciiLower(s[2]) == 't' && AsciiLower(s[3]) == 'p'
  }

  /**
   * The length of the match of `/^https?:\/\//i` on `s`: 7 for `http://`, 8
   * for `https://` (letters in any case), 0 when it does not match.
   */
  function SchemeLength(s: string): (n: nat)
    ensures n == 0 || n == 7 || n == 8
    ensures n <= |s|
  {
    if !HttpLetters(s) then 0
    else if |s| >= 7 && s[4] == ':' && s[5] == '/' && s[6] == '/' then 7
    else if |s| >= 8 && AsciiLower(s[4]) == 's' && s[5] == ':' && s[6] == '/' && s[7] == '/' then 8
    else 0
  }

  /** `/^https?:\/\//i.test(s)`: `s` starts with `http://` or `https://`, letters in any case. */
  predicate HasScheme(s: string)
  {
    SchemeLength(s) != 0
  }

  /** `s` begins with `http:` or `https:`, letters in any case. */
  predicate HasSchemeName(s: string)
  {
    HttpLetters(s) && ((|s| >= 5 && s[4] == ':') || (|s| >= 6 && AsciiLower(s[4]) == 's' && s[5] == ':'))
  }

  /** Lines 3-5: `https://` is put in front of a value that has no scheme; a value that has one is left as it is. */
  function WithScheme(s: string): (r: string)
    ensures HasScheme(r)
    ensures HasScheme(s) ==> r == s
    ensures !HasScheme(s) ==> r == "https://" + s
  {
    if HasScheme(s) then s else "https://" + s
  }

  /**
   * `s.replace(/\/+$/, '')`: the longest prefix of `s` that does not end in
   * `/`; what it drops is slashes only.
   */
  function StripTrailingSlashes(s: string): (r: string)
    ensures |r| <= |s| && r == s[..|r|]
    ensures r == [] || r[|r| - 1] != '/'
    ensures forall i :: |r| <= i < |s| ==> s[i] == '/'
  {
    if s != [] && s[|s| - 1] == '/' then StripTrailingSlashes(s[..|s| - 1]) else s
  }

  /** The stripped prefix is determined: it ends where the final run of slashes begins. */
  lemma StripTrailingSlashesAt(s: string, k: nat)
    requires k <= |s|
    requires k == 0 || s[k - 1] != '/'
    requires forall i :: k <= i < |s| ==> s[i] == '/'
    ensures StripTrailingSlashes(s) == s[..k]
  {
  }

  /**
   * Lines 2-6: the API base URL for a raw configured value. It never ends in
   * `/`, always begins with `http:` or `https:` (in any case), and is the
   * schemed, trimmed value with its final run of slashes removed.
   */
  function NormalizeBase(raw: string): (base: string)
    ensures base == [] || base[|base| - 1] != '/'
    ensures HasSchemeName(base)
    ensures var w := WithScheme(Trim(raw));
      && |base| <= |w| && base == w[..|base|]
      && forall i :: |base| <= i < |w| ==> w[i] == '/'
  {
    var w := WithScheme(Trim(raw));
    StripKeepsSchemeName(w);
    StripTrailingSlashes(w)
  }

  /** Stripping the trailing slashes of a schemed value stops at the scheme's `:` at the latest. */
  lemma StripKeepsSchemeName(w: string)
    requires HasScheme(w)
    ensures HasSchemeName(StripTrailingSlashes(w))
  {
    var base := StripTrailingSlashes(w);
    var n := SchemeLength(w);
    assert w[n - 3] == ':';
    assert |base| > n - 3;
    assert forall i :: 0 <= i < n - 2 ==> base[i] == w[i];
  }

  /** Lines 1-8, step by step: the value `API_BASE_URL` is initialised to. */
  method InitApiBaseUrl(configured: Option<string>) returns (apiBaseUrl: string)
    ensures apiBaseUrl == NormalizeBase(RawBase(configured))
  {
    var rawBase := if configured.Some? then configured.value else DefaultRawBase;
    var normalized := Trim(rawBase);
    if !HasScheme(normalized) {
      normalized := "https://" + normalized;
    }
    normalized := StripTrailingSlashes(normalized);
    apiBaseUrl := normalized;
  }

  /** With nothing configured the base is the local development server, unchanged. */
  lemma DefaultBaseIsLocalhost()
    ensures NormalizeBase(RawBase(None)) == "http://localhost:3000"
  {
    TrimOfTrimmed(DefaultRawBase);
    NormalizeBaseFixpoint(DefaultRawBase);
  }

  /**
   * An empty, blank or slash-only raw value yields `"https:"`: the prefix
   * `https://` is added, and then its own two slashes go with the trailing run.
   */
  lemma SlashOnlyRawGivesBareScheme(raw: string)
    requires forall i :: 0 <= i < |Trim(raw)| ==> Trim(raw)[i] == '/'
    ensures NormalizeBase(raw) == "https:"
  {
    var t := Trim(raw);
    assert !HasScheme(t) by {
      if t != [] { assert AsciiLower(t[0]) == '/'; }
    }
    var w := WithScheme(t);
    assert w == "https://" + t;
    StripTrailingSlashesAt(w, 6);
  }

  /** The two degenerate inputs: the empty string and whitespace. */
  lemma EmptyRawGivesBareScheme()
    ensures NormalizeBase("") == "https:"
    ensures NormalizeBase(" \t") == "https:"
  {
    SlashOnlyRawGivesBareScheme("");
    SlashOnlyRawGivesBareScheme(" \t");
  }

  /**
   * The base carries a whole scheme (`http://` or `https://`) exactly when a
   * character other than `/` follows the scheme of the schemed, trimmed value.
   */
  lemma {:induction false} NormalizeBaseSchemedIff(raw: string)
    ensures var w := WithScheme(Trim(raw));
      HasScheme(NormalizeBase(raw)) <==> exists i :: SchemeLength(w) <= i < |w| && w[i] != '/'
  {
    var w := WithScheme(Trim(raw));
    var base := NormalizeBase(raw);
    var n := SchemeLength(w);
    if exists i :: n <= i < |w| && w[i] != '/' {
      var i :| n <= i < |w| && w[i] != '/';
      assert |base| > i;
      assert forall j :: 0 <= j < n ==> base[j] == w[j];
      assert HasScheme(base);
    } else if HasScheme(base) {
      assert false;
    }
  }

  /**
   * Whitespace that sits before the trailing slashes survives: `trim` only
   * looked at the ends, and the strip removes slashes only, so the base then
   * ends in that whitespace character.
   */
  lemma WhitespaceBeforeTrailingSlashKept(raw: string, j: nat)
    requires var t := Trim(raw);
      && 0 < j < |t| && IsWhitespace(t[j - 1])
      && forall i :: j <= i < |t| ==> t[i] == '/'
    ensures var base := NormalizeBase(raw);
      base != [] && IsWhitespace(base[|base| - 1])
  {
    var t := Trim(raw);
    var w := WithScheme(t);
    var p := if HasScheme(t) then 0 else 8;
    assert w[p + j - 1] == t[j - 1];
    assert forall i :: p + j <= i < |w| ==> w[i] == t[i - p];
    StripTrailingSlashesAt(w, p + j);
  }

  /** A schemeless value with no whitespace on its ends and no trailing `/` gets `https://` and nothing else. */
  lemma NormalizeBaseAddsScheme(s: string)
    requires !HasScheme(s) && s != [] && Trim(s) == s && s[|s| - 1] != '/'
    ensures NormalizeBase(s) == "https://" + s
  {
    StripTrailingSlashesAt("https://" + s, 8 + |s|);
  }

  /** A value that carries a scheme, has no whitespace on its ends and does not end in `/` normalises to itself. */
  lemma NormalizeBaseFixpoint(s: string)
    requires HasScheme(s) && Trim(s) == s && s[|s| - 1] != '/'
    ensures NormalizeBase(s) == s
  {
    StripTrailingSlashesAt(s, |s|);
  }

  /**
   * Re-normalising a base that carries a scheme and has no whitespace on its
   * ends gives the same base.
   */
  lemma NormalizeBaseIdempotent(raw: string)
    requires HasScheme(NormalizeBase(raw))
    requires Trim(NormalizeBase(raw)) == NormalizeBase(raw)
    ensures NormalizeBase(NormalizeBase(raw)) == NormalizeBase(raw)
  {
    NormalizeBaseFixpoint(NormalizeBase(raw));
  }

  /**
   * Without a scheme in the output, re-normalising is not the identity: the
   * bare `"https:"` that an empty raw value yields gets a second prefix.
   */
  lemma BareSchemeIsNotAFixpoint()
    ensures NormalizeBase(NormalizeBase("")) == "https://https:"
    ensures NormalizeBase(NormalizeBase("")) != NormalizeBase("")
  {
    EmptyRawGivesBareScheme();
    TrimOfTrimmed("https:");
    NormalizeBaseAddsScheme("https:");
  }

  /**
   * Lines 10-14: a path that carries a scheme is returned as it is; any
   * other path is put after the base with exactly one `/` between them.
   */
  function BuildApiUrl(base: string, path: string): (url: string)
    ensures HasScheme(path) ==> url == path
    ensures !HasScheme(path) ==>
      && |url| > |base| && url[..|base|] == base && url[|base|] == '/'
      && url[|base| + 1..] == (if |path| > 0 && path[0] == '/' then path[1..] else path)
  {
    if HasScheme(path) then path
    else
      var suffix := if |path| > 0 && path[0] == '/' then path else "/" + path;
      base + suffix
  }

  /** Text added after a scheme keeps the scheme. */
  lemma HasSchemeExtends(s: string, t: string)
    requires HasScheme(s)
    ensures HasScheme(s + t)
  {
    assert forall i :: 0 <= i < |s| ==> (s + t)[i] == s[i];
  }

  /** Over a base that carries a scheme, joining is idempotent: a joined URL joins to itself. */
  lemma BuildApiUrlIdempotent(base: string, path: string)
    requires HasScheme(base)
    ensures BuildApiUrl(base, BuildApiUrl(base, path)) == BuildApiUrl(base, path)
  {
    var url := BuildApiUrl(base, path);
    if !HasScheme(path) {
      HasSchemeExtends(base, url[|base|..]);
      assert url == base + url[|base|..];
    }
  }
}
