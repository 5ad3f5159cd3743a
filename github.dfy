/**
 * The GitHub fast-path detector `url_is_github` (src/clone.c:130-147).
 *
 * The source tests each candidate host pattern with `strstr(url, p) == url`,
 * that is "the first occurrence of p in url is at offset 0". StrStr models
 * `strstr` as a search for the first occurrence, and StrStrAtStart proves that
 * this test is exactly a prefix test.
 *
 * The user-specific patterns are built with `snprintf(buf, 3999, ...)`, which
 * keeps at most 3998 characters. UrlIsGithubAsWritten keeps that truncation;
 * UrlIsGithub is the corrected detector (no truncation) that the negotiator uses.
 *
 * A `string` here is the content of a C string, one character per byte: text
 * outside ASCII appears as its UTF-8 bytes, so lengths (and the `snprintf`
 * limit) count bytes, as in the source.
 */
module GitHub {
  import opened Wrappers

  /** `p` is a prefix of `s`. */
  predicate IsPrefix(p: string, s: string) {
    |p| <= |s| && s[..|p|] == p
  }

  /** `strstr(s, p)`: the offset of the first occurrence of `p` in `s`, or None (NULL). */
  function StrStr(s: string, p: string): (r: Option<nat>)
    ensures r.Some? ==> r.value <= |s| && IsPrefix(p, s[r.value..])
    ensures r.Some? ==> forall j :: 0 <= j < r.value ==> !IsPrefix(p, s[j..])
    ensures r.None? ==> forall j :: 0 <= j <= |s| ==> !IsPrefix(p, s[j..])
    decreases |s|
  {
    if IsPrefix(p, s) then Some(0)
    else if s == [] then None
    else
      var rest := StrStr(s[1..], p);
      assert forall j :: 1 <= j <= |s| ==> s[1..][j - 1..] == s[j..];
      match rest
      case Some(i) => Some(i + 1)
      case None => None
  }

  /** `strstr(s, p) == s`: holds exactly when `p` is a prefix of `s`. */
  function StrStrAtStart(s: string, p: string): (b: bool)
    ensures b <==> IsPrefix(p, s)
  {
    assert s[0..] == s;
    StrStr(s, p) == Some(0)
  }

  const HttpGithub: string := "http://github.com"
  const HttpsGithub: string := "https://github.com"

  /** The pattern `"<scheme>%s@github.com"` filled with a user name. */
  function UserPattern(scheme: string, user: string): string {
    scheme + user + "@github.com"
  }

  /** The size argument the source passes to `snprintf`. */
  const SnprintfSize: nat := 3999

  /** `snprintf(buf, n, "%s", s)` for n > 0: at most n - 1 characters are written. */
  function Snprintf(s: string, n: nat): (r: string)
    requires n > 0
    ensures |r| == (if |s| < n then |s| else n - 1)
    ensures IsPrefix(r, s)
  {
    if |s| < n then s else s[..n - 1]
  }

  /** The URL starts with a GitHub authority: either scheme, with or without the given user. */
  predicate GithubAuthority(url: string, user: Option<string>) {
    IsPrefix(HttpGithub, url) || IsPrefix(HttpsGithub, url) ||
    (user.Some? &&
      (IsPrefix(UserPattern("http://", user.value), url) ||
       IsPrefix(UserPattern("https://", user.value), url)))
  }

  /**
   * `url_is_github` as the source computes it, user patterns truncated by
   * `snprintf` to 3998 characters.
   */
  function UrlIsGithubAsWritten(url: Option<string>, user: Option<string>): (b: bool)
    ensures url.None? ==> !b
  {
    match url
    case None => false
    case Some(u) =>
      StrStrAtStart(u, HttpGithub) || StrStrAtStart(u, HttpsGithub) ||
      (user.Some? &&
        (StrStrAtStart(u, Snprintf(UserPattern("http://", user.value), SnprintfSize)) ||
         StrStrAtStart(u, Snprintf(UserPattern("https://", user.value), SnprintfSize))))
  }

  /**
   * `url_is_github` with the user patterns built in full: the PAT is offered
   * only to a URL whose authority is github.com, with or without the user.
   */
  function UrlIsGithub(url: Option<string>, user: Option<string>): (b: bool)
    ensures url.None? ==> !b
    ensures b <==> url.Some? && GithubAuthority(url.value, user)
  {
    match url
    case None => false
    case Some(u) =>
      StrStrAtStart(u, HttpGithub) || StrStrAtStart(u, HttpsGithub) ||
      (user.Some? &&
        (StrStrAtStart(u, UserPattern("http://", user.value)) ||
         StrStrAtStart(u, UserPattern("https://", user.value))))
  }

  lemma PrefixExtends(p: string, s: string, t: string)
    requires IsPrefix(p, s)
    ensures IsPrefix(p, s + t)
  {
    assert (s + t)[..|p|] == s[..|p|];
  }

  /** The detector is a prefix test: whatever follows a matching authority does not matter. */
  lemma {:induction false} UrlIsGithubExtends(url: string, user: Option<string>, tail: string)
    requires UrlIsGithub(Some(url), user)
    ensures UrlIsGithub(Some(url + tail), user)
  {
    if IsPrefix(HttpGithub, url) {
      PrefixExtends(HttpGithub, url, tail);
    } else if IsPrefix(HttpsGithub, url) {
      PrefixExtends(HttpsGithub, url, tail);
    } else if IsPrefix(UserPattern("http://", user.value), url) {
      PrefixExtends(UserPattern("http://", user.value), url, tail);
    } else {
      PrefixExtends(UserPattern("https://", user.value), url, tail);
    }
  }

  /** For user names short enough that `snprintf` does not truncate, the source and the corrected detector agree. */
  lemma AsWrittenAgreesOnShortUsers(url: Option<string>, user: Option<string>)
    requires user.Some? ==> |user.value| + |"https://@github.com"| < SnprintfSize
    ensures UrlIsGithubAsWritten(url, user) == UrlIsGithub(url, user)
  {
  }

  /** A plain github.com URL with a path is accepted. */
  lemma AcceptsGithubUrl()
    ensures UrlIsGithub(Some("https://github.com/a/b"), None)
  {
    assert "https://github.com/a/b"[..|HttpsGithub|] == HttpsGithub;
  }

  /** Foreign hosts are rejected: one whose name merely ends in "github.com", and one with "github.com" in its query. */
  lemma RejectsForeignHosts()
    ensures !UrlIsGithub(Some("https://evilgithub.com/x"), None)
    ensures !UrlIsGithub(Some("https://attacker.com?x=github.com"), None)
  {
    var lookalike := "https://evilgithub.com/x";
    assert !IsPrefix(HttpsGithub, lookalike) by { assert lookalike[8] != HttpsGithub[8]; }
    assert !IsPrefix(HttpGithub, lookalike) by { assert lookalike[4] != HttpGithub[4]; }
    var query := "https://attacker.com?x=github.com";
    assert !IsPrefix(HttpsGithub, query) by { assert query[8] != HttpsGithub[8]; }
    assert !IsPrefix(HttpGithub, query) by { assert query[4] != HttpGithub[4]; }
  }

  /** The user-specific pattern accepts the given user and no other. */
  lemma UserPatternExamples()
    ensures UrlIsGithub(Some("https://x@github.com/a"), Some("x"))
    ensures !UrlIsGithub(Some("https://y@github.com/a"), Some("x"))
  {
    var good := "https://x@github.com/a";
    assert good[..|UserPattern("https://", "x")|] == UserPattern("https://", "x");
    var bad := "https://y@github.com/a";
    assert !IsPrefix(HttpsGithub, bad) by { assert bad[8] != HttpsGithub[8]; }
    assert !IsPrefix(HttpGithub, bad) by { assert bad[4] != HttpGithub[4]; }
    assert !IsPrefix(UserPattern("https://", "x"), bad) by { assert bad[8] != UserPattern("https://", "x")[8]; }
    assert !IsPrefix(UserPattern("http://", "x"), bad) by { assert bad[4] != UserPattern("http://", "x")[4]; }
  }

  /** A user name of 3991 characters. */
  function LongUser(): (u: string)
    ensures |u| == 3991 && forall i :: 0 <= i < |u| ==> u[i] == 'a'
  {
    seq(3991, _ => 'a')
  }

  /**
   * With a 3991-character user name the truncated pattern `"http://" + user`
   * matches a URL whose host is not github.com, so the source would offer the
   * PAT to that host; the corrected detector rejects it.
   */
  lemma TruncatedPatternAcceptsForeignHost()
    ensures var url := "http://" + LongUser() + "@evil.example/repo";
      UrlIsGithubAsWritten(Some(url), Some(LongUser())) && !UrlIsGithub(Some(url), Some(LongUser()))
  {
    var user := LongUser();
    var url := "http://" + user + "@evil.example/repo";
    var full := UserPattern("http://", user);
    assert Snprintf(full, SnprintfSize) == "http://" + user by {
      assert full[..3998] == "http://" + user;
    }
    PrefixExtends("http://" + user, "http://" + user, "@evil.example/repo");
    assert url[7] == 'a';
    assert !IsPrefix(HttpGithub, url) by { assert HttpGithub[7] == 'g'; }
    assert !IsPrefix(HttpsGithub, url) by { assert HttpsGithub[4] == 's' && url[4] == ':'; }
    assert !IsPrefix(full, url) by {
      assert full[3999] == 'g' && url[3999] == 'e';
    }
    assert !IsPrefix(UserPattern("https://", user), url) by {
      assert UserPattern("https://", user)[4] == 's' && url[4] == ':';
    }
  }

  /** The UTF-8 bytes of 2000 copies of U+00E9 ("é"): 0xC3 0xA9 repeated, 4000 bytes. */
  function TwoByteUser(): (u: string)
    ensures |u| == 4000
    ensures forall i :: 0 <= i < |u| ==> u[i] == (if i % 2 == 0 then 0xC3 as char else 0xA9 as char)
  {
    seq(4000, i => if i % 2 == 0 then 0xC3 as char else 0xA9 as char)
  }

  /**
   * The limit counts bytes: a user name of 2000 two-byte characters is cut in
   * the middle of a character, after `http://`, 1995 whole characters and one
   * lead byte, and the cut pattern matches a URL on host `evil.example`.
   */
  lemma TruncatedMultiByteUserAcceptsForeignHost()
    ensures var url := "http://" + TwoByteUser() + "@evil.example/r";
      UrlIsGithubAsWritten(Some(url), Some(TwoByteUser())) && !UrlIsGithub(Some(url), Some(TwoByteUser()))
  {
    var user := TwoByteUser();
    var url := "http://" + user + "@evil.example/r";
    var full := UserPattern("http://", user);
    var cut := "http://" + user[..3991];
    assert Snprintf(full, SnprintfSize) == cut by {
      assert full[..3998] == cut;
    }
    assert cut[3997] == 0xC3 as char;
    assert url[..|cut|] == cut;
    assert url[7] == 0xC3 as char;
    assert !IsPrefix(HttpGithub, url) by { assert HttpGithub[7] == 'g'; }
    assert !IsPrefix(HttpsGithub, url) by { assert HttpsGithub[4] == 's' && url[4] == ':'; }
    assert !IsPrefix(full, url) by {
      assert full[4008] == 'g' && url[4008] == 'e';
    }
    assert !IsPrefix(UserPattern("https://", user), url) by {
      assert UserPattern("https://", user)[4] == 's' && url[4] == ':';
    }
  }
}
