/**
 * The development proxy of the Vite configuration: it pulls the Apps Script
 * deployment path `/macros/s/<id>/exec` out of the configured script URL and
 * rewrites requests for `/api/google-sheets…` onto that path.
 */
module ViteProxy {
  import opened Common

  const MacrosPrefix: string := "/macros/s/"
  const ExecSuffix: string := "/exec"
  const ProxyPrefix: string := "/api/google-sheets"

  /**
   * The deployment id of the fallback deployment, written in ten-character
   * pieces so that the verifier can inspect its characters.
   */
  const DefaultDeployment: string :=
    "AKfycbyyZO" + "nw2jj_wm3u" + "JuFB_uvRZF" + "Y8o9RuhOmt" + "ik7cW8UenX" + "qpOqmc1rRK" + "tRrfBes3AS" + "9e7g"

  /** The deployment path used when the configured URL holds none. */
  const DefaultScriptPath: string := MacrosPrefix + DefaultDeployment + ExecSuffix

  /** The script URL read from the environment: an unset variable reads as the empty string. */
  function ScriptUrl(env: Option<string>): (url: string)
    ensures env.None? ==> url == ""
    ensures env.Some? ==> url == env.value
  {
    OrElse(env, "")
  }

  /**
   * The pattern `/\/macros\/s\/[^/]+\/exec/` matches `s[i..k + 5]`: the prefix
   * at `i`, a non-empty run of non-slash characters up to `k`, then `/exec`.
   */
  predicate MatchesAt(s: string, i: int, k: int): (r: bool)
    ensures r ==> 0 <= i < k + |ExecSuffix| <= |s| && IsScriptPath(s[i..k + |ExecSuffix|])
  {
    0 <= i && i + |MacrosPrefix| < k && k + |ExecSuffix| <= |s|
    && s[i..i + |MacrosPrefix|] == MacrosPrefix
    && (forall j :: i + |MacrosPrefix| <= j < k ==> s[j] != '/')
    && s[k..k + |ExecSuffix|] == ExecSuffix
  }

  /** A match that starts before every other match: the one `String.prototype.match` reports. */
  ghost predicate IsLeftmostMatch(s: string, i: int, k: int) {
    MatchesAt(s, i, k) && forall i', k' :: i' < i ==> !MatchesAt(s, i', k')
  }

  /** The first slash at or after `j`, or the end of `s`. */
  function SlashFrom(s: string, j: nat): (k: nat)
    requires j <= |s|
    decreases |s| - j
    ensures j <= k <= |s|
    ensures k < |s| ==> s[k] == '/'
    ensures forall m :: j <= m < k ==> s[m] != '/'
  {
    if j == |s| || s[j] == '/' then j else SlashFrom(s, j + 1)
  }

  /** The end of the segment of the match starting at `i`, if one starts there. */
  function MatchAt(s: string, i: nat): (r: Option<nat>)
    ensures r.Some? ==> MatchesAt(s, i, r.value)
    ensures r.None? ==> forall k :: !MatchesAt(s, i, k)
  {
    if i + |MacrosPrefix| <= |s| && s[i..i + |MacrosPrefix|] == MacrosPrefix then
      var k := SlashFrom(s, i + |MacrosPrefix|);
      if i + |MacrosPrefix| < k && k + |ExecSuffix| <= |s| && s[k..k + |ExecSuffix|] == ExecSuffix
      then Some(k)
      else
        assert forall k' :: MatchesAt(s, i, k') ==> k' == k by {
          forall k' | MatchesAt(s, i, k') ensures k' == k {
            assert s[k'..k' + |ExecSuffix|][0] == '/';
          }
        }
        None
    else None
  }

  /** The leftmost match starting at or after `from`, as its start and segment end. */
  function FindFrom(s: string, from: nat): (r: Option<(nat, nat)>)
    decreases |s| + 1 - from
    ensures r.Some? ==> from <= r.value.0 && MatchesAt(s, r.value.0, r.value.1)
    ensures r.Some? ==> forall i, k :: from <= i < r.value.0 ==> !MatchesAt(s, i, k)
    ensures r.None? ==> forall i, k :: from <= i ==> !MatchesAt(s, i, k)
  {
    if from > |s| then None
    else match MatchAt(s, from)
      case Some(k) => Some((from, k))
      case None => FindFrom(s, from + 1)
  }

  /** `/macros/s/`, a non-empty slash-free segment, then `/exec`. */
  predicate IsScriptPath(p: string) {
    |MacrosPrefix| + |ExecSuffix| < |p|
    && StartsWith(p, MacrosPrefix) && EndsWith(p, ExecSuffix)
    && forall j :: |MacrosPrefix| <= j < |p| - |ExecSuffix| ==> p[j] != '/'
  }

  /** The deployment path: the leftmost match in the URL, or the fixed default. */
  function ScriptPath(url: string): (p: string)
    ensures IsScriptPath(p)
    ensures forall i, k :: IsLeftmostMatch(url, i, k) ==> p == url[i..k + |ExecSuffix|]
    ensures (forall i, k :: !MatchesAt(url, i, k)) ==> p == DefaultScriptPath
  {
    match FindFrom(url, 0)
    case Some((i, k)) =>
      assert forall i', k' :: IsLeftmostMatch(url, i', k') ==> i' == i && k' == k by {
        forall i', k' | IsLeftmostMatch(url, i', k') ensures i' == i && k' == k {
          MatchUnique(url, i, k, k');
        }
      }
      url[i..k + |ExecSuffix|]
    case None =>
      DefaultIsScriptPath();
      DefaultScriptPath
  }

  /** The fallback is itself a well-formed deployment path. */
  lemma DefaultIsScriptPath()
    ensures IsScriptPath(DefaultScriptPath)
  {
    assert '/' !in "AKfycbyyZO" && '/' !in "nw2jj_wm3u" && '/' !in "JuFB_uvRZF" && '/' !in "Y8o9RuhOmt";
    assert '/' !in "ik7cW8UenX" && '/' !in "qpOqmc1rRK" && '/' !in "tRrfBes3AS" && '/' !in "9e7g";
    var p := DefaultScriptPath;
    assert p[..|MacrosPrefix|] == MacrosPrefix;
    assert p[|p| - |ExecSuffix|..] == ExecSuffix;
    forall j | |MacrosPrefix| <= j < |p| - |ExecSuffix| ensures p[j] != '/' {
      assert p[j] == DefaultDeployment[j - |MacrosPrefix|];
    }
  }

  /** At a given start the pattern can match in one way only. */
  lemma MatchUnique(s: string, i: nat, k: nat, k': nat)
    requires MatchesAt(s, i, k) && MatchesAt(s, i, k')
    ensures k == k'
  {
    assert s[k] == s[k..k + |ExecSuffix|][0];
    assert s[k'] == s[k'..k' + |ExecSuffix|][0];
  }

  /** When the URL holds the pattern at all, it holds a leftmost occurrence, so the default is not used. */
  lemma MatchHasLeftmost(url: string, i: nat, k: nat)
    requires MatchesAt(url, i, k)
    ensures FindFrom(url, 0).Some?
    ensures IsLeftmostMatch(url, FindFrom(url, 0).value.0, FindFrom(url, 0).value.1)
    ensures ScriptPath(url) == url[FindFrom(url, 0).value.0..FindFrom(url, 0).value.1 + |ExecSuffix|]
  {
    var r := FindFrom(url, 0);
    assert r.Some?;
    assert IsLeftmostMatch(url, r.value.0, r.value.1);
  }

  /** A deployment path extracted once is extracted unchanged again. */
  lemma ScriptPathIdempotent(url: string)
    ensures ScriptPath(ScriptPath(url)) == ScriptPath(url)
  {
    var p := ScriptPath(url);
    var k := |p| - |ExecSuffix|;
    WholeMatch(p);
    assert p[0..k + |ExecSuffix|] == p;
  }

  /** A well-formed deployment path matches the pattern as a whole, from its first character. */
  lemma WholeMatch(p: string)
    requires IsScriptPath(p)
    ensures IsLeftmostMatch(p, 0, |p| - |ExecSuffix|)
  {
    assert p[..|MacrosPrefix|] == MacrosPrefix;
    assert p[|p| - |ExecSuffix|..] == ExecSuffix;
  }

  /** The proxy's path rewrite: a leading `/api/google-sheets` becomes the deployment path. */
  function Rewrite(path: string, scriptPath: string): (r: string)
    ensures StartsWith(path, ProxyPrefix) ==>
      StartsWith(r, scriptPath) && r[|scriptPath|..] == path[|ProxyPrefix|..]
    ensures !StartsWith(path, ProxyPrefix) ==> r == path
  {
    if StartsWith(path, ProxyPrefix) then scriptPath + path[|ProxyPrefix|..] else path
  }

  /** Two proxied paths that rewrite to the same target were the same path. */
  lemma RewriteInjective(p1: string, p2: string, scriptPath: string)
    requires StartsWith(p1, ProxyPrefix) && StartsWith(p2, ProxyPrefix)
    requires Rewrite(p1, scriptPath) == Rewrite(p2, scriptPath)
    ensures p1 == p2
  {
    assert p1 == p1[..|ProxyPrefix|] + p1[|ProxyPrefix|..];
    assert p2 == p2[..|ProxyPrefix|] + p2[|ProxyPrefix|..];
  }

  /** The path a browser request is forwarded to, given the environment variable. */
  function ProxyTarget(env: Option<string>, path: string): (r: string)
    ensures StartsWith(path, ProxyPrefix) ==> StartsWith(r, MacrosPrefix)
    ensures !StartsWith(path, ProxyPrefix) ==> r == path
  {
    Rewrite(path, ScriptPath(ScriptUrl(env)))
  }
}
