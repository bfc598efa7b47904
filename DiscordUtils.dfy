/** The asset URL rewriter of apps/client/src/lib/discord/utils.ts: in a
    production build, drop the first `http://` or `https://` and then turn
    the first `r2.starlightlabs.co/` into the proxied path `/r2/`. Whether the
    build is a production one is the parameter `prod`. */
module DiscordUtils {
  import opened WsTypes

  const Http := "http://"
  const Https := "https://"
  const R2Host := "r2.starlightlabs.co/"
  const R2Path := "/r2/"

  /** `pat` occurs in `s` starting at index `i`. */
  predicate OccursAt(s: string, pat: string, i: nat)
  {
    i + |pat| <= |s| && s[i..i + |pat|] == pat
  }

  /** `pat` occurs at `i` and nowhere before it. */
  predicate FirstAt(s: string, pat: string, i: nat)
  {
    OccursAt(s, pat, i) && forall j: nat :: j < i ==> !OccursAt(s, pat, j)
  }

  /** `pat` occurs nowhere in `s`. */
  ghost predicate Absent(s: string, pat: string)
  {
    forall j: nat :: !OccursAt(s, pat, j)
  }

  /** `s` with the `n` characters at `i` replaced by `rep`. */
  function Spliced(s: string, i: nat, n: nat, rep: string): string
    requires i + n <= |s|
  {
    s[..i] + rep + s[i + n..]
  }

  /** The first index at or after `from` where `pat` occurs. */
  function FindFrom(s: string, pat: string, from: nat): (r: Option<nat>)
    requires from <= |s| + 1
    ensures r.Some? ==> from <= r.value && OccursAt(s, pat, r.value)
    ensures forall j :: from <= j && (r.None? || j < r.value) ==> !OccursAt(s, pat, j)
    decreases |s| + 1 - from
  {
    if from > |s| then None
    else if OccursAt(s, pat, from) then Some(from)
    else FindFrom(s, pat, from + 1)
  }

  /** `String.prototype.replace` with a string pattern: the first occurrence
      only, or nothing when there is none. */
  function ReplaceFirst(s: string, pat: string, rep: string): (r: string)
    ensures Absent(s, pat) ==> r == s
    ensures forall i: nat :: FirstAt(s, pat, i) ==> r == Spliced(s, i, |pat|, rep)
  {
    match FindFrom(s, pat, 0)
    case None => s
    case Some(i) => s[..i] + rep + s[i + |pat|..]
  }

  /** Neither `http://` nor `https://` occurs in `s`. */
  ghost predicate NoScheme(s: string)
  {
    forall j: nat :: !OccursAt(s, Http, j) && !OccursAt(s, Https, j)
  }

  /** A scheme starts at `i` and none starts before it. */
  predicate LeftmostScheme(s: string, i: nat)
  {
    && (OccursAt(s, Http, i) || OccursAt(s, Https, i))
    && forall j: nat :: j < i ==> !OccursAt(s, Http, j) && !OccursAt(s, Https, j)
  }

  /** The length of the scheme the regex matches at `i`: `https?` is greedy,
      so `https://` wins where both fit. */
  function SchemeLength(s: string, i: nat): nat
  {
    if OccursAt(s, Https, i) then |Https| else |Http|
  }

  /** The leftmost match of `/https?:\/\//` as (start, length): at each index
      the longer alternative `https://` is tried first. */
  function FindScheme(s: string, from: nat): (r: Option<(nat, nat)>)
    requires from <= |s| + 1
    ensures r.Some? ==>
      && from <= r.value.0
      && ((r.value.1 == |Https| && OccursAt(s, Https, r.value.0))
          || (r.value.1 == |Http| && OccursAt(s, Http, r.value.0) && !OccursAt(s, Https, r.value.0)))
    ensures forall j :: from <= j && (r.None? || j < r.value.0) ==>
      !OccursAt(s, Http, j) && !OccursAt(s, Https, j)
    decreases |s| + 1 - from
  {
    if from > |s| then None
    else if OccursAt(s, Https, from) then Some((from, |Https|))
    else if OccursAt(s, Http, from) then Some((from, |Http|))
    else FindScheme(s, from + 1)
  }

  /** `url.replace(/https?:\/\//, '')`: exactly the leftmost scheme is cut,
      and what precedes and follows it is kept in order. */
  function StripScheme(url: string): (r: string)
    ensures NoScheme(url) ==> r == url
    ensures forall i: nat :: LeftmostScheme(url, i) ==>
      i + SchemeLength(url, i) <= |url| && r == Spliced(url, i, SchemeLength(url, i), "")
  {
    match FindScheme(url, 0)
    case None => url
    case Some((i, n)) => url[..i] + url[i + n..]
  }

  /** `s3UrlRewriter`. Outside production the URL is returned as it is. In
      production the leftmost scheme, if any, is cut; then the first
      `r2.starlightlabs.co/` of what is left, if any, becomes `/r2/`. */
  function S3UrlRewriter(prod: bool, url: string): (r: string)
    ensures !prod ==> r == url
    ensures prod && NoScheme(url) && Absent(url, R2Host) ==> r == url
    ensures prod && NoScheme(url) ==>
      forall j: nat :: FirstAt(url, R2Host, j) ==> r == Spliced(url, j, |R2Host|, R2Path)
    ensures prod ==> forall i: nat :: LeftmostScheme(url, i) ==>
      var cut := Spliced(url, i, SchemeLength(url, i), "");
      && (Absent(cut, R2Host) ==> r == cut)
      && (forall j: nat :: FirstAt(cut, R2Host, j) ==> r == Spliced(cut, j, |R2Host|, R2Path))
  {
    if prod then ReplaceFirst(StripScheme(url), R2Host, R2Path) else url
  }

  /** In production an absolute R2 asset link becomes a path under the
      proxied `/r2/` prefix. */
  lemma ProxiedAsset(path: string)
    ensures S3UrlRewriter(true, Https + R2Host + path) == R2Path + path
  {
    var url := Https + R2Host + path;
    assert url[..|Https|] == Https;
    assert LeftmostScheme(url, 0);
    var stripped := url[|Https|..];
    assert Spliced(url, 0, |Https|, "") == stripped;
    assert stripped == R2Host + path;
    assert stripped[..|R2Host|] == R2Host;
    assert FirstAt(stripped, R2Host, 0);
  }
}
