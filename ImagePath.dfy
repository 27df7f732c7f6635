/** `getImagePath`: an asset path joined to the deployment's base URL. */
module ImagePath {
  import opened Strings

  /** The path without one leading slash. */
  function CleanPath(path: string): (c: string)
    ensures StartsWith(path, "/") ==> "/" + c == path
    ensures !StartsWith(path, "/") ==> c == path
  {
    if StartsWith(path, "/") then path[1..] else path
  }

  /** The base URL, `/` when the build sets none, with a trailing slash. */
  function Base(baseUrl: string): (b: string)
    ensures EndsWith(b, "/")
    ensures baseUrl == "" ==> b == "/"
    ensures baseUrl != "" && EndsWith(baseUrl, "/") ==> b == baseUrl
    ensures baseUrl != "" && !EndsWith(baseUrl, "/") ==> b == baseUrl + "/"
  {
    var u := if baseUrl == "" then "/" else baseUrl;
    if EndsWith(u, "/") then u else u + "/"
  }

  /** `getImagePath(path)` built with `BASE_URL == baseUrl`. */
  function GetImagePath(path: string, baseUrl: string): (r: string)
    ensures StartsWith(r, Base(baseUrl))
    ensures EndsWith(r, CleanPath(path))
    ensures |r| == |Base(baseUrl)| + |CleanPath(path)|
  {
    var b := Base(baseUrl);
    var c := CleanPath(path);
    assert (b + c)[..|b|] == b;
    assert (b + c)[|b + c| - |c|..] == c;
    b + c
  }

  /** Only one leading slash is removed: later ones stay in the result. */
  lemma OneSlashRemoved(rest: string, baseUrl: string)
    ensures GetImagePath("/" + rest, baseUrl) == Base(baseUrl) + rest
    ensures GetImagePath("//" + rest, baseUrl) == Base(baseUrl) + "/" + rest
  {
    assert StartsWith("/" + rest, "/");
    assert ("/" + rest)[1..] == rest;
    assert StartsWith("//" + rest, "/");
    assert ("//" + rest)[1..] == "/" + rest;
  }

  /** A path named with or without its leading slash gives the same URL. */
  lemma LeadingSlashIrrelevant(x: string, baseUrl: string)
    requires !StartsWith(x, "/")
    ensures GetImagePath("/" + x, baseUrl) == GetImagePath(x, baseUrl)
  {
    OneSlashRemoved(x, baseUrl);
  }

  /** Local development (no base URL): the path becomes root-relative. */
  lemma LocalDevelopment(path: string)
    ensures GetImagePath(path, "") == "/" + CleanPath(path)
  {
  }
}
