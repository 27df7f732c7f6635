/** The build configuration: the base path for GitHub Pages and the
    compile-time constants carrying the Gemini API key. */
module ViteConfig {
  import opened Wrappers
  import opened Strings

  /** `repoName`: the second `/`-separated segment of `GITHUB_REPOSITORY`
      when building under GitHub Actions, else the empty string. */
  function RepoName(githubActions: Option<string>, githubRepository: Option<string>): (n: string)
    ensures githubActions != Some("true") ==> n == ""
    ensures n != "" ==> githubRepository.Some? && '/' !in n
  {
    var isGitHubPages := githubActions == Some("true");
    if isGitHubPages && githubRepository.Some? && githubRepository.value != "" then
      var parts := Split(githubRepository.value, '/');
      if |parts| > 1 then parts[1] else ""   // an index past the end is `undefined`
    else
      ""
  }

  /** `base`: `/<repoName>/` when the repository name is non-empty, else `/`. */
  function Base(githubActions: Option<string>, githubRepository: Option<string>): (b: string)
    ensures |b| > 0 && StartsWith(b, "/") && EndsWith(b, "/")
    ensures b == "/" <==> RepoName(githubActions, githubRepository) == ""
  {
    var repo := RepoName(githubActions, githubRepository);
    if repo != "" then "/" + repo + "/" else "/"
  }

  /** Outside GitHub Actions, or without a repository, the base is `/`. */
  lemma BaseDefaultsToRoot(githubActions: Option<string>, githubRepository: Option<string>)
    requires githubActions != Some("true") || githubRepository.None?
    ensures Base(githubActions, githubRepository) == "/"
  {
  }

  /** `owner/repo` deploys under `/repo/`. */
  lemma {:induction false} OwnerRepo(owner: string, repo: string)
    requires '/' !in owner && '/' !in repo && repo != ""
    ensures Base(Some("true"), Some(owner + "/" + repo)) == "/" + repo + "/"
  {
    SplitCons(owner, '/', repo);
    SplitNoSep(repo, '/');
  }

  /** Only the second segment is used: `a/b/c` deploys under `/b/`. */
  lemma {:induction false} ExtraSegmentsIgnored(a: string, b: string, c: string)
    requires '/' !in a && '/' !in b && b != ""
    ensures Base(Some("true"), Some(a + "/" + b + "/" + c)) == "/" + b + "/"
  {
    SplitCons(a, '/', b + "/" + c);
    assert a + "/" + b + "/" + c == a + ['/'] + (b + ['/'] + c);
    SplitCons(b, '/', c);
  }

  /** A repository string without a slash deploys at the root. */
  lemma {:induction false} NoSlash(owner: string)
    requires '/' !in owner
    ensures Base(Some("true"), Some(owner)) == "/"
  {
    SplitNoSep(owner, '/');
  }

  /** An empty second segment deploys at the root. */
  lemma {:induction false} EmptySecondSegment(owner: string, rest: string)
    requires '/' !in owner
    ensures Base(Some("true"), Some(owner + "/" + rest)) == "/" <==> Split(rest, '/')[0] == ""
  {
    var full := owner + "/" + rest;
    assert full == owner + ['/'] + rest;
    SplitCons(owner, '/', rest);
    var parts := Split(full, '/');
    assert |parts| > 1 && parts[1] == Split(rest, '/')[0];
    assert full != "";
    assert RepoName(Some("true"), Some(full)) == parts[1];
  }

  /** In particular `owner/` deploys at the root. */
  lemma TrailingSlash(owner: string)
    requires '/' !in owner
    ensures Base(Some("true"), Some(owner + "/")) == "/"
  {
    EmptySecondSegment(owner, "");
    SplitNoSep("", '/');
    assert owner + "/" + "" == owner + "/";
  }

  /** And so does `owner//x`. */
  lemma DoubleSlash(owner: string, x: string)
    requires '/' !in owner
    ensures Base(Some("true"), Some(owner + "/" + "/" + x)) == "/"
  {
    EmptySecondSegment(owner, "/" + x);
    SplitCons("", '/', x);
    assert "" + ['/'] + x == "/" + x;
    assert owner + "/" + ("/" + x) == owner + "/" + "/" + x;
  }

  /** `JSON.stringify` of a string without control characters: the text in
      double quotes with `"` and `\` escaped. `undefined` stays `undefined`. */
  function JsonStringify(v: Option<string>): Option<string> {
    if v.None? then None else Some("\"" + Escape(v.value) + "\"")
  }

  function Escape(s: string): (e: string)
    ensures |e| >= |s|
  {
    if s == [] then []
    else (if s[0] == '"' || s[0] == '\\' then ['\\', s[0]] else [s[0]]) + Escape(s[1..])
  }

  const ApiKeyNames: seq<string> := ["process.env.API_KEY", "process.env.GEMINI_API_KEY", "import.meta.env.VITE_GEMINI_API_KEY"]

  /** The `define` map: every API-key name is replaced by the same JSON text. */
  function Define(geminiApiKey: Option<string>): (d: map<string, Option<string>>)
    ensures d.Keys == set k | k in ApiKeyNames
    ensures forall k :: k in d ==> d[k] == JsonStringify(geminiApiKey)
  {
    map k | k in ApiKeyNames :: JsonStringify(geminiApiKey)
  }

  /** The three names all see one value. */
  lemma DefineAgrees(geminiApiKey: Option<string>)
    ensures Define(geminiApiKey)["process.env.API_KEY"] == Define(geminiApiKey)["process.env.GEMINI_API_KEY"]
    ensures Define(geminiApiKey)["process.env.GEMINI_API_KEY"] == Define(geminiApiKey)["import.meta.env.VITE_GEMINI_API_KEY"]
  {
  }
}
