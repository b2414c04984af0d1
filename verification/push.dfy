/**
 * Saving a solution to GitHub: the file name derived from the problem page
 * and the language (`getProblemSlug`, `getFileExtension`), the truncation
 * warning, and the request sequence of `pushToGitHub` in both popups: make
 * sure the repository exists, ask for the current file's SHA, then PUT the
 * base64 content as a new or an updated file on branch `main`.
 *
 * The network is a parameter: `GitHub` holds what each request of one push
 * would answer, and the result records which requests were made with which
 * bodies.
 */
module Push {
  import opened Common
  import opened Codec
  import opened Language
  import Auth

  // ---------------------------------------------------------------------------
  // Problem slug
  // ---------------------------------------------------------------------------

  /** The literal part of /leetcode\.com\/problems\/([^\/]+)/. */
  const ProblemsPath: string := "leetcode.com/problems/"

  /** The longest prefix of `s` without a '/': what `[^\/]+` consumes greedily. */
  function Segment(s: string): (r: string)
    ensures r <= s && '/' !in r
    ensures |r| == |s| || s[|r|] == '/'
  {
    if s == [] || s[0] == '/' then [] else [s[0]] + Segment(s[1..])
  }

  /** The captured group of the leftmost match of the slug pattern in `url`, if any. */
  function SlugMatch(url: string): (m: Option<string>)
    ensures m.Some? ==> m.value != [] && '/' !in m.value
    decreases |url|
  {
    if ProblemsPath <= url && |url| > |ProblemsPath| && url[|ProblemsPath|] != '/' then
      Some(Segment(url[|ProblemsPath|..]))
    else if url == [] then None
    else SlugMatch(url[1..])
  }

  /** `getProblemSlug(url)`: the captured group, or "solution" when the pattern does not match. */
  function ProblemSlug(url: string): (slug: string)
    ensures slug != [] && '/' !in slug
  {
    SlugMatch(url).GetOr("solution")
  }

  lemma {:induction false} SegmentStops(slug: string, rest: string)
    requires '/' !in slug
    requires rest == [] || rest[0] == '/'
    ensures Segment(slug + rest) == slug
  {
    if slug != [] {
      assert (slug + rest)[0] == slug[0];
      assert (slug + rest)[1..] == slug[1..] + rest;
      SegmentStops(slug[1..], rest);
    } else {
      assert slug + rest == rest;
    }
  }

  /**
   * On a problem page the slug is the path segment after "/problems/", whatever
   * precedes the host (as long as it cannot start an earlier match) and
   * whatever follows the next '/'.
   */
  lemma {:induction false} SlugOfProblemUrl(prefix: string, slug: string, rest: string)
    requires 'l' !in prefix
    requires slug != [] && '/' !in slug
    requires rest == [] || rest[0] == '/'
    ensures ProblemSlug(prefix + ProblemsPath + slug + rest) == slug
  {
    var url := prefix + ProblemsPath + slug + rest;
    if prefix == [] {
      assert url == ProblemsPath + (slug + rest);
      assert url[|ProblemsPath|..] == slug + rest;
      SegmentStops(slug, rest);
    } else {
      assert url[0] == prefix[0] != 'l';
      assert !(ProblemsPath <= url) by {
        assert ProblemsPath[0] == 'l';
      }
      assert url[1..] == prefix[1..] + ProblemsPath + slug + rest;
      SlugOfProblemUrl(prefix[1..], slug, rest);
    }
  }

  /** A URL that does not even contain "leetcode.com/problems/" is saved under "solution". */
  lemma {:induction false} NoProblemPathMeansSolution(url: string)
    requires !Contains(url, ProblemsPath)
    ensures SlugMatch(url) == None
    ensures ProblemSlug(url) == "solution"
    decreases |url|
  {
    if url != [] {
      NoProblemPathMeansSolution(url[1..]);
    }
  }

  // ---------------------------------------------------------------------------
  // File extension
  // ---------------------------------------------------------------------------

  /** `toLowerCase` on the ASCII letters. */
  function LowerChar(c: char): (l: char)
    ensures 'A' <= c <= 'Z' ==> l as int == c as int + 32
    ensures !('A' <= c <= 'Z') ==> l == c
  {
    if 'A' <= c <= 'Z' then (c as int + 32) as char else c
  }

  function Lower(s: string): (r: string)
    ensures |r| == |s|
    ensures forall i | 0 <= i < |s| :: r[i] == LowerChar(s[i])
  {
    if s == [] then [] else [LowerChar(s[0])] + Lower(s[1..])
  }

  /** The table of `getFileExtension` in shared/popup.js. */
  const Extensions: map<string, string> := map[
    "cpp" := "cpp", "c++" := "cpp", "java" := "java", "python" := "py", "python3" := "py",
    "c" := "c", "csharp" := "cs", "c#" := "cs", "javascript" := "js", "typescript" := "ts",
    "php" := "php", "swift" := "swift", "kotlin" := "kt", "dart" := "dart", "go" := "go",
    "golang" := "go", "ruby" := "rb", "scala" := "scala", "rust" := "rs", "racket" := "rkt",
    "erlang" := "erl", "elixir" := "ex"]

  /** The table of `getFileExtension` in leetcode-sync/popup.js. */
  const LegacyExtensions: map<string, string> := map[
    "python" := "py", "java" := "java", "javascript" := "js", "typescript" := "ts", "cpp" := "cpp",
    "c" := "c", "go" := "go", "rust" := "rs", "kotlin" := "kt", "swift" := "swift"]

  /** `map[key] || 'txt'`: a missing key and an empty entry both fall back to "txt". */
  function Lookup(table: map<string, string>, key: string): (ext: string)
    ensures ext != []
    ensures key !in table ==> ext == "txt"
  {
    if key in table && table[key] != [] then table[key] else "txt"
  }

  /** `getFileExtension(language)` of shared/popup.js: looked up in lower case. */
  function FileExtension(language: string): (ext: string)
    ensures ext != []
  {
    Lookup(Extensions, Lower(language))
  }

  /** `getFileExtension(language)` of leetcode-sync/popup.js: looked up as given. */
  function FileExtensionLegacy(language: string): (ext: string)
    ensures ext != []
  {
    Lookup(LegacyExtensions, language)
  }

  lemma {:induction false} LowerTwice(s: string)
    ensures Lower(Lower(s)) == Lower(s)
  {
    var l := Lower(s);
    assert forall i | 0 <= i < |s| :: Lower(l)[i] == LowerChar(LowerChar(s[i])) == l[i];
  }

  /** The shared popup's extension does not depend on the case of the language name. */
  lemma ExtensionIgnoresCase(language: string)
    ensures FileExtension(Lower(language)) == FileExtension(language)
  {
    LowerTwice(language);
  }

  lemma {:induction false} LowerKeeps(s: string)
    requires forall i | 0 <= i < |s| :: !('A' <= s[i] <= 'Z')
    ensures Lower(s) == s
  {
  }

  /** No entry of either table is empty or "txt": the `|| 'txt'` fallback applies exactly to missing keys. */
  lemma TableEntries()
    ensures forall k | k in Extensions :: Extensions[k] != [] && Extensions[k] != "txt"
    ensures forall k | k in LegacyExtensions :: LegacyExtensions[k] != [] && LegacyExtensions[k] != "txt"
  {
  }

  /** The tags are written in lower case, so `toLowerCase` leaves them alone. */
  lemma {:induction false} TagIsLowerCase(tag: string)
    requires tag in Tags
    ensures Lower(tag) == tag
  {
    assert forall i | 0 <= i < |tag| :: 'a' <= tag[i] <= 'z' by {
      if tag in {"cpp", "java", "csharp", "javascript", "typescript", "php"} {
      } else if tag in {"swift", "kotlin", "dart", "go", "ruby", "scala"} {
      } else {
      }
    }
    LowerKeeps(tag);
  }

  /** Every tag the page extractor's `detectLanguage` produces has its own entry: no solution is saved as ".txt". */
  lemma {:induction false} TagHasExtension(tag: string)
    requires tag in Tags
    ensures FileExtension(tag) != "txt"
  {
    TagIsLowerCase(tag);
    assert Tags <= Extensions.Keys;
    TableEntries();
  }

  /** Likewise for the four tags of the short classifier and the short table. */
  lemma {:induction false} LegacyTagHasExtension(tag: string)
    requires tag in LegacyTags
    ensures FileExtensionLegacy(tag) != "txt"
  {
    assert LegacyTags <= LegacyExtensions.Keys;
    TableEntries();
  }

  /** What either extractor detects is therefore saved under a real extension. */
  lemma {:induction false} DetectedLanguageHasExtension(code: string)
    ensures FileExtension(DetectLanguage(code)) != "txt"
    ensures FileExtensionLegacy(DetectLanguageLegacy(code)) != "txt"
  {
    TagHasExtension(DetectLanguage(code));
    LegacyTagHasExtension(DetectLanguageLegacy(code));
  }

  /** The short table is part of the long one, with the same extensions. */
  lemma LegacyTableIncluded()
    ensures forall k | k in LegacyExtensions :: k in Extensions && Extensions[k] == LegacyExtensions[k]
  {
  }

  /** A capitalised name is found by the shared popup but not by the legacy one. */
  lemma {:induction false} LegacyIsCaseSensitive()
    ensures FileExtension("Python") == "py"
    ensures FileExtensionLegacy("Python") == "txt"
  {
    LowerPython();
    assert "python" in Extensions;
    LegacyHasNoCapitals();
  }

  lemma LowerPython()
    ensures Lower("Python") == "python"
  {
    assert LowerChar('P') == 'p';
  }

  /** No key of the leetcode-sync table starts with a capital letter. */
  lemma LegacyHasNoCapitals()
    ensures "Python" !in LegacyExtensions
  {
    assert forall k | k in LegacyExtensions :: k[0] != 'P';
  }

  /** `leetcode/<slug>.<ext>`. */
  function FilePath(slug: string, ext: string): (path: string)
    ensures |path| == |"leetcode/"| + |slug| + 1 + |ext|
  {
    "leetcode/" + slug + "." + ext
  }

  /** The first '.' after the directory is the one before the extension. */
  lemma {:induction false} ExtensionDot(slug: string, ext: string)
    requires '.' !in slug
    ensures var p := FilePath(slug, ext);
      && p[|"leetcode/"| + |slug|] == '.'
      && (forall i | |"leetcode/"| <= i < |"leetcode/"| + |slug| :: p[i] != '.')
      && p[|"leetcode/"|..|"leetcode/"| + |slug|] == slug
      && p[|"leetcode/"| + |slug| + 1..] == ext
  {
    var p := FilePath(slug, ext);
    var n := |"leetcode/"|;
    assert p == "leetcode/" + slug + "." + ext;
    assert forall i | n <= i < n + |slug| :: p[i] == slug[i - n];
  }

  /** Two different problems, or two different extensions, never share a file. */
  lemma {:induction false} FilePathInjective(slug1: string, ext1: string, slug2: string, ext2: string)
    requires '.' !in slug1 && '.' !in slug2
    requires FilePath(slug1, ext1) == FilePath(slug2, ext2)
    ensures slug1 == slug2 && ext1 == ext2
  {
    ExtensionDot(slug1, ext1);
    ExtensionDot(slug2, ext2);
  }

  // ---------------------------------------------------------------------------
  // Truncation warning
  // ---------------------------------------------------------------------------

  /** The last element of `code.split('\n')`: everything after the last line feed. */
  function LastLine(code: string): (line: string)
    ensures |line| <= |code| && line == code[|code| - |line|..]
    ensures '\n' !in line
    ensures |line| == |code| || code[|code| - |line| - 1] == '\n'
  {
    if code == [] || code[|code| - 1] == '\n' then []
    else LastLine(code[..|code| - 1]) + [code[|code| - 1]]
  }

  /** The characters of /[;})\]]/. */
  predicate IsCloser(c: char) {
    c == ';' || c == '}' || c == ')' || c == ']'
  }

  /** The shared popup warns that the code may be incomplete: its last line has text but no closing character. */
  predicate MayBeIncomplete(code: string)
    ensures MayBeIncomplete(code) ==> code != [] && code[|code| - 1] != '\n'
  {
    var t := Trim(LastLine(code));
    t != [] && forall i | 0 <= i < |t| :: !IsCloser(t[i])
  }

  /** Code ending in a line feed never draws the warning. */
  lemma {:induction false} TrailingNewlineNoWarning(code: string)
    ensures !MayBeIncomplete(code + "\n")
  {
    assert LastLine(code + "\n") == [];
  }

  /** Code whose last line is a closing brace never draws the warning. */
  lemma {:induction false} ClosingBraceNoWarning(code: string)
    ensures !MayBeIncomplete(code + "\n}")
  {
    var c := code + "\n}";
    assert c[|c| - 1] == '}';
    assert c[..|c| - 1] == code + "\n";
    assert (code + "\n")[|code|] == '\n';
    assert LastLine(c) == "}";
    BraceTrims();
  }

  lemma BraceTrims()
    ensures Trim("}") == "}"
  {
    assert !IsJsSpace('}');
  }

  // ---------------------------------------------------------------------------
  // Pushing
  // ---------------------------------------------------------------------------

  /** `auth.github_token` and `auth.github_username` as `loadAuth` returns them. */
  type Credentials = Auth.Credentials

  predicate Authenticated(auth: Credentials) {
    Truthy(auth.token) && Truthy(auth.username)
  }

  /** Reply to the GET of the file: its status and the `sha` and `message` fields of the JSON body. */
  datatype FileCheck = CheckThrew | CheckReplied(status: int, sha: Option<string>, message: Option<string>)

  /** Reply to the PUT: whether `result.content` is truthy, and `result.message`. */
  datatype PutReply = PutThrew | PutReplied(content: bool, message: Option<string>)

  /** What GitHub answers to each request one push can make. */
  datatype GitHub = GitHub(lookup: Fetch, create: Fetch, check: FileCheck, put: PutReply)

  /** The PUT request: its URL and its JSON body; `sha` is left out of the JSON when `None`. */
  datatype PutRequest = PutRequest(url: string, message: string, content: string, branch: string, sha: Option<string>)

  /** The status a push ends with. */
  datatype Outcome =
    | NotAuthenticated
    | RepositoryUnavailable
    | NoValidCode
    | ApiError(detail: string)
    | Pushed
    | Rejected(detail: string)
    | NetworkError

  /**
   * The outcome of one push, with the repository creation request and the PUT
   * request it sent, if any, and whether the truncation warning was shown.
   */
  datatype PushReport = PushReport(outcome: Outcome, created: Option<NewRepository>, put: Option<PutRequest>, warned: bool)

  const SharedRepository: string := "code-sync"
  const SharedDescription: string := "LeetCode solutions automatically synced from dotpush extension - https://dotpush.ca/"
  const LegacyRepository: string := "leetcode-sync"
  const LegacyDescription: string := "LeetCode solutions automatically synced from dotpush extension"

  function ContentsUrl(user: string, repository: string, path: string): string {
    "https://api.github.com/repos/" + user + "/" + repository + "/contents/" + path
  }

  /** The page the popup's repository button opens. */
  function FileUrl(user: string, repository: string, path: string): string {
    "https://github.com/" + user + "/" + repository + "/blob/main/" + path
  }

  /** A template literal's rendering of an optional JSON string field. */
  function Rendered(field: Option<string>): string {
    field.GetOr("undefined")
  }

  predicate FileExists(check: FileCheck) {
    check.CheckReplied? && 200 <= check.status <= 299
  }

  predicate FileMissing(check: FileCheck) {
    check.CheckReplied? && check.status == 404
  }

  /**
   * The part both popups share once the content is encoded: GET the file, stop on
   * any status other than 2xx and 404, then PUT the content, updating with
   * the reported SHA when the file exists and adding it otherwise.
   */
  function Commit(apiUrl: string, slug: string, content: string, hub: GitHub,
                  created: Option<NewRepository>, warned: bool): (r: PushReport)
    ensures r.created == created && r.warned == warned
    ensures r.put.Some? <==> FileExists(hub.check) || FileMissing(hub.check)
    ensures r.put.Some? ==> r.put.value.url == apiUrl && r.put.value.content == content
                             && r.put.value.branch == "main"
    ensures r.put.Some? ==> (r.put.value.message == "Update solution for " + slug <==> FileExists(hub.check))
    ensures r.put.Some? ==> (r.put.value.message == "Add solution for " + slug <==> FileMissing(hub.check))
    ensures r.put.Some? ==> r.put.value.sha == (if FileExists(hub.check) then hub.check.sha else None)
    ensures r.outcome.Pushed? <==> r.put.Some? && hub.put.PutReplied? && hub.put.content
    ensures r.outcome.ApiError? <==> hub.check.CheckReplied? && !FileExists(hub.check) && !FileMissing(hub.check)
    ensures r.outcome.ApiError? ==> r.outcome.detail == Rendered(hub.check.message)
    ensures r.outcome in {Pushed, NetworkError} || r.outcome.ApiError? || r.outcome.Rejected?
  {
    match hub.check
    case CheckThrew => PushReport(NetworkError, created, None, warned)
    case CheckReplied(status, sha, message) =>
      if !FileExists(hub.check) && status != 404 then
        PushReport(ApiError(Rendered(message)), created, None, warned)
      else
        var present := FileExists(hub.check);
        var request := PutRequest(apiUrl,
                                  (if present then "Update solution for " else "Add solution for ") + slug,
                                  content, "main", if present then sha else None);
        var outcome :=
          match hub.put
          case PutThrew => NetworkError
          case PutReplied(true, _) => Pushed
          case PutReplied(false, m) => Rejected(if Truthy(m) then m.value else "Unknown error");
        PushReport(outcome, created, Some(request), warned)
  }

  /** `pushToGitHub(code, url, language)` of shared/popup.js. */
  function PushShared(code: string, url: string, language: string, auth: Credentials, hub: GitHub): (r: PushReport)
  {
    if !Authenticated(auth) then PushReport(NotAuthenticated, None, None, false)
    else
      var repo := EnsureRepository(SharedRepository, SharedDescription, hub.lookup, hub.create);
      if !repo.ready then PushReport(RepositoryUnavailable, repo.createRequested, None, false)
      else if Length(Trim(code)) < 5 then PushReport(NoValidCode, repo.createRequested, None, false)
      else SharedCommit(code, url, language, auth.username.value, hub, repo.createRequested)
  }

  /** The rest of a shared push once the code has passed: the file's URL, the encoding and the warning. */
  function SharedCommit(code: string, url: string, language: string, user: string, hub: GitHub,
                        created: Option<NewRepository>): (r: PushReport)
    ensures r.created == created
    ensures r.outcome in {Pushed, NetworkError} || r.outcome.ApiError? || r.outcome.Rejected?
    ensures r.outcome.Pushed? <==> r.put.Some? && hub.put.PutReplied? && hub.put.content
  {
    var slug := ProblemSlug(url);
    var path := FilePath(slug, FileExtension(language));
    Commit(ContentsUrl(user, SharedRepository, path), slug, EncodeContent(code), hub, created, MayBeIncomplete(code))
  }

  /**
   * `pushToGitHub(code, url, language)` of leetcode-sync/popup.js: no check of
   * the code, no warning, its own repository and extension table, and the
   * `btoa(unescape(encodeURIComponent(code)))` encoding, whose `btoa` would throw
   * into the "Network error" handler on a character beyond Latin-1.
   */
  function PushLegacy(code: string, url: string, language: string, auth: Credentials, hub: GitHub): (r: PushReport)
    ensures !r.warned
    ensures r.outcome == NotAuthenticated <==> !Authenticated(auth)
    ensures r.put.Some? ==> r.put.value.branch == "main"
  {
    if !Authenticated(auth) then PushReport(NotAuthenticated, None, None, false)
    else
      var slug := ProblemSlug(url);
      var path := FilePath(slug, FileExtensionLegacy(language));
      var user := auth.username.value;
      var repo := EnsureRepository(LegacyRepository, LegacyDescription, hub.lookup, hub.create);
      if !repo.ready then PushReport(RepositoryUnavailable, repo.createRequested, None, false)
      else
        match LegacyEncodeContent(code)
        case None => PushReport(NetworkError, repo.createRequested, None, false)
        case Some(content) =>
          Commit(ContentsUrl(user, LegacyRepository, path), slug, content, hub, repo.createRequested, false)
  }

  // ---------------------------------------------------------------------------
  // Properties of a push
  // ---------------------------------------------------------------------------

  /** Whether the repository request of a push ends with the repository in place. */
  predicate RepositoryReady(repository: string, description: string, hub: GitHub) {
    EnsureRepository(repository, description, hub.lookup, hub.create).ready
  }

  /**
   * The shared popup writes exactly when it is signed in, the repository is in
   * place, the code has at least five non-blank UTF-16 units and the GET of the
   * file answered 2xx or 404. The truncation warning is shown on the way
   * whenever the last line looks unfinished, and it does not stop the push.
   * The file written is `leetcode/<slug>.<ext>` of `code-sync`, and its content
   * decodes to exactly the code.
   */
  lemma {:induction false} SharedPushWritesTheCode(code: string, url: string, language: string, auth: Credentials, hub: GitHub)
    ensures var r := PushShared(code, url, language, auth, hub);
      var reached := Authenticated(auth) && RepositoryReady(SharedRepository, SharedDescription, hub) && Length(Trim(code)) >= 5;
      && (r.put.Some? <==> reached && (FileExists(hub.check) || FileMissing(hub.check)))
      && (r.warned <==> reached && MayBeIncomplete(code))
      && (r.put.Some? ==>
            && r.put.value.url == ContentsUrl(auth.username.value, SharedRepository,
                                              FilePath(ProblemSlug(url), FileExtension(language)))
            && DecodeContent(r.put.value.content) == Some(code))
  {
    ContentRoundTrip(code);
  }

  /** How a shared push ends before it reaches GitHub's contents API, and the repository it asks to create. */
  lemma {:induction false} SharedPushOutcomes(code: string, url: string, language: string, auth: Credentials, hub: GitHub)
    ensures var r := PushShared(code, url, language, auth, hub);
      var repo := EnsureRepository(SharedRepository, SharedDescription, hub.lookup, hub.create);
      && (r.outcome == RepositoryUnavailable <==> Authenticated(auth) && !repo.ready)
      && (r.outcome == NoValidCode <==> Authenticated(auth) && repo.ready && Length(Trim(code)) < 5)
      && (r.outcome == Pushed <==> r.put.Some? && hub.put.PutReplied? && hub.put.content)
      && r.created == (if Authenticated(auth) then repo.createRequested else None)
  {
  }

  /**
   * The legacy popup writes to `leetcode-sync` exactly when it is signed in,
   * the repository is in place and the GET answered 2xx or 404, whatever the
   * code is; it never warns, and its content is the shared popup's.
   */
  lemma {:induction false} LegacyPushWritesTheCode(code: string, url: string, language: string, auth: Credentials, hub: GitHub)
    ensures var r := PushLegacy(code, url, language, auth, hub);
      && (r.put.Some? <==>
            Authenticated(auth) && RepositoryReady(LegacyRepository, LegacyDescription, hub)
            && (FileExists(hub.check) || FileMissing(hub.check)))
      && (r.put.Some? ==>
            && r.put.value.url == ContentsUrl(auth.username.value, LegacyRepository,
                                              FilePath(ProblemSlug(url), FileExtensionLegacy(language)))
            && r.put.value.content == EncodeContent(code)
            && DecodeContent(r.put.value.content) == Some(code))
  {
    LegacyContentAgrees(code);
    ContentRoundTrip(code);
  }

  /** How a legacy push ends: its encoding never throws, so a network error comes only from GitHub's requests. */
  lemma {:induction false} LegacyPushOutcomes(code: string, url: string, language: string, auth: Credentials, hub: GitHub)
    ensures var r := PushLegacy(code, url, language, auth, hub);
      var repo := EnsureRepository(LegacyRepository, LegacyDescription, hub.lookup, hub.create);
      && (r.outcome == RepositoryUnavailable <==> Authenticated(auth) && !repo.ready)
      && r.outcome != NoValidCode
      && (r.outcome == NetworkError <==>
            Authenticated(auth) && repo.ready && (hub.check.CheckThrew? || (r.put.Some? && hub.put.PutThrew?)))
      && (r.outcome == Pushed <==> r.put.Some? && hub.put.PutReplied? && hub.put.content)
      && r.created == (if Authenticated(auth) then repo.createRequested else None)
  {
    LegacyContentAgrees(code);
  }

  /**
   * With the credentials present and the repository, file check and PUT all
   * succeeding, both popups send the request for the same content; the shared
   * popup refuses blank or tiny code where the legacy one commits it.
   */
  lemma {:induction false} OnlyLegacyCommitsBlankCode(url: string, language: string, auth: Credentials, hub: GitHub)
    requires Authenticated(auth)
    requires IsOk(hub.lookup) && FileMissing(hub.check) && hub.put.PutReplied? && hub.put.content
    ensures PushShared("   ", url, language, auth, hub).outcome == NoValidCode
    ensures PushShared("   ", url, language, auth, hub).put == None
    ensures PushLegacy("   ", url, language, auth, hub).outcome == Pushed
    ensures PushLegacy("   ", url, language, auth, hub).put.value.message == "Add solution for " + ProblemSlug(url)
  {
    var blank := "   ";
    assert Trim(blank) == [] by {
      assert blank[1..] == "  " && blank[1..][1..] == " " && blank[1..][1..][1..] == [];
    }
    LegacyContentAgrees(blank);
  }

  /**
   * When the GET of the file answers 2xx, both popups send an update carrying
   * the SHA it reported, on every path that reaches the PUT.
   */
  lemma {:induction false} ExistingFileUpdates(code: string, url: string, language: string, auth: Credentials, hub: GitHub, sha: string)
    requires hub.check.CheckReplied? && 200 <= hub.check.status <= 299 && hub.check.sha == Some(sha)
    ensures var r := PushShared(code, url, language, auth, hub);
      && (r.put.Some? <==>
            Authenticated(auth) && RepositoryReady(SharedRepository, SharedDescription, hub) && Length(Trim(code)) >= 5)
      && (r.put.Some? ==> r.put.value.sha == Some(sha) && r.put.value.message == "Update solution for " + ProblemSlug(url))
    ensures var r := PushLegacy(code, url, language, auth, hub);
      && (r.put.Some? <==> Authenticated(auth) && RepositoryReady(LegacyRepository, LegacyDescription, hub))
      && (r.put.Some? ==> r.put.value.sha == Some(sha) && r.put.value.message == "Update solution for " + ProblemSlug(url))
  {
    LegacyContentAgrees(code);
  }

  /** When the GET of the file answers 404, both popups add the file, without a SHA. */
  lemma {:induction false} MissingFileAdds(code: string, url: string, language: string, auth: Credentials, hub: GitHub)
    requires FileMissing(hub.check)
    ensures var r := PushShared(code, url, language, auth, hub);
      && (r.put.Some? <==>
            Authenticated(auth) && RepositoryReady(SharedRepository, SharedDescription, hub) && Length(Trim(code)) >= 5)
      && (r.put.Some? ==> r.put.value.sha == None && r.put.value.message == "Add solution for " + ProblemSlug(url))
    ensures var r := PushLegacy(code, url, language, auth, hub);
      && (r.put.Some? <==> Authenticated(auth) && RepositoryReady(LegacyRepository, LegacyDescription, hub))
      && (r.put.Some? ==> r.put.value.sha == None && r.put.value.message == "Add solution for " + ProblemSlug(url))
  {
    LegacyContentAgrees(code);
  }

  // ---------------------------------------------------------------------------
  // The popup's state
  // ---------------------------------------------------------------------------

  /**
   * The module-level state of shared/popup.js that a push changes: the URL the
   * repository button opens (`currentFileUrl`) and whether that button is shown.
   */
  class Popup {
    var currentFileUrl: Option<string>
    var repoButtonShown: bool

    /** The button is only ever shown with a page for it to open. */
    predicate Valid()
      reads this
    {
      repoButtonShown ==> currentFileUrl.Some?
    }

    constructor()
      ensures currentFileUrl == None && !repoButtonShown
      ensures Valid()
    {
      currentFileUrl := None;
      repoButtonShown := false;
    }

    /** `pushToGitHub` of shared/popup.js, with its effects on the popup. */
    method PushToGitHub(code: string, url: string, language: string, auth: Credentials, hub: GitHub)
      returns (r: PushReport)
      requires Valid()
      modifies this
      ensures Valid()
      ensures r == PushShared(code, url, language, auth, hub)
      ensures Authenticated(auth) ==>
        currentFileUrl == Some(FileUrl(auth.username.value, SharedRepository,
                                       FilePath(ProblemSlug(url), FileExtension(language))))
      ensures !Authenticated(auth) ==> currentFileUrl == old(currentFileUrl)
      ensures repoButtonShown == (old(repoButtonShown) || r.outcome == Pushed)
    {
      if !Authenticated(auth) {
        return PushReport(NotAuthenticated, None, None, false);
      }
      var slug := ProblemSlug(url);
      var path := FilePath(slug, FileExtension(language));
      var user := auth.username.value;
      currentFileUrl := Some(FileUrl(user, SharedRepository, path));
      var repo := EnsureRepository(SharedRepository, SharedDescription, hub.lookup, hub.create);
      if !repo.ready {
        return PushReport(RepositoryUnavailable, repo.createRequested, None, false);
      }
      if Length(Trim(code)) < 5 {
        return PushReport(NoValidCode, repo.createRequested, None, false);
      }
      var warned := MayBeIncomplete(code);
      var content := EncodeContent(code);
      r := Commit(ContentsUrl(user, SharedRepository, path), slug, content, hub, repo.createRequested, warned);
      if r.outcome == Pushed {
        repoButtonShown := true;
      }
    }

    /** `showLoggedInView` hides the button until the next successful push. */
    method HideRepositoryButton()
      requires Valid()
      modifies this
      ensures Valid()
      ensures !repoButtonShown && currentFileUrl == old(currentFileUrl)
    {
      repoButtonShown := false;
    }

    /** Logging out forgets the file and hides the button (the credentials are cleared by `clearAuth`). */
    method Logout()
      modifies this
      ensures Valid()
      ensures currentFileUrl == None && !repoButtonShown
    {
      currentFileUrl := None;
      repoButtonShown := false;
    }
  }
}
