# dotpush, modelled in Dafny

dotpush is a browser extension that copies the solution a user is editing on
a LeetCode problem page into a file of a GitHub repository. It comes in two
variants: the current extension (`shared/`, repository `code-sync`) and the
older leetcode-sync extension (`leetcode-sync/`, repository `leetcode-sync`).
This project models the core of both variants:

- **Extraction.** The extractors read the code out of the page. They try the
  Monaco editor, then CodeMirror, then textareas, then code-like DOM elements,
  stage after stage. There are three variants: the page script, the copy
  inlined in the popup, and the leetcode-sync popup's extractor.
- **Language detection.** An ordered chain of pattern rules labels the code
  with a language.
- **Push.**
  - The file name is built from the problem slug and the language.
  - The repository is created when it is missing.
  - The file's SHA is looked up, and the content is sent base64-encoded as a
    PUT that adds or updates the file.
  - Content encoding differs: the current popup encodes with `TextEncoder`
    then `btoa`. The legacy popup uses `btoa(unescape(encodeURIComponent(...)))`.
- **Sign-in.** This is the GitHub device flow (the OAuth 2.0 Device
  Authorization Grant of RFC 8628): the device code request, the token polling
  rules, the user lookup and the token check. Credentials are kept in
  `storage.sync`, with a `storage.local` fallback in the current variant.
- **The background poller.** It carries on polling after the popup closes.
  On success it creates the repository, saves the credentials and notifies
  the popup.
- **The toolbar icon.** The icon is chosen from the tab's URL.

How each kind of code is modelled:

- **Pure JavaScript** is modelled with datatypes and functions.
  - Network answers are parameters: a `fetch` either threw or replied with a
    status and the JSON fields that are read.
  - Whether a storage call succeeds is also a parameter.
- **Objects whose fields are updated in place** are classes whose methods are
  proved against the pure transition functions:
  - the popup's `currentFileUrl` and repository button;
  - the background `BackgroundAuth` poller;
  - the two storage areas.
- **Loops over the candidates of an extraction stage** are methods with loop
  invariants.

Modules, one per file:

| module | file | models |
|---|---|---|
| `Common` | common.dfy | JavaScript string measures (`length` in UTF-16 units, `trim`, `includes`), HTTP replies, the shared repository check |
| `Patterns` | patterns.dfy | the regular-expression tests of `detectLanguage` and their matching |
| `Language` | language.dfy | both `detectLanguage` chains |
| `Extraction` | extraction.dfy | the three extractors |
| `Codec` | codec.dfy | UTF-8, base64 (RFC 4648, section 4) and the legacy `encodeURIComponent`/`unescape` route |
| `Push` | push.dfy | slug, extension, path, truncation warning, `pushToGitHub` of both popups, the popup state |
| `Auth` | auth.dfy | `GitHubAuth` of shared/auth.js |
| `LegacyAuth` | legacy_auth.dfy | the storage of leetcode-sync/auth.js |
| `Background` | background.dfy | `BackgroundAuth` and `IconManager` of shared/background.js |
| `LegacyBackground` | legacy_background.dfy | `BackgroundAuth` of leetcode-sync/background.js |

## Model

| member | source | states |
|---|---|---|
| Common.Length | shared/popup.js:632-635 | `s.length` counts UTF-16 units: between `\|s\|` and `2\|s\|`, and zero exactly for the empty string |
| Common.LengthConcat | shared/popup.js:632-635 | the UTF-16 length of a concatenation is the sum of the lengths |
| Common.Trim | shared/popup.js:632-635 | `trim()` yields a string no longer than the input that neither starts nor ends with ECMAScript white space |
| Common.TrimStart | shared/extract-code.js:103 | the removed prefix is all white space and the result does not start with white space |
| Common.TrimEnd | shared/extract-code.js:103 | the removed suffix is all white space and the result does not end with white space |
| Common.TrimTwice | shared/extract-code.js:166-174 | trimming is idempotent, so a stored trimmed pick stays the same when trimmed again on return |
| Common.TrimLength | shared/extract-code.js:163-166 | trimming never increases the UTF-16 length |
| Common.Decimal | shared/extract-code.js:99-100 | a count rendered in a debug line is a non-empty string of decimal digits without a leading zero (unless it is 0) |
| Common.DecimalValue | shared/extract-code.js:99-100 | reading the rendered digits back gives the number |
| Common.DecimalInjective | shared/extract-code.js:99-100 | distinct counts are rendered differently |
| Common.EnsureRepository | shared/popup.js:557-602 | ready exactly when the GET is 2xx, or it is 404 and the creation POST is 2xx; a creation request (private false, auto_init true, the given name and description) is sent exactly on 404; an exception gives false |
| Patterns.NothingHoldsOnEmpty | shared/extract-code.js:10-93 | no language test holds of the empty text |
| Patterns.NoAlternativeOnEmpty | shared/extract-code.js:10-93 | no pattern alternative occurs in the empty text |
| Patterns.NoMatchOnEmpty | shared/extract-code.js:10-93 | a pattern that consumes input cannot match at the end of the text |
| Language.Classify | shared/extract-code.js:10-93 | the rule chain returns one of the eighteen tags the extension knows, whatever the tests report |
| Language.ClassifyLegacy | leetcode-sync/popup.js:213-220 | the short chain returns one of python, java, javascript, cpp |
| Language.DetectLanguage | shared/popup.js:321-405 | the popup's inline copy returns a known tag for any code |
| Language.DetectLanguageLegacy | leetcode-sync/popup.js:213-220 | the legacy detector returns one of its four tags for any code |
| Language.NoEvidenceMeansPython | shared/extract-code.js:93 | when no rule fires, both chains answer "python" |
| Language.EmptyCodeIsPython | shared/extract-code.js:10-93 | empty code (nothing extracted) is labelled "python" by both detectors |
| Language.IncludeWithStreamsIsCpp | shared/extract-code.js:14 | `#include <` with `std::`, `cout` or `cin` is C++ before any other rule is tried |
| Language.BracketedWordIsSwift | shared/extract-code.js:37-39 | a Python class with a bracketed word such as `List[int]` is labelled swift, because the Swift rule comes before the Python rules |
| Language.DefWithEndIsRuby | shared/extract-code.js:55-56 | `def name` plus the letters `end` anywhere is Ruby when no earlier rule fired, even when the Python rules would also fire |
| Language.Fallbacks | shared/extract-code.js:87-93 | once none of the specific rules fires (any other combination of evidence allowed, including `func name(` and `fun name(`), the fallbacks decide in order: `def ` means python, `func ` without `fun ` means go, `fun ` means kotlin, `public class` means java, `function ` means javascript, otherwise python |
| Language.FuncDeclarationIsGo | shared/extract-code.js:38-88 | text whose only evidence is a Go declaration such as `func twoSum() {` (it matches `func\s+\w+\s*\(` and `func\s+`) is go: the Swift and Go rules on `func name(` need further evidence, and the fallback `func ` without `fun ` fires |
| Language.FunDeclarationIsKotlin | shared/extract-code.js:42-89 | text whose only evidence is a Kotlin declaration such as `fun twoSum() {` is kotlin: the Kotlin rule on `fun name(` needs `class Solution`, and the fallback `fun ` fires |
| Language.LegacyPythonFirst | leetcode-sync/popup.js:213-220 | in the short chain a Python marker wins over every other rule |
| Language.JavaBeforePython | shared/extract-code.js:18-79 | the same Java-and-Python code is java for the page detector and python for the legacy one |
| Extraction.Scan | shared/extract-code.js:96-109 | the index a stage picks is within the candidate list |
| Extraction.RunStage | shared/extract-code.js:96-109 | the candidate loop with its early exit on an exception computes exactly the stage's fold `Scan` |
| Extraction.FaultStops | shared/extract-code.js:96-109 | after the first exception in a stage, later candidates change nothing |
| Extraction.Reach | shared/extract-code.js:96-109 | the candidates a stage reads are the ones before the first that throws |
| Extraction.ScanFault | shared/extract-code.js:96-109 | a stage reports an exception exactly when some candidate throws, and the one reported is the first |
| Extraction.ScanPick | shared/extract-code.js:128-141 | a stage's pick is empty with no eligible non-empty candidate, or the stored text of an eligible candidate that no later eligible candidate beats |
| Extraction.ScanFirstLongest | shared/extract-code.js:111-126 | in a stage that measures candidates as it stores them (untrimmed in the editor, textarea and plain stages, trimmed in the leetcode-sync DOM stage of leetcode-sync/popup.js:259-267), the pick is the first of the longest eligible candidates: earlier ones are strictly shorter, later ones no longer |
| Extraction.StagePass | shared/extract-code.js:111-126 | a stage's result code is its scan's pick, and its debug log extends the prior log with the stage header |
| Extraction.RunPass | shared/extract-code.js:111-126 | one stage updates `extractedCode`, `method` and `debug` as `StagePass` says |
| Extraction.RunMonaco | shared/extract-code.js:96-109 | the Monaco stage, including `getModels()` throwing, matches `MonacoPass` |
| Extraction.ExtractCodeFromPage | shared/extract-code.js:4-179 | the four-stage page extractor returns `PageExtraction(page)` |
| Extraction.ExtractInline | shared/popup.js:315-460 | the popup's three-stage inline extractor returns `InlineExtraction(page)` |
| Extraction.ExtractLegacy | leetcode-sync/popup.js:222-275 | the leetcode-sync extractor (Monaco, textareas, CodeMirror, editor elements) returns `LegacyExtraction(page)` |
| Extraction.PickedTextarea | shared/extract-code.js:128-141 | the textarea stage picks nothing, or the stored value of one textarea its guard accepts |
| Extraction.PickedContainer | shared/extract-code.js:143-170 | the DOM stage picks nothing, or the stored text of one element its guard accepts |
| Extraction.StageSubstantial | shared/extract-code.js:103 | a stage whose guard demands more than ten trimmed units ends empty or with such text |
| Extraction.MonacoSubstantial | shared/extract-code.js:96-109 | the page extractor's Monaco stage ends empty or with substantial text |
| Extraction.PageExtractionSubstantial | shared/extract-code.js:172-178 | the page extractor reports ok exactly when it returns code, and returned code is over ten UTF-16 units |
| Extraction.InlineExtractionSubstantial | shared/popup.js:454-460 | the same two facts hold of the popup's inline extractor |
| Extraction.LegacyAcceptsBlankBuffer | leetcode-sync/popup.js:222-275 | a Monaco buffer of blanks is an ok result with empty code for the legacy extractor, and a failure for the page extractor |
| Extraction.MonacoShortCircuits | shared/extract-code.js:96-178 | when Monaco yields code, nothing else on the page affects the result, and the method is "Monaco Editor" |
| Extraction.InlineAgreesWithPage | shared/popup.js:407-460 | when the inline extractor succeeds, the page extractor returns the same result; its debug log is always a prefix of the page extractor's |
| Extraction.FailureLeavesTrace | shared/extract-code.js:129-131 | every failed extraction, in all three variants, logs the textarea count |
| Extraction.DomStageComparesUntrimmed | shared/extract-code.js:159-166 | the DOM stage compares raw length against the stored trimmed pick, so padded text with shorter content replaces it |
| Extraction.TrimmedStageComparesTrimmed | leetcode-sync/popup.js:259-267 | the legacy DOM stage keeps the earlier pick when the later text is not longer after trimming |
| Codec.EncodeChar | shared/popup.js:648-649 | one character is one to four UTF-8 bytes, one exactly for ASCII, the rest continuation bytes |
| Codec.Utf8Encode | shared/popup.js:648-649 | `TextEncoder.encode` yields between one and four bytes per character |
| Codec.DecodeOne | shared/popup.js:648-649 | a decoded character consumes between one byte and the whole input |
| Codec.DecodeEncodedChar | shared/popup.js:648-649 | decoding the bytes of one character yields that character and its byte count |
| Codec.Utf8RoundTrip | shared/popup.js:648-649 | strict UTF-8 decoding inverts `TextEncoder.encode` |
| Codec.Value | shared/popup.js:650 | each base64 symbol has the value it encodes in the RFC 4648 alphabet |
| Codec.ValueOfSymbol | shared/popup.js:650 | every six-bit value survives symbol encoding and decoding |
| Codec.EncodeGroup | shared/popup.js:650 | one to three bytes become exactly four symbols |
| Codec.Base64Encode | shared/popup.js:650 | `btoa` output has length `4 * ceil(n / 3)` |
| Codec.DecodeGroup | shared/popup.js:650 | four symbols decode to one to three bytes, and to exactly three unless they end the text |
| Codec.SixBitPieces | shared/popup.js:650 | a group's four six-bit pieces reassemble into its three bytes |
| Codec.DecodeEncodedGroup | shared/popup.js:650 | decoding an encoded group yields the group |
| Codec.Base64RoundTrip | shared/popup.js:650 | base64 decoding inverts `btoa` on any byte sequence |
| Codec.EncodeContent | shared/popup.js:648-650 | the content field is whole base64 groups |
| Codec.ContentRoundTrip | shared/popup.js:648-650 | GitHub decodes the pushed content to exactly the code |
| Codec.HexValue | leetcode-sync/popup.js:413 | a hexadecimal digit's value lies in 0..15 |
| Codec.Escape | leetcode-sync/popup.js:413 | each byte is escaped as three ASCII characters |
| Codec.Latin1 | leetcode-sync/popup.js:413 | `String.fromCharCode` gives one character per byte with that code |
| Codec.Latin1Bytes | leetcode-sync/popup.js:413 | when `btoa` accepts a string, it takes one byte per character |
| Codec.HexRoundTrip | leetcode-sync/popup.js:413 | a byte survives being written and read as two hex digits |
| Codec.Latin1Concat | leetcode-sync/popup.js:413 | reading bytes as characters distributes over concatenation |
| Codec.UnescapeEscape | leetcode-sync/popup.js:413 | `unescape` turns the percent-escapes of some bytes back into those byte codes |
| Codec.UnescapeOne | leetcode-sync/popup.js:413 | `unescape` decodes one `%XX` escape (two upper-case hex digits) to the character whose code is that byte, and carries on with the rest |
| Codec.UnescapeKeeps | leetcode-sync/popup.js:413 | `unescape` keeps a leading character other than `%` and carries on with the rest |
| Codec.EncodeUriComponent | leetcode-sync/popup.js:413 | `encodeURIComponent` output is plain ASCII and no shorter than its input |
| Codec.Unescape | leetcode-sync/popup.js:413 | `unescape` never lengthens a string and keeps a Latin-1 string Latin-1 |
| Codec.UnescapeEncodeUri | leetcode-sync/popup.js:413 | `unescape(encodeURIComponent(s))` is the UTF-8 bytes of `s` read as Latin-1 |
| Codec.LegacyEncodeContent | leetcode-sync/popup.js:413 | `btoa(unescape(encodeURIComponent(code)))` never throws and yields whole base64 groups |
| Codec.LegacyContentAgrees | leetcode-sync/popup.js:413 | the legacy encoding never throws and equals the current popup's content for every string |
| Push.Segment | shared/popup.js:711-712 | `[^\/]+` takes the longest '/'-free prefix |
| Push.SlugMatch | shared/popup.js:711-712 | a captured slug is non-empty and has no '/' |
| Push.ProblemSlug | shared/popup.js:710-713 | `getProblemSlug` never returns an empty slug or one containing '/' |
| Push.SegmentStops | shared/popup.js:711-712 | the captured segment stops at the first '/' |
| Push.SlugOfProblemUrl | shared/popup.js:710-713 | a problem URL's slug is the path segment after `leetcode.com/problems/` |
| Push.NoProblemPathMeansSolution | shared/popup.js:710-713 | a URL without `leetcode.com/problems/` is saved under "solution" |
| Push.LowerChar | shared/popup.js:742 | `toLowerCase` maps A-Z to a-z and leaves other ASCII unchanged |
| Push.Lower | shared/popup.js:742 | lower-casing keeps the length and lower-cases each character |
| Push.Lookup | shared/popup.js:742 | `map[key] \|\| 'txt'` is never empty and is "txt" for a missing key |
| Push.FileExtension | shared/popup.js:716-743 | the current popup's extension is never empty |
| Push.FileExtensionLegacy | leetcode-sync/popup.js:475-489 | the legacy popup's extension is never empty |
| Push.LowerTwice | shared/popup.js:742 | lower-casing is idempotent |
| Push.ExtensionIgnoresCase | shared/popup.js:716-743 | the current popup's extension ignores the case of the language name |
| Push.LowerKeeps | shared/popup.js:742 | lower-casing leaves a string without capitals unchanged |
| Push.TableEntries | shared/popup.js:717-741 | no table entry is empty or "txt", so the fallback fires only for missing keys |
| Push.TagIsLowerCase | shared/extract-code.js:10-93 | every detected tag is already lower case |
| Push.TagHasExtension | shared/popup.js:716-743 | every tag of the page detector has its own extension |
| Push.LegacyTagHasExtension | leetcode-sync/popup.js:475-489 | every tag of the short detector has its own extension in the short table |
| Push.DetectedLanguageHasExtension | shared/popup.js:614-617 | code labelled by either detector is never saved as ".txt" |
| Push.LegacyTableIncluded | leetcode-sync/popup.js:476-487 | the short table is part of the long one, with the same extensions |
| Push.LegacyIsCaseSensitive | leetcode-sync/popup.js:488 | "Python" gives "py" in the current popup and "txt" in the legacy one |
| Push.FilePath | shared/popup.js:616-617 | the path is `leetcode/` + slug + `.` + extension |
| Push.ExtensionDot | shared/popup.js:616-617 | in a path whose slug has no '.', the first '.' after the directory separates slug from extension |
| Push.FilePathInjective | shared/popup.js:616-617 | for slugs without '.', distinct slugs or extensions never share a file |
| Push.LastLine | shared/popup.js:638-639 | the last element of `split('\n')` is the suffix after the last line feed |
| Push.TrailingNewlineNoWarning | shared/popup.js:638-642 | code ending in a line feed never gets the truncation warning |
| Push.ClosingBraceNoWarning | shared/popup.js:638-642 | code whose last line is `}` never gets the truncation warning |
| Push.MayBeIncomplete | shared/popup.js:638-642 | the truncation warning is only shown for code that does not end in a line feed |
| Push.Commit | shared/popup.js:652-706 | a PUT to the file URL on branch main is sent iff the check is 2xx or 404. The message is "Update…" iff the file exists and "Add…" iff it is missing. The SHA is sent only for an existing file. Pushed iff the reply has content. API error, with the reply's message, iff another status |
| Push.SharedPushWritesTheCode | shared/popup.js:605-707 | a PUT is sent exactly when the user is signed in, the repository is ready, the code has five or more non-blank units and the check is 2xx or 404; the warning is shown on that path exactly when the last line looks unfinished and does not stop the push; the PUT goes to the derived path in `code-sync`, and its content decodes to the code |
| Push.SharedPushOutcomes | shared/popup.js:605-635 | "repository unavailable" exactly when signed in with the repository not ready; "no valid code" exactly when it is ready and the code is under five non-blank units; pushed exactly when a PUT went out and its reply has content; a creation request only when signed in |
| Push.SharedCommit | shared/popup.js:638-706 | once the code has passed, the push ends pushed, rejected, with an API error or a network error, pushed exactly on a PUT reply with content |
| Push.LegacyPushWritesTheCode | leetcode-sync/popup.js:388-466 | a legacy PUT is sent exactly when signed in, with the repository ready and a 2xx or 404 check, whatever the code; it targets `leetcode-sync`, and its content equals the current popup's and decodes to the code |
| Push.PushLegacy | leetcode-sync/popup.js:388-466 | the legacy push never warns, ends "not authenticated" exactly without credentials, and writes to branch main |
| Push.LegacyPushOutcomes | leetcode-sync/popup.js:388-466 | "repository unavailable" exactly when signed in with the repository not ready; never "no valid code"; a network error exactly when a request to the contents API threw; pushed exactly when the PUT reply has content |
| Push.OnlyLegacyCommitsBlankCode | leetcode-sync/popup.js:388-466 | on blank code the current popup refuses with "no valid code" and sends nothing, while the legacy one adds the file |
| Push.ExistingFileUpdates | shared/popup.js:662-682 | when the check is 2xx, both popups send an update with the reported SHA on every path that reaches the PUT, and the PUT is sent exactly when that path is reached |
| Push.MissingFileAdds | leetcode-sync/popup.js:425-444 | when the check is 404, both popups add the file without a SHA, and the PUT is sent exactly when the path reaches it |
| Push.Popup.constructor | shared/popup.js:622 | the popup starts with no file URL and the button hidden |
| Push.Popup.PushToGitHub | shared/popup.js:605-707 | returns `PushShared`. A signed-in push records the file's GitHub page. The repository button is shown after a successful push and never otherwise changes |
| Push.Popup.HideRepositoryButton | shared/popup.js:151-154 | showing the signed-in view hides the button and keeps the file URL |
| Push.Popup.Logout | shared/popup.js:252-260 | logging out forgets the file URL and hides the button |
| Auth.StartDeviceFlow | shared/auth.js:22-87 | succeeds exactly when the client id is configured, the reply is 2xx with no error and has all three fields, which it carries over; a non-2xx reply gives "GitHub API error (status): text" |
| Auth.ShippedClientIdConfigured | shared/auth.js:11-26 | the shipped client id passes the placeholder check |
| Auth.ClassifyPoll | shared/auth.js:90-121 | a token is granted exactly on a truthy `access_token`; pending waits `interval` s; slow_down waits `interval + 5` s; anything else fails, an exception with its message |
| Auth.PollForToken | shared/auth.js:90-121 | every wait comes from a pending or slow_down answer with its delay; the promise is unsettled exactly when every answer asked to wait; it settles on the first other answer |
| Auth.SlowDownIsForgotten | shared/auth.js:107-110 | after slow_down the next pending answer waits the original interval again, unlike section 3.5 of RFC 8628 |
| Auth.GetUserInfo | shared/auth.js:124-141 | succeeds exactly on a 2xx reply whose body is JSON, with that body; any other status gives "HTTP error! status: N"; a 2xx body that does not parse rethrows its parse error |
| Auth.ValidateToken | shared/auth.js:209-221 | a token is valid only on an answer that arrived, and whenever `getUserInfo` succeeds with it |
| Auth.ValidWhenUserFetched | shared/auth.js:209-221 | a token is valid exactly when the `/user` answer arrived with a 2xx status, whatever its body; a successful `getUserInfo` means a valid token, and on a JSON answer a valid token means `getUserInfo` succeeds |
| Auth.ValidWithoutUser | shared/auth.js:209-221 | an answer that is not JSON validates the token exactly when its status is 2xx (a 502 proxy page does not), while `getUserInfo` fails either way: with the parse error on 2xx, with the status otherwise |
| Auth.ReadBackFromSync | shared/auth.js:144-186 | credentials saved while `storage.sync` works are read back while it works |
| Auth.ReadBackFromLocal | shared/auth.js:144-186 | a fallback save to `storage.local` is read back only while `storage.sync` keeps failing |
| Auth.FallbackSaveLost | shared/auth.js:144-186 | once `storage.sync` works again, a fallback save reads as signed out |
| Auth.ClearedReadsEmpty | shared/auth.js:189-206 | after a logout that reached both areas nothing reads back |
| Auth.FailedSyncRemovalKeepsCredentials | shared/auth.js:189-206 | if the `storage.sync` removal fails, the old credentials still read back from it |
| Auth.FailedSaveChangesNothing | shared/auth.js:144-165 | a save that fails in both areas changes nothing |
| Auth.BrowserStorage.constructor | shared/auth.js:144-206 | the storage areas start with the given contents |
| Auth.BrowserStorage.SaveAuth | shared/auth.js:144-165 | writes `storage.sync`, or on its failure `storage.local`; reports success exactly when one of them took the write |
| Auth.BrowserStorage.LoadAuth | shared/auth.js:168-186 | reads `storage.sync`, or on its failure `storage.local`, or `{}` |
| Auth.BrowserStorage.ClearAuth | shared/auth.js:189-206 | removes the credentials from each area that works |
| LegacyAuth.SyncReadBack | leetcode-sync/auth.js:136-151 | what is saved to `storage.sync` is what is loaded |
| LegacyAuth.FailedSaveUnnoticed | leetcode-sync/auth.js:136-144 | a failed save resolves as usual and leaves the previous credentials |
| LegacyAuth.SyncClearedReadsEmpty | leetcode-sync/auth.js:154-158 | after logout nothing reads back |
| LegacyAuth.AgreesWithSharedWhileSyncWorks | leetcode-sync/auth.js:136-158 | while `storage.sync` works, both variants read back the same after a save and after a logout |
| LegacyAuth.SyncStorage.constructor | leetcode-sync/auth.js:136-158 | the area starts with the given contents |
| LegacyAuth.SyncStorage.SaveAuth | leetcode-sync/auth.js:136-144 | writes the record when `storage.sync` works, otherwise changes nothing |
| LegacyAuth.SyncStorage.LoadAuth | leetcode-sync/auth.js:147-151 | yields the stored keys, or undefined when the read fails |
| LegacyAuth.SyncStorage.ClearAuth | leetcode-sync/auth.js:154-158 | removes the keys when `storage.sync` works |
| Background.PollKeepsConsistent | shared/background.js:28-110 | no run of `poll` leaves a stopped poller with a timer armed |
| Background.PollOnce | shared/background.js:28-98 | one run of `poll` keeps polling exactly when polling was on and the token endpoint answered `authorization_pending` or `slow_down`; anything else (a grant, another error, a failed request, a failed `/user` lookup) stops it; it adds at most one notice, stops with no timer when it adds one, and changes storage only on that path |
| Background.WaitRearms | shared/background.js:88-91 | a pending or slow_down answer re-arms the timer with its delay and changes nothing else |
| Background.GrantSignsIn | shared/background.js:43-87 | a granted token with a 2xx JSON `/user` answer stops polling, notifies the popup once and saves the credentials as `saveAuth` does, which read back while `storage.sync` works |
| Background.NotifiesDespiteFailedSave | shared/background.js:61-84 | the popup is notified even when neither area took the credentials |
| Background.UnreadableUserStops | shared/background.js:54-96 | a 2xx `/user` answer that is not JSON throws into the `catch`: polling stops with nothing saved and nothing sent |
| Background.StoppedStaysStill | shared/background.js:28-29 | once polling has stopped, further runs change nothing |
| Background.NotifiesAtMostOnce | shared/background.js:21-110 | over any sequence of runs the popup is notified at most once, and polling has stopped after that |
| Background.PendingKeepsPolling | shared/background.js:88-91 | a run of wait answers keeps polling with the last delay armed and nothing saved or sent |
| Background.BackgroundAuth.constructor | shared/background.js:15-18 | a new poller is idle with no timer |
| Background.BackgroundAuth.StopPolling | shared/background.js:104-110 | `stopPolling` clears the flag and the timer |
| Background.BackgroundAuth.Poll | shared/background.js:28-98 | one run of `poll` moves the poller and storage as `PollOnce` says, keeping the poller consistent |
| Background.BackgroundAuth.StartPolling | shared/background.js:21-102 | stops any previous polling, captures the interval (default 5), and runs `poll` at once |
| Background.IconFor | shared/background.js:204-224 | the icon is active exactly when the URL is present and contains "leetcode.com", with the matching icon path and title |
| Background.ContainsLonger | shared/background.js:205 | `includes` finds any prefix of a contained string |
| Background.ProblemPagesAreActive | shared/background.js:204-224 | every page with a problem slug gets the active icon |
| LegacyBackground.LegacyPollKeepsConsistent | leetcode-sync/background.js:20-93 | no run of the legacy `poll` leaves a stopped poller with a timer armed |
| LegacyBackground.LegacyPollOnce | leetcode-sync/background.js:20-80 | one run of the legacy `poll` keeps polling exactly when polling was on and the answer was `authorization_pending` or `slow_down`; any other answer stops it; it adds at most one notice, stops with no timer when it adds one, and writes `storage.sync` only on that path |
| LegacyBackground.NoticeMeansSaved | leetcode-sync/background.js:35-65 | a legacy notification always comes with the granted credentials saved in `storage.sync` |
| LegacyBackground.FailedSaveIsSilent | leetcode-sync/background.js:50-54 | a failing `storage.sync` write stops polling with no notification and the area unchanged |
| LegacyBackground.LegacyStoppedStaysStill | leetcode-sync/background.js:20-22 | once stopped, further runs change nothing |
| LegacyBackground.LegacyNotifiesAtMostOnce | leetcode-sync/background.js:11-93 | the popup is notified at most once, and polling has stopped after that |
| LegacyBackground.PollersAgreeWhileSyncWorks | leetcode-sync/background.js:20-80 | while `storage.sync` works, both pollers stop, arm timers and notify identically and store the same record |
| LegacyBackground.LegacyBackgroundAuth.constructor | leetcode-sync/background.js:5-8 | a new legacy poller is idle with no timer |
| LegacyBackground.LegacyBackgroundAuth.StopPolling | leetcode-sync/background.js:86-93 | clears the flag and the timer |
| LegacyBackground.LegacyBackgroundAuth.Poll | leetcode-sync/background.js:20-80 | one run of the legacy `poll` moves the poller and `storage.sync` as `LegacyPollOnce` says |
| LegacyBackground.LegacyBackgroundAuth.StartPolling | leetcode-sync/background.js:11-84 | stops any previous polling, captures the interval and polls at once |

## Left out

Text, characters and patterns:
- Lone surrogates: strings are sequences of Unicode scalar values, so lone UTF-16 surrogates and `TextEncoder`'s replacement of them by U+FFFD are not represented.
- Push.Lower: lower-cases ASCII letters only. JavaScript's `toLowerCase` also maps other letters (such as the Kelvin sign or U+0130), which could turn an unusual language name into a table key.
- Push.Lookup: a language name equal to an `Object.prototype` member name (such as "constructor") would find an inherited value in the JavaScript object. The model's table holds only its own entries.
- Codec.Unescape: models only two-digit `%XX` escapes. `%uXXXX` escapes cannot arise from `encodeURIComponent` output.
- `String.fromCharCode(...utf8Bytes)` throws a RangeError on very large files, beyond the engine's argument-count limit. The model has no such limit.
- The regular expressions of `detectLanguage` are modelled in the small fragment they use: literal characters (case-insensitive under `i`), `\s`, `\w`, `.`, bracketed sets and the `+` and `*` repetitions. A group with alternatives (such as `(number|string|boolean)` or `(void)?`) is split into alternative patterns. Full JavaScript regular-expression semantics are not modelled.
- Extraction.ScanFirstLongest, Extraction.DomStageComparesUntrimmed and Extraction.TrimmedStageComparesTrimmed are stated for any stage with the given comparison and storage flags, not only for the named stage constants. The page extractor's DOM stage, which measures raw text but stores it trimmed, has no first-of-longest property; DomStageComparesUntrimmed shows how it departs from one.

User interface, timers and concurrency:
- `showStatus` texts and the popup's views, buttons and copy handler are UI only. The push outcome is an `Outcome` value instead of a status message, and the truncation warning is a flag.
- Timers are not run: an armed timer is recorded with its delay. Each run of `poll` is one atomic step, so a request still in flight when `stopPolling` is called is not modelled.
- The popup's own `setInterval` loop that waits for the background poller is left out.
- The repository button's click handler only opens `currentFileUrl`, so it is left out.

Sign-in and storage:
- `notifyAuthComplete`: only the fact that the message was sent is recorded, not its delivery to a popup that may be closed.
- The optional host-permission request in `startDeviceFlow` is left out: its outcome, even a refusal, is swallowed by its own `catch`.
- The device code's `expires_in` is carried through but never enforced, as in the extension; polling has no expiry.
- Except for the `/user` answer, a reply whose body is not valid JSON is folded into "the request threw": at every other `response.json()` call (device code, token polling, the file check, the PUT) the exception reaches the same `catch` a failed `fetch` does. The `/user` answer keeps a non-JSON body apart, because `validateToken` only reads `response.ok` while `getUserInfo` and the pollers parse the body.
- The legacy `loadAuth` resolving to `undefined` (a failed read) makes the legacy `pushToGitHub` throw into its "Network error" handler. The model's `PushLegacy` receives the credentials already loaded.
- leetcode-sync/auth.js: `startDeviceFlow`, `pollForToken`, `getUserInfo` and `validateToken` are the same as in shared/auth.js apart from the product name in headers. `Auth` models them once for both.

Push:
- Push.ProblemSlug: the captured group may include a query string or fragment (`two-sum?tab=...`) when the URL has no further '/'. This is modelled as the source does it, with no extra property stated about it.

Outside the core:
- shared/api-compat.js (the browser API shim) and build/ (packaging) are not part of this model.
