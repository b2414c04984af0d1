/**
 * The code extractors that run inside the LeetCode page: they look for the
 * user's solution in the Monaco editor, in CodeMirror instances, in
 * textareas and (in two of the three variants) in code-like DOM elements,
 * stage after stage, each later stage running only while nothing has been
 * found. Within a stage the candidates are visited in document order and a
 * candidate replaces the current pick when it passes the stage's guard and
 * is longer than the pick.
 *
 * The page is given as data: what each editor API and each DOM query
 * returns, and which calls throw.
 */
module Extraction {
  import opened Common
  import opened Language

  /** One candidate of a stage: its text, an exception from reading it, or (CodeMirror only) no attached editor. */
  datatype Probe =
    | Detached
    | Text(value: string)
    | Fault(message: string)

  /** `window.monaco.editor`: missing, `getModels()` throwing, or the list of models (each read with `getValue()`). */
  datatype Monaco =
    | Missing
    | ListFailed(message: string)
    | Listed(models: seq<Probe>)

  /** An element returned by a `querySelectorAll` of code-like selectors: its tag name and text content. */
  datatype Container = Container(tag: string, text: string)

  datatype Page = Page(
    monaco: Monaco,
    codeMirrorLoaded: bool,        // window.CodeMirror
    mirrors: seq<Probe>,           // the .CodeMirror elements
    textareas: seq<string>,        // the textarea values
    codeLike: seq<Container>,      // the nine code-like selectors of the page extractor
    editorLike: seq<Container>)    // the three editor-like selectors of the leetcode-sync extractor

  /** What the extractor returns to the popup; `source` is the object's `method` field. */
  datatype Extraction = Extraction(ok: bool, code: string, language: string, source: string, debug: seq<string>)

  // ---------------------------------------------------------------------------
  // One stage
  // ---------------------------------------------------------------------------

  /** More than 10 UTF-16 units once trimmed (`val && val.trim().length > 10`). */
  predicate Substantial(v: string) {
    Length(Trim(v)) > 10
  }

  /** Contains one of the markers the textarea stage looks for. */
  predicate CodeMarked(v: string) {
    Contains(v, "{") || Contains(v, "def ") || Contains(v, "func ") || Contains(v, "class ")
  }

  /** The textarea guard of the page extractor. */
  predicate CodeShaped(v: string) {
    Substantial(v) && CodeMarked(v)
  }

  /** The DOM guard of the page extractor: also `function ` and `import ` count as markers. */
  predicate CodeOrImportShaped(v: string) {
    Substantial(v) && (CodeMarked(v) || Contains(v, "function ") || Contains(v, "import "))
  }

  /** The leetcode-sync extractor has no guard beyond being longer than the current pick. */
  predicate AnyText(v: string) {
    true
  }

  /**
   * A stage: its guard, whether the length compared with the current pick is
   * taken after trimming, and whether the trimmed text is what gets stored.
   */
  datatype Stage = Stage(guard: string -> bool, measureTrimmed: bool, storeTrimmed: bool)

  function Measure(s: Stage, v: string): nat {
    if s.measureTrimmed then Length(Trim(v)) else Length(v)
  }

  function Stored(s: Stage, v: string): string {
    if s.storeTrimmed then Trim(v) else v
  }

  /** The candidate replaces the current pick. */
  predicate Accepts(s: Stage, v: string, current: string) {
    s.guard(v) && Measure(s, v) > Length(current)
  }

  /** The state of a stage: the current pick, the index it came from, and the exception that ended the stage early. */
  datatype Sweep = Sweep(text: string, at: Option<nat>, fault: Option<string>)

  /** The stage over a prefix of the candidates: a fold from the left, stopped by the first exception. */
  function Scan(items: seq<Probe>, s: Stage): (r: Sweep)
    ensures r.at.Some? ==> r.at.value < |items|
    decreases |items|
  {
    if items == [] then Sweep("", None, None)
    else
      var prev := Scan(items[..|items| - 1], s);
      if prev.fault.Some? then prev
      else
        match items[|items| - 1]
        case Detached => prev
        case Fault(m) => Sweep(prev.text, prev.at, Some(m))
        case Text(v) =>
          if Accepts(s, v, prev.text) then Sweep(Stored(s, v), Some(|items| - 1), None) else prev
  }

  /** The loop of one stage: `for (const m of models)` or `forEach((el, idx) => ...)` inside a `try`. */
  method RunStage(items: seq<Probe>, s: Stage) returns (sw: Sweep)
    ensures sw == Scan(items, s)
  {
    sw := Sweep("", None, None);
    var i := 0;
    while i < |items|
      invariant 0 <= i <= |items|
      invariant sw == Scan(items[..i], s)
      invariant sw.fault.None?
    {
      assert items[..i + 1][..i] == items[..i];
      match items[i] {
        case Detached =>
        case Fault(m) =>
          sw := Sweep(sw.text, sw.at, Some(m));
          FaultStops(items, s, i + 1);
          return;
        case Text(v) =>
          if Accepts(s, v, sw.text) {
            sw := Sweep(Stored(s, v), Some(i), None);
          }
      }
      i := i + 1;
    }
    assert items[..i] == items;
  }

  /** Once a candidate has thrown, the rest of the candidates change nothing. */
  lemma {:induction false} FaultStops(items: seq<Probe>, s: Stage, i: nat)
    requires i <= |items|
    requires Scan(items[..i], s).fault.Some?
    ensures Scan(items, s) == Scan(items[..i], s)
    decreases |items| - i
  {
    if i < |items| {
      assert items[..i + 1][..i] == items[..i];
      FaultStops(items, s, i + 1);
    } else {
      assert items[..i] == items;
    }
  }

  /** How many candidates the stage reads: up to the first one that throws. */
  ghost function Reach(items: seq<Probe>): (n: nat)
    ensures n <= |items|
    ensures forall j | 0 <= j < n :: !items[j].Fault?
    ensures n < |items| ==> items[n].Fault?
    decreases |items|
  {
    if items == [] then 0
    else
      var n := Reach(items[..|items| - 1]);
      if n < |items| - 1 then n
      else if items[|items| - 1].Fault? then |items| - 1
      else |items|
  }

  /** A candidate that passes the stage's guard (whether or not it is long enough to be picked). */
  predicate Eligible(s: Stage, p: Probe) {
    p.Text? && s.guard(p.value)
  }

  /** A stage stops at the first candidate that throws and reports its exception. */
  lemma {:induction false} ScanFault(items: seq<Probe>, s: Stage)
    ensures var r := Scan(items, s); var n := Reach(items);
      && (r.fault.Some? <==> n < |items|)
      && (n < |items| ==> r.fault == Some(items[n].message))
    decreases |items|
  {
    if items != [] {
      var p := items[..|items| - 1];
      ScanFault(p, s);
      assert forall j | 0 <= j < |p| :: p[j] == items[j];
    }
  }

  /** No candidate among the first `n` both passes the guard and measures more than nothing. */
  predicate NoneEligible(items: seq<Probe>, s: Stage, n: nat)
    requires n <= |items|
  {
    forall j | 0 <= j < n :: Eligible(s, items[j]) ==> Measure(s, items[j].value) == 0
  }

  /** No eligible candidate strictly between `k` and `n` measures more than `text`. */
  predicate Unbeaten(items: seq<Probe>, s: Stage, k: nat, n: nat, text: string)
    requires n <= |items|
  {
    forall j | k < j < n :: Eligible(s, items[j]) ==> Measure(s, items[j].value) <= Length(text)
  }

  /** The pick of a stage over the candidates read, `n` of them. */
  predicate PickFacts(items: seq<Probe>, s: Stage, r: Sweep, n: nat)
    requires n <= |items|
  {
    && (r.at.None? ==> r.text == "" && NoneEligible(items, s, n))
    && (r.at.Some? ==>
          && r.at.value < n && Eligible(s, items[r.at.value])
          && r.text == Stored(s, items[r.at.value].value)
          && Unbeaten(items, s, r.at.value, n, r.text))
  }

  /** Facts about a pick over the first `n` candidates do not depend on the candidates after them. */
  lemma PickPrefix(items: seq<Probe>, s: Stage, r: Sweep, n: nat)
    requires items != [] && n < |items|
    requires PickFacts(items[..|items| - 1], s, r, n)
    ensures PickFacts(items, s, r, n)
  {
    assert forall j | 0 <= j < |items| - 1 :: items[..|items| - 1][j] == items[j];
  }

  /** A last candidate that does not beat the pick leaves it in place. */
  lemma PickSkip(items: seq<Probe>, s: Stage, r: Sweep)
    requires items != []
    requires PickFacts(items, s, r, |items| - 1)
    requires Eligible(s, items[|items| - 1]) ==> Measure(s, items[|items| - 1].value) <= Length(r.text)
    ensures PickFacts(items, s, r, |items|)
  {
  }

  /** A last candidate that passes the guard and beats the pick becomes the pick. */
  lemma PickTake(items: seq<Probe>, s: Stage, v: string)
    requires items != [] && items[|items| - 1] == Text(v) && s.guard(v)
    ensures PickFacts(items, s, Sweep(Stored(s, v), Some(|items| - 1), None), |items|)
  {
  }

  /**
   * What a stage picks. With no pick the text is empty and no candidate read
   * was both eligible and non-empty; otherwise the pick is the stored form of
   * an eligible candidate, and no eligible candidate read after it measures
   * longer than the stored text.
   */
  lemma {:induction false} ScanPick(items: seq<Probe>, s: Stage)
    ensures PickFacts(items, s, Scan(items, s), Reach(items))
    decreases |items|
  {
    if items != [] {
      var p := items[..|items| - 1];
      var last := items[|items| - 1];
      ScanPick(p, s);
      ScanFault(p, s);
      var prev := Scan(p, s);
      var r := Scan(items, s);
      var n := Reach(p);
      PickPrefix(items, s, prev, n);
      if prev.fault.Some? {
        assert r == prev && Reach(items) == n;
      } else {
        assert n == |p|;
        match last
        case Detached =>
          assert r == prev && Reach(items) == |items|;
          PickSkip(items, s, prev);
        case Fault(m) =>
          assert r.text == prev.text && r.at == prev.at && Reach(items) == n;
        case Text(v) =>
          assert Reach(items) == |items|;
          if Accepts(s, v, prev.text) {
            assert r == Sweep(Stored(s, v), Some(|p|), None);
            PickTake(items, s, v);
          } else {
            assert r == prev;
            PickSkip(items, s, prev);
          }
      }
    }
  }

  /**
   * In a stage that measures candidates the way it stores them (untrimmed in
   * the editor, textarea and plain stages, trimmed in the leetcode-sync DOM
   * stage), the pick is the first of the longest eligible candidates read:
   * every eligible candidate before it is strictly shorter, every one after
   * it at most as long.
   */
  lemma {:induction false} ScanFirstLongest(items: seq<Probe>, s: Stage)
    requires s.measureTrimmed == s.storeTrimmed
    ensures var r := Scan(items, s); var n := Reach(items);
      r.at.Some? ==>
        var k := r.at.value;
        forall j | 0 <= j < n && Eligible(s, items[j]) ::
          Measure(s, items[j].value) <= Length(r.text) && (j < k ==> Measure(s, items[j].value) < Length(r.text))
    decreases |items|
  {
    if items != [] {
      var p := items[..|items| - 1];
      ScanFirstLongest(p, s);
      ScanFault(p, s);
      assert forall j | 0 <= j < |p| :: p[j] == items[j];
      var rp := Scan(p, s);
      if rp.fault.None? && items[|items| - 1].Text? && Accepts(s, items[|items| - 1].value, rp.text) && rp.at.None? {
        // no earlier candidate counted, so each eligible one was empty
        ScanPick(p, s);
      }
    }
  }

  // ---------------------------------------------------------------------------
  // The three extractors
  // ---------------------------------------------------------------------------

  /** Monaco and CodeMirror in the page extractor and the popup's inline copy. */
  const EditorStage := Stage(Substantial, false, false)
  /** Textareas in the page extractor and the popup's inline copy. */
  const TextareaStage := Stage(CodeShaped, false, false)
  /** Code-like DOM elements in the page extractor: compared untrimmed, stored trimmed. */
  const DomStage := Stage(CodeOrImportShaped, false, true)
  /** Monaco, textareas and CodeMirror in the leetcode-sync extractor. */
  const PlainStage := Stage(AnyText, false, false)
  /** Editor-like DOM elements in the leetcode-sync extractor: compared and stored trimmed. */
  const TrimmedStage := Stage(AnyText, true, true)

  /** The extractor's variables after some stages: `extractedCode`, `method`, `debug`. */
  datatype Found = Found(code: string, source: string, debug: seq<string>)

  /**
   * A stage run after nothing was found so far: it records its header line,
   * scans its candidates, takes the pick with its label, and records the
   * exception that stopped it, if any.
   */
  function StagePass(prior: Found, header: string, items: seq<Probe>, s: Stage,
                     naming: nat -> string, errorPrefix: string): (f: Found)
    ensures f.code == Scan(items, s).text
    ensures prior.debug + [header] <= f.debug
  {
    var sw := Scan(items, s);
    Found(sw.text,
          if sw.at.Some? then naming(sw.at.value) else prior.source,
          prior.debug + [header] + (if sw.fault.Some? then [errorPrefix + sw.fault.value] else []))
  }

  /** The Monaco stage: `getModels()` may throw before any model is read. */
  function MonacoPass(m: Monaco, s: Stage, name: string): Found {
    match m
    case Missing => Found("", "", [])
    case ListFailed(msg) => Found("", "", ["monaco error:" + msg])
    case Listed(models) =>
      StagePass(Found("", "", []), "monaco models:" + Decimal(|models|), models, s, _ => name, "monaco error:")
  }

  function MirrorLabel(i: nat): string { "CodeMirror #" + Decimal(i) }
  function TextareaLabel(i: nat): string { "Textarea #" + Decimal(i) }

  function DomLabel(els: seq<Container>): nat -> string {
    (i: nat) => "DOM Element #" + Decimal(i) + " (" + (if i < |els| then els[i].tag else "") + ")"
  }

  function DomTextLabel(i: nat): string { "DOM text #" + Decimal(i) }

  function Texts(vs: seq<string>): (ps: seq<Probe>)
    ensures |ps| == |vs| && forall i | 0 <= i < |vs| :: ps[i] == Text(vs[i])
  {
    seq(|vs|, i requires 0 <= i < |vs| => Text(vs[i]))
  }

  function ContainerTexts(els: seq<Container>): (ps: seq<Probe>)
    ensures |ps| == |els| && forall i | 0 <= i < |els| :: ps[i] == Text(els[i].text)
  {
    seq(|els|, i requires 0 <= i < |els| => Text(els[i].text))
  }

  /** A stage over the textareas' values picks nothing, or the stored value of one textarea its guard accepts. */
  lemma {:induction false} PickedTextarea(vs: seq<string>, s: Stage)
    ensures var r := Scan(Texts(vs), s);
      && (r.at.None? ==> r.text == "")
      && (r.at.Some? ==> r.at.value < |vs| && s.guard(vs[r.at.value]) && r.text == Stored(s, vs[r.at.value]))
  {
    ScanPick(Texts(vs), s);
  }

  /** A stage over elements' texts picks nothing, or the stored text of one element its guard accepts. */
  lemma {:induction false} PickedContainer(els: seq<Container>, s: Stage)
    ensures var r := Scan(ContainerTexts(els), s);
      && (r.at.None? ==> r.text == "")
      && (r.at.Some? ==> r.at.value < |els| && s.guard(els[r.at.value].text) && r.text == Stored(s, els[r.at.value].text))
  {
    ScanPick(ContainerTexts(els), s);
  }

  /** The value returned to the popup once the stages are done. */
  function Finish(f: Found, detect: string -> string): Extraction {
    Extraction(f.code != "", Trim(f.code), detect(f.code), f.source, f.debug)
  }

  function AfterMirrors(f: Found, page: Page, s: Stage): Found {
    if f.code == "" && page.codeMirrorLoaded then
      StagePass(f, "codemirror elements:" + Decimal(|page.mirrors|), page.mirrors, s, MirrorLabel, "cm error:")
    else f
  }

  function TextareaHeader(page: Page): string {
    "textareas:" + Decimal(|page.textareas|)
  }

  function AfterTextareas(f: Found, page: Page, s: Stage): Found {
    if f.code == "" then
      StagePass(f, TextareaHeader(page), Texts(page.textareas), s, TextareaLabel, "")
    else f
  }

  /** `extractCodeFromPage` of shared/extract-code.js: Monaco, CodeMirror, textareas, code-like elements. */
  function PageExtraction(page: Page): Extraction {
    var f1 := MonacoPass(page.monaco, EditorStage, "Monaco Editor");
    var f2 := AfterMirrors(f1, page, EditorStage);
    var f3 := AfterTextareas(f2, page, TextareaStage);
    var f4 :=
      if f3.code == "" then
        StagePass(f3, "code-like elements:" + Decimal(|page.codeLike|), ContainerTexts(page.codeLike),
                  DomStage, DomLabel(page.codeLike), "")
      else f3;
    Finish(f4, DetectLanguage)
  }

  /** The extractor inlined in shared/popup.js: Monaco, CodeMirror, textareas. */
  function InlineExtraction(page: Page): Extraction {
    var f1 := MonacoPass(page.monaco, EditorStage, "Monaco Editor");
    var f2 := AfterMirrors(f1, page, EditorStage);
    var f3 := AfterTextareas(f2, page, TextareaStage);
    Finish(f3, DetectLanguage)
  }

  /** The extractor of leetcode-sync/popup.js: Monaco, textareas, CodeMirror, editor-like elements, no guards. */
  function LegacyExtraction(page: Page): Extraction {
    var f1 := MonacoPass(page.monaco, PlainStage, "Monaco");
    var f2 := AfterTextareas(f1, page, PlainStage);
    var f3 := AfterMirrors(f2, page, PlainStage);
    var f4 :=
      if f3.code == "" then
        StagePass(f3, "editor-like elements:" + Decimal(|page.editorLike|), ContainerTexts(page.editorLike),
                  TrimmedStage, DomTextLabel, "")
      else f3;
    Finish(f4, DetectLanguageLegacy)
  }

  // ---------------------------------------------------------------------------
  // The extractors as the page runs them
  // ---------------------------------------------------------------------------

  /** One stage as the extractor runs it, updating `extractedCode`, `method` and `debug`. */
  method RunPass(prior: Found, header: string, items: seq<Probe>, s: Stage,
                 naming: nat -> string, errorPrefix: string) returns (f: Found)
    ensures f == StagePass(prior, header, items, s, naming, errorPrefix)
  {
    var debug := prior.debug + [header];
    var sw := RunStage(items, s);
    var source := prior.source;
    if sw.at.Some? {
      source := naming(sw.at.value);
    }
    if sw.fault.Some? {
      debug := debug + [errorPrefix + sw.fault.value];
    }
    f := Found(sw.text, source, debug);
  }

  method RunMonaco(m: Monaco, s: Stage, name: string) returns (f: Found)
    ensures f == MonacoPass(m, s, name)
  {
    f := Found("", "", []);
    match m {
      case Missing =>
      case ListFailed(msg) =>
        f := Found("", "", ["monaco error:" + msg]);
      case Listed(models) =>
        f := RunPass(f, "monaco models:" + Decimal(|models|), models, s, _ => name, "monaco error:");
    }
  }

  /** `extractCodeFromPage()` of shared/extract-code.js. */
  method ExtractCodeFromPage(page: Page) returns (r: Extraction)
    ensures r == PageExtraction(page)
  {
    var found := RunMonaco(page.monaco, EditorStage, "Monaco Editor");
    if found.code == "" && page.codeMirrorLoaded {
      found := RunPass(found, "codemirror elements:" + Decimal(|page.mirrors|), page.mirrors,
                       EditorStage, MirrorLabel, "cm error:");
    }
    if found.code == "" {
      found := RunPass(found, TextareaHeader(page), Texts(page.textareas),
                       TextareaStage, TextareaLabel, "");
    }
    if found.code == "" {
      found := RunPass(found, "code-like elements:" + Decimal(|page.codeLike|), ContainerTexts(page.codeLike),
                       DomStage, DomLabel(page.codeLike), "");
    }
    r := Extraction(found.code != "", Trim(found.code), DetectLanguage(found.code), found.source, found.debug);
  }

  /** The function the popup of shared/popup.js injects into the page. */
  method ExtractInline(page: Page) returns (r: Extraction)
    ensures r == InlineExtraction(page)
  {
    var found := RunMonaco(page.monaco, EditorStage, "Monaco Editor");
    if found.code == "" && page.codeMirrorLoaded {
      found := RunPass(found, "codemirror elements:" + Decimal(|page.mirrors|), page.mirrors,
                       EditorStage, MirrorLabel, "cm error:");
    }
    if found.code == "" {
      found := RunPass(found, TextareaHeader(page), Texts(page.textareas),
                       TextareaStage, TextareaLabel, "");
    }
    r := Extraction(found.code != "", Trim(found.code), DetectLanguage(found.code), found.source, found.debug);
  }

  /** The function the popup of leetcode-sync/popup.js injects into the page. */
  method ExtractLegacy(page: Page) returns (r: Extraction)
    ensures r == LegacyExtraction(page)
  {
    var found := RunMonaco(page.monaco, PlainStage, "Monaco");
    if found.code == "" {
      found := RunPass(found, TextareaHeader(page), Texts(page.textareas),
                       PlainStage, TextareaLabel, "");
    }
    if found.code == "" && page.codeMirrorLoaded {
      found := RunPass(found, "codemirror elements:" + Decimal(|page.mirrors|), page.mirrors,
                       PlainStage, MirrorLabel, "cm error:");
    }
    if found.code == "" {
      found := RunPass(found, "editor-like elements:" + Decimal(|page.editorLike|), ContainerTexts(page.editorLike),
                       TrimmedStage, DomTextLabel, "");
    }
    r := Extraction(found.code != "", Trim(found.code), DetectLanguageLegacy(found.code), found.source, found.debug);
  }

  // ---------------------------------------------------------------------------
  // Properties of the extractors
  // ---------------------------------------------------------------------------

  /** A stage whose guard demands substantial text ends with nothing or with substantial text. */
  lemma StageSubstantial(items: seq<Probe>, s: Stage)
    requires forall v :: s.guard(v) ==> Substantial(v)
    ensures var t := Scan(items, s).text; t == "" || Substantial(t)
  {
    ScanPick(items, s);
    var r := Scan(items, s);
    if r.at.Some? && s.storeTrimmed {
      TrimTwice(items[r.at.value].value);
    }
  }

  lemma MonacoSubstantial(m: Monaco, name: string)
    ensures var t := MonacoPass(m, EditorStage, name).code; t == "" || Substantial(t)
  {
    if m.Listed? {
      StageSubstantial(m.models, EditorStage);
    }
  }

  /**
   * The page extractor reports success exactly when it returns code, and the
   * code it returns is always more than 10 UTF-16 units long: every stage's
   * guard demands that much of the trimmed text.
   */
  lemma PageExtractionSubstantial(page: Page)
    ensures var r := PageExtraction(page); (r.ok <==> r.code != "") && (r.ok ==> Length(r.code) > 10)
  {
    MonacoSubstantial(page.monaco, "Monaco Editor");
    StageSubstantial(page.mirrors, EditorStage);
    StageSubstantial(Texts(page.textareas), TextareaStage);
    StageSubstantial(ContainerTexts(page.codeLike), DomStage);
  }

  /** The same holds of the popup's inline extractor. */
  lemma InlineExtractionSubstantial(page: Page)
    ensures var r := InlineExtraction(page); (r.ok <==> r.code != "") && (r.ok ==> Length(r.code) > 10)
  {
    MonacoSubstantial(page.monaco, "Monaco Editor");
    StageSubstantial(page.mirrors, EditorStage);
    StageSubstantial(Texts(page.textareas), TextareaStage);
  }

  /**
   * The leetcode-sync extractor has no guard: a Monaco buffer holding only
   * white space is reported as a success with empty code, which its popup
   * then pushes; the page extractor rejects the same page.
   */
  lemma LegacyAcceptsBlankBuffer()
    ensures var page := Page(Listed([Text("   ")]), false, [], [], [], []);
      && LegacyExtraction(page).ok && LegacyExtraction(page).code == ""
      && !PageExtraction(page).ok
  {
    var page := Page(Listed([Text("   ")]), false, [], [], [], []);
    BlankMonaco();
    NoCandidates(page);
  }

  lemma BlankTrims()
    ensures Trim("   ") == ""
  {
    var blank := "   ";
    assert blank[1..] == "  " && blank[1..][1..] == " " && blank[1..][1..][1..] == "";
    assert TrimStart(blank) == "";
  }

  /** The stage over a single candidate that can be read. */
  lemma ScanSingle(v: string, s: Stage)
    ensures Scan([Text(v)], s) == if Accepts(s, v, "") then Sweep(Stored(s, v), Some(0), None) else Sweep("", None, None)
  {
    assert [Text(v)][..0] == [];
  }

  /** The stage over two candidates that can be read: the second replaces the first's pick when it beats it. */
  lemma ScanTwo(v: string, w: string, s: Stage)
    ensures var one := Scan([Text(v)], s);
      Scan([Text(v), Text(w)], s) == if Accepts(s, w, one.text) then Sweep(Stored(s, w), Some(1), None) else one
  {
    assert [Text(v), Text(w)][..1] == [Text(v)];
  }

  /** The blank buffer is picked by the unguarded Monaco stage and refused by the guarded one. */
  lemma BlankMonaco()
    ensures MonacoPass(Listed([Text("   ")]), PlainStage, "Monaco").code == "   "
    ensures MonacoPass(Listed([Text("   ")]), EditorStage, "Monaco Editor").code == ""
    ensures Trim("   ") == ""
  {
    BlankTrims();
    ScanSingle("   ", PlainStage);
    ScanSingle("   ", EditorStage);
    assert !Substantial("   ");
  }

  /** A page without editors, textareas or code-like elements offers no candidates to the later stages. */
  lemma NoCandidates(page: Page)
    requires page.mirrors == [] && page.textareas == [] && page.codeLike == [] && page.editorLike == []
    ensures Scan(Texts(page.textareas), TextareaStage).text == ""
    ensures Scan(ContainerTexts(page.codeLike), DomStage).text == ""
    ensures Scan(Texts(page.textareas), PlainStage).text == ""
  {
    assert Texts([]) == [] && ContainerTexts([]) == [];
  }

  /** When the Monaco stage finds code, nothing else on the page is consulted. */
  lemma MonacoShortCircuits(page: Page, other: Page)
    requires page.monaco == other.monaco
    requires MonacoPass(page.monaco, EditorStage, "Monaco Editor").code != ""
    ensures PageExtraction(page) == PageExtraction(other)
    ensures InlineExtraction(page) == InlineExtraction(other)
    ensures PageExtraction(page).source == "Monaco Editor"
  {
    ScanPick(page.monaco.models, EditorStage);
  }

  /**
   * The popup's inline extractor agrees with the page extractor whenever it
   * succeeds; when it fails, the page extractor has only gone on to the DOM
   * stage, after the same debug lines.
   */
  lemma InlineAgreesWithPage(page: Page)
    ensures InlineExtraction(page).ok ==> PageExtraction(page) == InlineExtraction(page)
    ensures InlineExtraction(page).debug <= PageExtraction(page).debug
  {
  }

  /** A failed extraction always reports how many textareas it looked at. */
  lemma FailureLeavesTrace(page: Page)
    ensures !PageExtraction(page).ok ==> TextareaHeader(page) in PageExtraction(page).debug
    ensures !InlineExtraction(page).ok ==> TextareaHeader(page) in InlineExtraction(page).debug
    ensures !LegacyExtraction(page).ok ==> TextareaHeader(page) in LegacyExtraction(page).debug
  {
    var f1 := MonacoPass(page.monaco, EditorStage, "Monaco Editor");
    var f2 := AfterMirrors(f1, page, EditorStage);
    var f3 := AfterTextareas(f2, page, TextareaStage);
    if f3.code == "" {
      assert f2.code == "";
      assert TextareaHeader(page) in f3.debug by {
        assert f3.debug[|f2.debug|] == TextareaHeader(page);
      }
    }
    var g1 := MonacoPass(page.monaco, PlainStage, "Monaco");
    var g2 := AfterTextareas(g1, page, PlainStage);
    var g3 := AfterMirrors(g2, page, PlainStage);
    if g3.code == "" {
      assert g1.code == "";
      assert TextareaHeader(page) in g2.debug by {
        assert g2.debug[|g1.debug|] == TextareaHeader(page);
      }
    }
  }

  /**
   * The page extractor's DOM stage compares a candidate's untrimmed length
   * with the trimmed text it stored: a later element whose white space makes
   * it longer replaces the pick even when its own trimmed text is shorter.
   * The leetcode-sync stage compares trimmed lengths and keeps the longer one.
   */
  lemma DomStageComparesUntrimmed(s: Stage, first: string, second: string)
    requires !s.measureTrimmed && s.storeTrimmed  // as in DomStage
    requires s.guard(first) && s.guard(second) && Trim(first) != ""
    requires Length(second) > Length(Trim(first))
    ensures Scan([Text(first), Text(second)], s).text == Trim(second)
  {
    assert first != [];
    ScanSingle(first, s);
    ScanTwo(first, second, s);
  }

  lemma TrimmedStageComparesTrimmed(s: Stage, first: string, second: string)
    requires s.measureTrimmed && s.storeTrimmed  // as in TrimmedStage
    requires s.guard(first) && Trim(first) != ""
    requires Length(Trim(second)) <= Length(Trim(first))
    ensures Scan([Text(first), Text(second)], s).text == Trim(first)
  {
    ScanSingle(first, s);
    ScanTwo(first, second, s);
  }
}
