/**
 * Language detection of `detectLanguage`: an ordered chain of rules, each a
 * boolean combination of pattern tests, the first rule that fires naming the
 * language; when none fires the answer is "python".
 *
 * The chain is stated over an arbitrary outcome of the individual tests
 * (`Classify`), one branch per `if` of the source, so that its order can be
 * reasoned about for every combination of evidence, and is then applied to
 * actual text through the pattern matcher (`DetectLanguage`).
 */
module Language {
  import opened Patterns

  /** Which tests hold of a given text. */
  type Outcome = Test -> bool

  /** The tags `detectLanguage` of the page extractor can return. */
  const Tags: set<string> := {
    "cpp", "java", "csharp", "javascript", "typescript", "php", "swift", "kotlin", "dart",
    "go", "ruby", "scala", "rust", "racket", "erlang", "elixir", "python", "c" }

  /** The four tags of the short classifier in leetcode-sync/popup.js. */
  const LegacyTags: set<string> := {"python", "java", "javascript", "cpp"}

  /**
   * The rule chain of `detectLanguage` in shared/extract-code.js (copied
   * verbatim into shared/popup.js), for a given outcome of every test. JavaScript's
   * `&&` binds tighter than `||`, which decides the grouping of the Dart and Scala rules.
   */
  function Classify(hit: Outcome): (tag: string)
    ensures tag in Tags
  {
    if hit(IncludeAngle) && (hit(StdScope) || hit(Cout) || hit(Cin)) then "cpp"
    else if hit(ClassSolutionBrace) && hit(Include) then "cpp"
    else if hit(PublicClassName) && hit(PublicCall) then "java"
    else if hit(ClassSolutionBrace) && hit(PublicSpace) then "java"
    else if hit(UsingSystem) || hit(NamespaceName) then "csharp"
    else if hit(PublicClassName) && hit(ConsoleDot) then "csharp"
    else if hit(VarFunction) || hit(FunctionCall) then "javascript"
    else if hit(ConstParen) || hit(ArrowBrace) then "javascript"
    else if hit(LetName) && hit(Arrow) then "javascript"
    else if hit(TypeAnnotation) then "typescript"
    else if hit(InterfaceName) || hit(TypeAlias) then "typescript"
    else if hit(PhpOpen) || hit(PhpVariable) then "php"
    else if hit(FuncCall) && (hit(ClassSolution) || hit(VarTyped)) then "swift"
    else if hit(ImportFoundation) || hit(BracketWord) then "swift"
    else if hit(FunCall) && hit(ClassSolution) then "kotlin"
    else if hit(ClassSolutionBrace) && hit(FunSpace) then "kotlin"
    else if hit(VoidMain) || (hit(ClassBrace) && hit(DartWord)) then "dart"
    else if hit(ImportDart) then "dart"
    else if hit(FuncCall) && hit(PointerName) then "go"
    else if hit(PackageMain) || hit(FuncMain) then "go"
    else if hit(ImportGroup) || hit(FmtDot) then "go"
    else if hit(DefName) && hit(EndWord) then "ruby"
    else if hit(ClassName) && hit(DefSpace) && hit(EndWord) then "ruby"
    else if hit(ObjectName) || (hit(DefCall) && hit(ScalaWord)) then "scala"
    else if hit(ImportScala) then "scala"
    else if hit(FnCall) && (hit(ImplSpace) || hit(StructSpace)) then "rust"
    else if hit(UseStd) || hit(LetMut) then "rust"
    else if hit(DefineForm) || hit(LambdaForm) then "racket"
    else if hit(LangRacket) then "racket"
    else if hit(ModuleAttribute) || hit(ExportAttribute) then "erlang"
    else if hit(ErlangClause) && hit(Dot) then "erlang"
    else if hit(DefModule) || hit(DefDo) then "elixir"
    else if hit(IoPuts) || hit(EnumDot) then "elixir"
    else if hit(ClassSolutionColon) || hit(DefCall) then "python"
    else if hit(ImportName) || hit(FromImport) then "python"
    else if hit(IncludeHeader) && !hit(StdScope) && !hit(Cout) then "c"
    else if hit(IntMain) then "c"
    else if hit(DefSpace) then "python"
    else if hit(FuncSpace) && !hit(FunSpace) then "go"
    else if hit(FunSpace) then "kotlin"
    else if hit(PublicClass) then "java"
    else if hit(FunctionSpace) then "javascript"
    else "python"
  }

  /** The chain of `detectLanguage` in leetcode-sync/popup.js. */
  function ClassifyLegacy(hit: Outcome): (tag: string)
    ensures tag in LegacyTags
  {
    if hit(ClassSolutionColonCaseless) || hit(DefCall) then "python"
    else if hit(PublicClass) then "java"
    else if hit(FunctionCall) then "javascript"
    else if hit(IncludeOpen) then "cpp"
    else "python"
  }

  /** `detectLanguage(code)` of shared/extract-code.js and of the popup's inline copy. */
  function DetectLanguage(code: string): (tag: string)
    ensures tag in Tags
  {
    Classify(t => Holds(t, code))
  }

  /** `detectLanguage(code)` of leetcode-sync/popup.js. */
  function DetectLanguageLegacy(code: string): (tag: string)
    ensures tag in LegacyTags
  {
    ClassifyLegacy(t => Holds(t, code))
  }

  // ---------------------------------------------------------------------------
  // Properties of the chains
  // ---------------------------------------------------------------------------

  /** When no test holds, no rule fires and both classifiers fall back to "python". */
  lemma NoEvidenceMeansPython(hit: Outcome)
    requires forall t :: !hit(t)
    ensures Classify(hit) == "python"
    ensures ClassifyLegacy(hit) == "python"
  {
  }

  /** Empty text (nothing extracted) is labelled "python" by both classifiers. */
  lemma EmptyCodeIsPython()
    ensures DetectLanguage("") == "python"
    ensures DetectLanguageLegacy("") == "python"
  {
    var hit: Outcome := t => Holds(t, "");
    forall t ensures !hit(t) {
      NothingHoldsOnEmpty(t);
    }
    NoEvidenceMeansPython(hit);
  }

  /** An angle-bracket `#include` together with `std::`, `cout` or `cin` is C++, before any other rule. */
  lemma IncludeWithStreamsIsCpp(hit: Outcome)
    requires hit(IncludeAngle) && (hit(StdScope) || hit(Cout) || hit(Cin))
    ensures Classify(hit) == "cpp"
  {
  }

  /**
   * LeetCode's Python 3 template (`class Solution:` with a method typed
   * `List[int]`) has no marker of the C++, Java, C#, JavaScript, TypeScript or
   * PHP rules, but its bracketed word decides "swift" before the Python rules
   * are reached.
   */
  lemma BracketedWordIsSwift(hit: Outcome)
    requires hit(BracketWord) && hit(ClassSolutionColon) && hit(DefCall)
    requires !hit(IncludeAngle) && !hit(ClassSolutionBrace) && !hit(PublicClassName)
    requires !hit(UsingSystem) && !hit(NamespaceName)
    requires !hit(VarFunction) && !hit(FunctionCall) && !hit(ConstParen) && !hit(ArrowBrace) && !hit(LetName)
    requires !hit(TypeAnnotation) && !hit(InterfaceName) && !hit(TypeAlias) && !hit(PhpOpen) && !hit(PhpVariable)
    requires !hit(FuncCall)
    ensures Classify(hit) == "swift"
  {
  }

  /**
   * A `def name` together with the letters "end" anywhere (as in `append`)
   * is Ruby whenever no earlier rule fired: the Ruby rule precedes the Python rules.
   */
  lemma DefWithEndIsRuby(hit: Outcome)
    requires hit(DefName) && hit(EndWord) && hit(DefCall)
    requires !hit(IncludeAngle) && !hit(ClassSolutionBrace) && !hit(PublicClassName)
    requires !hit(UsingSystem) && !hit(NamespaceName)
    requires !hit(VarFunction) && !hit(FunctionCall) && !hit(ConstParen) && !hit(ArrowBrace) && !hit(LetName)
    requires !hit(TypeAnnotation) && !hit(InterfaceName) && !hit(TypeAlias) && !hit(PhpOpen) && !hit(PhpVariable)
    requires !hit(FuncCall) && !hit(ImportFoundation) && !hit(BracketWord) && !hit(FunCall)
    requires !hit(VoidMain) && !hit(ClassBrace) && !hit(ImportDart)
    requires !hit(PackageMain) && !hit(FuncMain) && !hit(ImportGroup) && !hit(FmtDot)
    ensures Classify(hit) == "ruby"
  {
  }

  /** None of the rules before the final fallbacks fires: each is the negation of one condition of the chain. */
  predicate NoSpecificRule(hit: Outcome) {
    && !(hit(IncludeAngle) && (hit(StdScope) || hit(Cout) || hit(Cin)))
    && !(hit(ClassSolutionBrace) && hit(Include))
    && !(hit(PublicClassName) && hit(PublicCall))
    && !(hit(ClassSolutionBrace) && hit(PublicSpace))
    && !(hit(UsingSystem) || hit(NamespaceName))
    && !(hit(PublicClassName) && hit(ConsoleDot))
    && !(hit(VarFunction) || hit(FunctionCall))
    && !(hit(ConstParen) || hit(ArrowBrace))
    && !(hit(LetName) && hit(Arrow))
    && !hit(TypeAnnotation)
    && !(hit(InterfaceName) || hit(TypeAlias))
    && !(hit(PhpOpen) || hit(PhpVariable))
    && !(hit(FuncCall) && (hit(ClassSolution) || hit(VarTyped)))
    && !(hit(ImportFoundation) || hit(BracketWord))
    && !(hit(FunCall) && hit(ClassSolution))
    && !(hit(ClassSolutionBrace) && hit(FunSpace))
    && !(hit(VoidMain) || (hit(ClassBrace) && hit(DartWord)))
    && !hit(ImportDart)
    && !(hit(FuncCall) && hit(PointerName))
    && !(hit(PackageMain) || hit(FuncMain))
    && !(hit(ImportGroup) || hit(FmtDot))
    && !(hit(DefName) && hit(EndWord))
    && !(hit(ClassName) && hit(DefSpace) && hit(EndWord))
    && !(hit(ObjectName) || (hit(DefCall) && hit(ScalaWord)))
    && !hit(ImportScala)
    && !(hit(FnCall) && (hit(ImplSpace) || hit(StructSpace)))
    && !(hit(UseStd) || hit(LetMut))
    && !(hit(DefineForm) || hit(LambdaForm))
    && !hit(LangRacket)
    && !(hit(ModuleAttribute) || hit(ExportAttribute))
    && !(hit(ErlangClause) && hit(Dot))
    && !(hit(DefModule) || hit(DefDo))
    && !(hit(IoPuts) || hit(EnumDot))
    && !(hit(ClassSolutionColon) || hit(DefCall))
    && !(hit(ImportName) || hit(FromImport))
    && !(hit(IncludeHeader) && !hit(StdScope) && !hit(Cout))
    && !hit(IntMain)
  }

  /**
   * Once none of the specific rules fired, `def ` means Python, then `func `
   * without `fun ` Go, then `fun ` Kotlin, then `public class` Java, then
   * `function ` JavaScript, and Python otherwise.
   */
  lemma Fallbacks(hit: Outcome)
    requires NoSpecificRule(hit)
    ensures hit(DefSpace) ==> Classify(hit) == "python"
    ensures !hit(DefSpace) && hit(FuncSpace) && !hit(FunSpace) ==> Classify(hit) == "go"
    ensures !hit(DefSpace) && hit(FunSpace) ==> Classify(hit) == "kotlin"
    ensures !hit(DefSpace) && !hit(FuncSpace) && !hit(FunSpace) && hit(PublicClass) ==> Classify(hit) == "java"
    ensures !hit(DefSpace) && !hit(FuncSpace) && !hit(FunSpace) && !hit(PublicClass) && hit(FunctionSpace)
      ==> Classify(hit) == "javascript"
    ensures !hit(DefSpace) && !hit(FuncSpace) && !hit(FunSpace) && !hit(PublicClass) && !hit(FunctionSpace)
      ==> Classify(hit) == "python"
  {
  }

  /** A bare Go declaration such as `func twoSum() {`, with no other evidence, is Go. */
  lemma FuncDeclarationIsGo(hit: Outcome)
    requires forall t :: hit(t) <==> t.FuncCall? || t.FuncSpace?
    ensures Classify(hit) == "go"
  {
    Fallbacks(hit);
  }

  /** A bare Kotlin declaration such as `fun twoSum() {`, with no other evidence, is Kotlin. */
  lemma FunDeclarationIsKotlin(hit: Outcome)
    requires forall t :: hit(t) <==> t.FunCall? || t.FunSpace?
    ensures Classify(hit) == "kotlin"
  {
    Fallbacks(hit);
  }

  /** In the short classifier the Python rule comes first: a `def name(` beats `public class`. */
  lemma LegacyPythonFirst(hit: Outcome)
    requires hit(DefCall) || hit(ClassSolutionColonCaseless)
    ensures ClassifyLegacy(hit) == "python"
  {
  }

  /** ... whereas the page extractor labels `public class` with `public ...(` Java before considering Python. */
  lemma JavaBeforePython(hit: Outcome)
    requires hit(PublicClassName) && hit(PublicCall) && hit(DefCall)
    requires !hit(IncludeAngle) && !hit(ClassSolutionBrace)
    ensures Classify(hit) == "java"
    ensures ClassifyLegacy(hit) == "python"
  {
  }
}
