/**
 * The regular-expression tests of `detectLanguage`, one named `Test` per
 * pattern, each written as a sequence of steps in the small fragment of
 * JavaScript regular expressions the classifier uses: single characters
 * (optionally case-insensitive), `\s`, `\w`, `.`, and bracketed sets, each
 * taken once, one-or-more (`+`) or zero-or-more (`*`) times. A test holds when
 * its pattern occurs anywhere in the text (`RegExp.prototype.test`).
 */
module Patterns {
  import opened Common

  datatype CharClass =
    | Exactly(c: char)      // a literal character
    | EitherCase(c: char)   // a literal letter under the `i` flag
    | Space                 // \s
    | WordChar              // \w
    | NotNewline            // .
    | OneOf(chars: seq<char>) // [...]

  datatype Repeat = Once | OneOrMore | ZeroOrMore

  datatype Step = Step(cls: CharClass, rep: Repeat)

  type Regex = seq<Step>

  function AsciiLower(c: char): char {
    if 'A' <= c <= 'Z' then (c as int + 32) as char else c
  }

  predicate IsWordChar(c: char) {
    'a' <= c <= 'z' || 'A' <= c <= 'Z' || '0' <= c <= '9' || c == '_'
  }

  predicate Admits(cls: CharClass, c: char) {
    match cls
    case Exactly(d) => c == d
    case EitherCase(d) => AsciiLower(c) == AsciiLower(d)
    case Space => IsJsSpace(c)
    case WordChar => IsWordChar(c)
    case NotNewline => c != '\n' && c != '\r' && c != '\U{2028}' && c != '\U{2029}'
    case OneOf(cs) => c in cs
  }

  /** The pattern matches some prefix of `s` (backtracking over every repetition count). */
  predicate MatchesPrefix(r: Regex, s: string)
    decreases |r|, |s|
  {
    if r == [] then true
    else
      var step := r[0];
      match step.rep
      case Once => s != [] && Admits(step.cls, s[0]) && MatchesPrefix(r[1..], s[1..])
      case OneOrMore =>
        s != [] && Admits(step.cls, s[0]) && MatchesPrefix([Step(step.cls, ZeroOrMore)] + r[1..], s[1..])
      case ZeroOrMore =>
        MatchesPrefix(r[1..], s) || (s != [] && Admits(step.cls, s[0]) && MatchesPrefix(r, s[1..]))
  }

  /** `regex.test(s)`: the pattern matches starting at some position of `s`. */
  predicate Occurs(r: Regex, s: string)
    decreases |s|
  {
    MatchesPrefix(r, s) || (s != [] && Occurs(r, s[1..]))
  }

  /** The pattern cannot match the empty string once its first step needs a character. */
  predicate NeedsInput(r: Regex) {
    r != [] && r[0].rep != ZeroOrMore
  }

  lemma NoMatchOnEmpty(r: Regex)
    requires NeedsInput(r)
    ensures !Occurs(r, "")
  {
  }

  // ---------------------------------------------------------------------------
  // Building blocks
  // ---------------------------------------------------------------------------

  function Lit(w: string): (r: Regex)
    ensures |r| == |w|
    ensures |w| > 0 ==> r[0] == Step(Exactly(w[0]), Once)
  {
    seq(|w|, i requires 0 <= i < |w| => Step(Exactly(w[i]), Once))
  }

  function LitCaseless(w: string): (r: Regex)
    ensures |r| == |w|
    ensures |w| > 0 ==> r[0] == Step(EitherCase(w[0]), Once)
  {
    seq(|w|, i requires 0 <= i < |w| => Step(EitherCase(w[i]), Once))
  }

  const Spaces1: Regex := [Step(Space, OneOrMore)]       // \s+
  const Spaces0: Regex := [Step(Space, ZeroOrMore)]      // \s*
  const Word1: Regex := [Step(WordChar, OneOrMore)]      // \w+
  const AnyRun: Regex := [Step(NotNewline, ZeroOrMore)]  // .*

  // ---------------------------------------------------------------------------
  // The named tests of detectLanguage (shared/extract-code.js:10-93, the inline
  // copy in shared/popup.js:321-405 and leetcode-sync/popup.js:213-220)
  // ---------------------------------------------------------------------------

  datatype Test =
    | IncludeAngle        // #include\s*<.*>
    | StdScope            // std::
    | Cout                // cout
    | Cin                 // cin
    | ClassSolutionBrace  // class\s+Solution\s*{
    | Include             // #include
    | PublicClassName     // public\s+class\s+\w+
    | PublicCall          // public\s+\w+.*\(
    | PublicSpace         // public\s+
    | UsingSystem         // using\s+System
    | NamespaceName       // namespace\s+\w+
    | ConsoleDot          // Console\.
    | VarFunction         // var\s+\w+\s*=\s*function
    | FunctionCall        // function\s+\w+\s*\(
    | ConstParen          // const\s+\w+\s*=\s*\(
    | ArrowBrace          // =>\s*{
    | LetName             // let\s+\w+
    | Arrow               // =>\s*
    | TypeAnnotation      // :\s*(number|string|boolean)\s*[,\)]
    | InterfaceName       // interface\s+\w+
    | TypeAlias           // type\s+\w+\s*=
    | PhpOpen             // <\?php
    | PhpVariable         // \$\w+
    | FuncCall            // func\s+\w+\s*\(
    | ClassSolution       // class\s+Solution
    | VarTyped            // var\s+\w+:\s*
    | ImportFoundation    // import\s+Foundation
    | BracketWord         // \[\w+\]
    | FunCall             // fun\s+\w+\s*\(
    | FunSpace            // fun\s+
    | VoidMain            // void\s+main\s*\(\s*\)
    | ClassBrace          // class\s+\w+\s*{
    | DartWord            // dart
    | ImportDart          // import\s+'dart:
    | PointerName         // \*\w+
    | PackageMain         // package\s+main
    | FuncMain            // func\s+main\s*\(\s*\)
    | ImportGroup         // import\s+\(
    | FmtDot              // fmt\.
    | DefName             // def\s+\w+
    | EndWord             // end
    | ClassName           // class\s+\w+
    | DefSpace            // def\s+
    | ObjectName          // object\s+\w+
    | DefCall             // def\s+\w+\s*\(
    | ScalaWord           // scala
    | ImportScala         // import\s+scala\.
    | FnCall              // fn\s+\w+\s*\(
    | ImplSpace           // impl\s+
    | StructSpace         // struct\s+
    | UseStd              // use\s+std::
    | LetMut              // let\s+mut\s+
    | DefineForm          // \(define\s+
    | LambdaForm          // \(lambda\s+
    | LangRacket          // #lang\s+racket
    | ModuleAttribute     // -module\s*\(
    | ExportAttribute     // -export\s*\(
    | ErlangClause        // \w+\s*\(\s*\)\s*->
    | Dot                 // \.
    | DefModule           // defmodule\s+\w+
    | DefDo               // def\s+\w+\s*do
    | IoPuts              // IO\.puts
    | EnumDot             // Enum\.
    | ClassSolutionColon  // class\s+Solution\s*:
    | ImportName          // import\s+\w+
    | FromImport          // from\s+\w+\s+import
    | IncludeHeader       // #include\s*<.*\.h>
    | IntMain             // int\s+main\s*\(\s*(void)?\s*\)
    | FuncSpace           // func\s+
    | PublicClass         // public\s+class
    | FunctionSpace       // function\s+
    | ClassSolutionColonCaseless // /class\s+solution\s*:/i  (leetcode-sync only)
    | IncludeOpen         // #include\s*<              (leetcode-sync only)

  /**
   * The alternatives of a test's pattern; a top-level alternation such as
   * `(number|string|boolean)` or an optional group `(void)?` is spelled out as
   * one regex per alternative. The table is kept in four parts, one per group
   * of rules; each part is empty for the tests of the other parts.
   */
  function Alternatives(t: Test): (rs: seq<Regex>)
    ensures forall k | 0 <= k < |rs| :: NeedsInput(rs[k])
  {
    CFamilyAlternatives(t) + ScriptAlternatives(t) + SystemsAlternatives(t) + FallbackAlternatives(t)
  }

  /** Patterns of the C++, Java and C# rules. */
  function CFamilyAlternatives(t: Test): (rs: seq<Regex>)
    ensures forall k | 0 <= k < |rs| :: NeedsInput(rs[k])
  {
    match t
    case IncludeAngle => [Lit("#include") + Spaces0 + Lit("<") + AnyRun + Lit(">")]
    case StdScope => [Lit("std::")]
    case Cout => [Lit("cout")]
    case Cin => [Lit("cin")]
    case ClassSolutionBrace => [Lit("class") + Spaces1 + Lit("Solution") + Spaces0 + Lit("{")]
    case Include => [Lit("#include")]
    case PublicClassName => [Lit("public") + Spaces1 + Lit("class") + Spaces1 + Word1]
    case PublicCall => [Lit("public") + Spaces1 + Word1 + AnyRun + Lit("(")]
    case PublicSpace => [Lit("public") + Spaces1]
    case UsingSystem => [Lit("using") + Spaces1 + Lit("System")]
    case NamespaceName => [Lit("namespace") + Spaces1 + Word1]
    case ConsoleDot => [Lit("Console.")]
    case _ => []
  }

  /** Patterns of the JavaScript, TypeScript, PHP, Swift, Kotlin and Dart rules. */
  function ScriptAlternatives(t: Test): (rs: seq<Regex>)
    ensures forall k | 0 <= k < |rs| :: NeedsInput(rs[k])
  {
    match t
    case VarFunction => [Lit("var") + Spaces1 + Word1 + Spaces0 + Lit("=") + Spaces0 + Lit("function")]
    case FunctionCall => [Lit("function") + Spaces1 + Word1 + Spaces0 + Lit("(")]
    case ConstParen => [Lit("const") + Spaces1 + Word1 + Spaces0 + Lit("=") + Spaces0 + Lit("(")]
    case ArrowBrace => [Lit("=>") + Spaces0 + Lit("{")]
    case LetName => [Lit("let") + Spaces1 + Word1]
    case Arrow => [Lit("=>") + Spaces0]
    case TypeAnnotation =>
      var close := [Step(OneOf([',', ')']), Once)];
      [ Lit(":") + Spaces0 + Lit("number") + Spaces0 + close,
        Lit(":") + Spaces0 + Lit("string") + Spaces0 + close,
        Lit(":") + Spaces0 + Lit("boolean") + Spaces0 + close ]
    case InterfaceName => [Lit("interface") + Spaces1 + Word1]
    case TypeAlias => [Lit("type") + Spaces1 + Word1 + Spaces0 + Lit("=")]
    case PhpOpen => [Lit("<?php")]
    case PhpVariable => [Lit("$") + Word1]
    case FuncCall => [Lit("func") + Spaces1 + Word1 + Spaces0 + Lit("(")]
    case ClassSolution => [Lit("class") + Spaces1 + Lit("Solution")]
    case VarTyped => [Lit("var") + Spaces1 + Word1 + Lit(":") + Spaces0]
    case ImportFoundation => [Lit("import") + Spaces1 + Lit("Foundation")]
    case BracketWord => [Lit("[") + Word1 + Lit("]")]
    case FunCall => [Lit("fun") + Spaces1 + Word1 + Spaces0 + Lit("(")]
    case FunSpace => [Lit("fun") + Spaces1]
    case VoidMain => [Lit("void") + Spaces1 + Lit("main") + Spaces0 + Lit("(") + Spaces0 + Lit(")")]
    case ClassBrace => [Lit("class") + Spaces1 + Word1 + Spaces0 + Lit("{")]
    case DartWord => [Lit("dart")]
    case ImportDart => [Lit("import") + Spaces1 + Lit("'dart:")]
    case _ => []
  }

  /** Patterns of the Go, Ruby, Scala, Rust, Racket, Erlang and Elixir rules. */
  function SystemsAlternatives(t: Test): (rs: seq<Regex>)
    ensures forall k | 0 <= k < |rs| :: NeedsInput(rs[k])
  {
    match t
    case PointerName => [Lit("*") + Word1]
    case PackageMain => [Lit("package") + Spaces1 + Lit("main")]
    case FuncMain => [Lit("func") + Spaces1 + Lit("main") + Spaces0 + Lit("(") + Spaces0 + Lit(")")]
    case ImportGroup => [Lit("import") + Spaces1 + Lit("(")]
    case FmtDot => [Lit("fmt.")]
    case DefName => [Lit("def") + Spaces1 + Word1]
    case EndWord => [Lit("end")]
    case ClassName => [Lit("class") + Spaces1 + Word1]
    case DefSpace => [Lit("def") + Spaces1]
    case ObjectName => [Lit("object") + Spaces1 + Word1]
    case DefCall => [Lit("def") + Spaces1 + Word1 + Spaces0 + Lit("(")]
    case ScalaWord => [Lit("scala")]
    case ImportScala => [Lit("import") + Spaces1 + Lit("scala.")]
    case FnCall => [Lit("fn") + Spaces1 + Word1 + Spaces0 + Lit("(")]
    case ImplSpace => [Lit("impl") + Spaces1]
    case StructSpace => [Lit("struct") + Spaces1]
    case UseStd => [Lit("use") + Spaces1 + Lit("std::")]
    case LetMut => [Lit("let") + Spaces1 + Lit("mut") + Spaces1]
    case DefineForm => [Lit("(define") + Spaces1]
    case LambdaForm => [Lit("(lambda") + Spaces1]
    case LangRacket => [Lit("#lang") + Spaces1 + Lit("racket")]
    case ModuleAttribute => [Lit("-module") + Spaces0 + Lit("(")]
    case ExportAttribute => [Lit("-export") + Spaces0 + Lit("(")]
    case ErlangClause => [Word1 + Spaces0 + Lit("(") + Spaces0 + Lit(")") + Spaces0 + Lit("->")]
    case Dot => [Lit(".")]
    case DefModule => [Lit("defmodule") + Spaces1 + Word1]
    case DefDo => [Lit("def") + Spaces1 + Word1 + Spaces0 + Lit("do")]
    case IoPuts => [Lit("IO.puts")]
    case EnumDot => [Lit("Enum.")]
    case _ => []
  }

  /** Patterns of the fallback rules and the short classifier. */
  function FallbackAlternatives(t: Test): (rs: seq<Regex>)
    ensures forall k | 0 <= k < |rs| :: NeedsInput(rs[k])
  {
    match t
    case ClassSolutionColon => [Lit("class") + Spaces1 + Lit("Solution") + Spaces0 + Lit(":")]
    case ImportName => [Lit("import") + Spaces1 + Word1]
    case FromImport => [Lit("from") + Spaces1 + Word1 + Spaces1 + Lit("import")]
    case IncludeHeader => [Lit("#include") + Spaces0 + Lit("<") + AnyRun + Lit(".h>")]
    case IntMain =>
      var head := Lit("int") + Spaces1 + Lit("main") + Spaces0 + Lit("(") + Spaces0;
      [ head + Spaces0 + Lit(")"),
        head + Lit("void") + Spaces0 + Lit(")") ]
    case FuncSpace => [Lit("func") + Spaces1]
    case PublicClass => [Lit("public") + Spaces1 + Lit("class")]
    case FunctionSpace => [Lit("function") + Spaces1]
    case ClassSolutionColonCaseless =>
      [LitCaseless("class") + Spaces1 + LitCaseless("solution") + Spaces0 + Lit(":")]
    case IncludeOpen => [Lit("#include") + Spaces0 + Lit("<")]
    case _ => []
  }

  predicate OccursAny(rs: seq<Regex>, s: string)
    decreases |rs|
  {
    rs != [] && (Occurs(rs[0], s) || OccursAny(rs[1..], s))
  }

  /** The outcome of `/pattern/.test(code)` for the named test. */
  predicate Holds(t: Test, code: string) {
    OccursAny(Alternatives(t), code)
  }

  /** No test holds of the empty string: every pattern needs at least one character. */
  lemma NothingHoldsOnEmpty(t: Test)
    ensures !Holds(t, "")
  {
    var rs := Alternatives(t);
    forall k | 0 <= k < |rs| ensures !Occurs(rs[k], "") {
      NoMatchOnEmpty(rs[k]);
    }
    NoAlternativeOnEmpty(rs);
  }

  lemma {:induction false} NoAlternativeOnEmpty(rs: seq<Regex>)
    requires forall k | 0 <= k < |rs| :: !Occurs(rs[k], "")
    ensures !OccursAny(rs, "")
  {
    if rs != [] {
      NoAlternativeOnEmpty(rs[1..]);
    }
  }
}
