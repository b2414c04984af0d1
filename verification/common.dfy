/**
 * Shared vocabulary of the extension model: optional values, JavaScript string
 * measures (UTF-16 length, `trim`, `includes`) and the shape of an HTTP reply
 * as `fetch` delivers it.
 */
module Common {

  datatype Option<+T> = None | Some(value: T) {
    function GetOr(default: T): T {
      match this
      case Some(v) => v
      case None => default
    }
  }

  /** The value an awaited operation resolves to, or the message of the `Error` it throws. */
  datatype Result<+T> = Success(value: T) | Failure(error: string)

  /** JavaScript truthiness of a string-valued JSON field: present and non-empty. */
  predicate Truthy(field: Option<string>) {
    field.Some? && field.value != ""
  }

  // ---------------------------------------------------------------------------
  // JavaScript string measures
  // ---------------------------------------------------------------------------

  /** The WhiteSpace and LineTerminator characters of ECMAScript: what `\s` matches and `trim` removes. */
  predicate IsJsSpace(c: char) {
    c == '\t' || c == '\n' || c == '\U{000B}' || c == '\U{000C}' || c == '\r' || c == ' '
    || c == '\U{00A0}' || c == '\U{1680}' || ('\U{2000}' <= c <= '\U{200A}')
    || c == '\U{2028}' || c == '\U{2029}' || c == '\U{202F}' || c == '\U{205F}'
    || c == '\U{3000}' || c == '\U{FEFF}'
  }

  /** Number of UTF-16 code units a character occupies in a JavaScript string. */
  function Units(c: char): (n: nat)
    ensures n == 1 || n == 2
  {
    if c as int >= 0x10000 then 2 else 1
  }

  /** JavaScript's `s.length`: the number of UTF-16 code units. */
  function Length(s: string): (n: nat)
    ensures |s| <= n <= 2 * |s|
    ensures n == 0 <==> s == []
  {
    if s == [] then 0 else Units(s[0]) + Length(s[1..])
  }

  lemma {:induction false} LengthConcat(a: string, b: string)
    ensures Length(a + b) == Length(a) + Length(b)
  {
    if a != [] {
      assert (a + b)[0] == a[0];
      assert (a + b)[1..] == a[1..] + b;
      LengthConcat(a[1..], b);
    } else {
      assert a + b == b;
    }
  }

  /** `s` without its leading JavaScript white space. */
  function TrimStart(s: string): (r: string)
    ensures |r| <= |s| && r == s[|s| - |r|..]
    ensures r == [] || !IsJsSpace(r[0])
    ensures forall i | 0 <= i < |s| - |r| :: IsJsSpace(s[i])
  {
    if s != [] && IsJsSpace(s[0]) then TrimStart(s[1..]) else s
  }

  /** `s` without its trailing JavaScript white space. */
  function TrimEnd(s: string): (r: string)
    ensures |r| <= |s| && r == s[..|r|]
    ensures r == [] || !IsJsSpace(r[|r| - 1])
    ensures forall i | |r| <= i < |s| :: IsJsSpace(s[i])
  {
    if s != [] && IsJsSpace(s[|s| - 1]) then TrimEnd(s[..|s| - 1]) else s
  }

  /** JavaScript's `s.trim()`. */
  function Trim(s: string): (r: string)
    ensures |r| <= |s|
    ensures r == [] || (!IsJsSpace(r[0]) && !IsJsSpace(r[|r| - 1]))
  {
    TrimEnd(TrimStart(s))
  }

  /** Trimming a trimmed string changes nothing. */
  lemma TrimTwice(s: string)
    ensures Trim(Trim(s)) == Trim(s)
  {
    var t := Trim(s);
    if t != [] {
      assert TrimStart(t) == t;
      assert TrimEnd(t) == t;
    }
  }

  lemma {:induction false} DropLength(s: string, k: nat)
    requires k <= |s|
    ensures Length(s[k..]) <= Length(s)
  {
    assert s == s[..k] + s[k..];
    LengthConcat(s[..k], s[k..]);
  }

  lemma {:induction false} TakeLength(s: string, k: nat)
    requires k <= |s|
    ensures Length(s[..k]) <= Length(s)
  {
    assert s == s[..k] + s[k..];
    LengthConcat(s[..k], s[k..]);
  }

  /** Trimming never makes a string longer in UTF-16 units either. */
  lemma {:induction false} TrimLength(s: string)
    ensures Length(Trim(s)) <= Length(s)
  {
    var t := TrimStart(s);
    DropLength(s, |s| - |t|);
    TakeLength(t, |TrimEnd(t)|);
  }

  /** The decimal digits of `n`, as JavaScript's string concatenation `'...' + n` renders a count or an index. */
  function Decimal(n: nat): (r: string)
    ensures r != [] && IsDigits(r)
    ensures r[0] != '0' || n == 0
  {
    if n < 10 then [(48 + n) as char] else Decimal(n / 10) + [(48 + n % 10) as char]
  }

  predicate IsDigits(r: string) {
    forall i | 0 <= i < |r| :: '0' <= r[i] <= '9'
  }

  /** The number a string of decimal digits denotes, read from the left. */
  function DigitsValue(r: string): nat
    requires IsDigits(r)
    decreases |r|
  {
    if r == [] then 0 else DigitsValue(r[..|r| - 1]) * 10 + (r[|r| - 1] as int - '0' as int)
  }

  /** Reading back the digits gives the number. */
  lemma {:induction false} DecimalValue(n: nat)
    ensures DigitsValue(Decimal(n)) == n
    decreases n
  {
    if n >= 10 {
      var r := Decimal(n);
      assert r[..|r| - 1] == Decimal(n / 10);
      DecimalValue(n / 10);
    }
  }

  /** Distinct numbers are rendered differently. */
  lemma {:induction false} DecimalInjective(a: nat, b: nat)
    ensures Decimal(a) == Decimal(b) ==> a == b
  {
    DecimalValue(a);
    DecimalValue(b);
  }

  /** JavaScript's `s.includes(part)`. */
  predicate Contains(s: string, part: string)
    decreases |s|
  {
    part <= s || (s != [] && Contains(s[1..], part))
  }

  // ---------------------------------------------------------------------------
  // HTTP replies
  // ---------------------------------------------------------------------------

  /** What an awaited `fetch` produced: an exception, or a reply with its status code. */
  datatype Fetch = Threw(message: string) | Replied(status: int)

  /** `response.ok`: a status in the range 200-299. */
  predicate IsOk(f: Fetch) {
    f.Replied? && 200 <= f.status <= 299
  }

  predicate IsNotFound(f: Fetch) {
    f.Replied? && f.status == 404
  }

  /**
   * The repository check shared by `ensureRepositoryExists` in both popups and
   * `createLeetCodeRepository` in both background scripts: GET the repository,
   * POST a creation request when (and only when) the GET said 404, and report
   * whether the repository is now usable. Any exception yields false.
   */
  datatype RepositoryCheck = RepositoryCheck(ready: bool, createRequested: Option<NewRepository>)

  /** The JSON body POSTed to create a repository. */
  datatype NewRepository = NewRepository(name: string, description: string, isPrivate: bool, autoInit: bool)

  function EnsureRepository(name: string, description: string, lookup: Fetch, create: Fetch): (r: RepositoryCheck)
    ensures r.ready <==> IsOk(lookup) || (IsNotFound(lookup) && IsOk(create))
    ensures r.createRequested.Some? <==> IsNotFound(lookup)
    ensures r.createRequested.Some? ==> r.createRequested.value == NewRepository(name, description, false, true)
    ensures lookup.Threw? ==> !r.ready
  {
    if IsOk(lookup) then RepositoryCheck(true, None)
    else if IsNotFound(lookup) then RepositoryCheck(IsOk(create), Some(NewRepository(name, description, false, true)))
    else RepositoryCheck(false, None)
  }
}
