/** Values and helpers shared by every module of the model: optional values and
    error results, JSON-decoded values, and the handful of Python string and
    sequence operations the modelled code relies on. */
module Common {

  datatype Option<+T> = None | Some(value: T)

  /** A computation that either produces a value or raises with a message. */
  datatype Result<+T> = Ok(value: T) | Err(msg: string)

  /** A value as decoded from JSON by Python. Numbers are kept integral
      (floating point is outside the model) and dictionaries are maps, so the
      insertion order of a Python dict is not represented. */
  datatype Json =
    | JNull
    | JBool(b: bool)
    | JNum(n: int)
    | JStr(s: string)
    | JArr(elems: seq<Json>)
    | JObj(fields: map<string, Json>)

  /** Python truthiness of a decoded value (`if value:`). */
  predicate Truthy(j: Json) {
    match j
    case JNull => false
    case JBool(b) => b
    case JNum(n) => n != 0
    case JStr(s) => s != ""
    case JArr(e) => e != []
    case JObj(f) => f != map[]
  }

  /** Python truthiness of an optional string argument (`None` or `""` are falsy). */
  predicate Given(o: Option<string>) {
    o.Some? && o.value != ""
  }

  function Min(a: int, b: int): int { if a <= b then a else b }
  function Max(a: int, b: int): int { if a >= b then a else b }

  // ---------------------------------------------------------------------------
  // Python slicing

  /** Python's `s[:n]`: a negative `n` counts from the end of the sequence. */
  function PyTake<T>(s: seq<T>, n: int): (r: seq<T>)
    ensures n >= 0 ==> |r| == Min(n, |s|)
    ensures n < 0 ==> |r| == Max(0, |s| + n)
    ensures r == s[..|r|]
  {
    if n >= 0 then (if n <= |s| then s[..n] else s)
    else if |s| + n >= 0 then s[..|s| + n] else []
  }

  /** Within its length, a slice agrees with the sequence it was taken from. */
  lemma PyTakeAt<T>(s: seq<T>, n: int, k: nat)
    requires k < |PyTake(s, n)|
    ensures PyTake(s, n)[k] == s[k]
  {
    assert PyTake(s, n) == s[..|PyTake(s, n)|];
  }

  // ---------------------------------------------------------------------------
  // Strings

  predicate StartsWith(s: string, prefix: string) {
    |prefix| <= |s| && s[..|prefix|] == prefix
  }

  /** Python's `sub in s` on strings. */
  predicate Contains(s: string, sub: string) {
    exists i :: 0 <= i <= |s| - |sub| && OccursAt(s, sub, i)
  }

  predicate OccursAt(s: string, sub: string, i: int)
    requires 0 <= i <= |s| - |sub|
  {
    s[i..i + |sub|] == sub
  }

  /** The characters for which Python's `str.isspace()` holds. */
  predicate IsSpace(c: char) {
    c == ' ' || ('\t' <= c <= '\r') || ('\U{1c}' <= c <= '\U{1f}') ||
    c == '\U{85}' || c == '\U{a0}' || c == '\U{1680}' || ('\U{2000}' <= c <= '\U{200a}') ||
    c == '\U{2028}' || c == '\U{2029}' || c == '\U{202f}' || c == '\U{205f}' || c == '\U{3000}'
  }

  /** `not s.strip()`: the string is empty or consists of white space only. */
  predicate Blank(s: string) {
    forall i :: 0 <= i < |s| ==> IsSpace(s[i])
  }

  function LowerChar(c: char): char {
    if 'A' <= c <= 'Z' then (c as int + 32) as char else c
  }

  /** `s.lower()` on ASCII letters. */
  function Lower(s: string): (r: string)
    ensures |r| == |s|
    ensures forall i :: 0 <= i < |s| ==> r[i] == LowerChar(s[i])
  {
    seq(|s|, i requires 0 <= i < |s| => LowerChar(s[i]))
  }

  function UpperChar(c: char): char {
    if 'a' <= c <= 'z' then (c as int - 32) as char else c
  }

  predicate IsLetter(c: char) {
    ('a' <= c <= 'z') || ('A' <= c <= 'Z')
  }

  /** `s.title()` on ASCII text: a letter that follows a non-letter (or starts
      the string) is upper-cased and every other letter lower-cased. */
  function Title(s: string): (r: string)
    ensures |r| == |s|
  {
    seq(|s|, i requires 0 <= i < |s| =>
      if i == 0 || !IsLetter(s[i - 1]) then UpperChar(s[i]) else LowerChar(s[i]))
  }

  /** `s.replace(old, new)` for single characters. */
  function ReplaceChar(s: string, from: char, to: char): (r: string)
    ensures |r| == |s|
    ensures forall i :: 0 <= i < |s| ==> r[i] == if s[i] == from then to else s[i]
  {
    seq(|s|, i requires 0 <= i < |s| => if s[i] == from then to else s[i])
  }

  /** `sep.join(parts)`. */
  function Join(sep: string, parts: seq<string>): string
    decreases |parts|
  {
    if |parts| == 0 then ""
    else if |parts| == 1 then parts[0]
    else parts[0] + sep + Join(sep, parts[1..])
  }

  /** `s.split(d)` for a one-character separator. */
  function Split(s: string, d: char): (r: seq<string>)
    ensures |r| >= 1
    decreases |s|
  {
    if |s| == 0 then [""]
    else
      var rest := Split(s[1..], d);
      if s[0] == d then [""] + rest else [[s[0]] + rest[0]] + rest[1..]
  }

  /** No piece of a split contains the separator. */
  lemma {:induction false} SplitPiecesFree(s: string, d: char)
    ensures forall i :: 0 <= i < |Split(s, d)| ==> d !in Split(s, d)[i]
    decreases |s|
  {
    if |s| > 0 {
      SplitPiecesFree(s[1..], d);
    }
  }

  /** Joining the pieces with the separator gives back the string. */
  lemma {:induction false} SplitJoin(s: string, d: char)
    ensures Join([d], Split(s, d)) == s
    decreases |s|
  {
    if |s| > 0 {
      var rest := Split(s[1..], d);
      SplitJoin(s[1..], d);
      if s[0] == d {
        assert Split(s, d) == [""] + rest;
        assert ([""] + rest)[1..] == rest;
      } else {
        var r := [[s[0]] + rest[0]] + rest[1..];
        assert Split(s, d) == r;
        if |rest| == 1 {
          assert Join([d], r) == [s[0]] + rest[0];
        } else {
          assert r[1..] == rest[1..];
          assert Join([d], rest) == rest[0] + [d] + Join([d], rest[1..]);
          assert Join([d], r) == [s[0]] + rest[0] + [d] + Join([d], rest[1..]);
        }
      }
    }
  }

  /** A string without the separator is a single piece. */
  lemma {:induction false} SplitNoSeparator(s: string, d: char)
    requires d !in s
    ensures Split(s, d) == [s]
    decreases |s|
  {
    if |s| > 0 {
      SplitNoSeparator(s[1..], d);
      assert [s[0]] + s[1..] == s;
    }
  }

  /** Text after the last separator is the last piece. */
  lemma {:induction false} SplitLastPiece(a: string, d: char, b: string)
    requires d !in b
    ensures Split(a + [d] + b, d) == Split(a, d) + [b]
    decreases |a|
  {
    if |a| == 0 {
      assert a + [d] + b == [d] + b;
      assert ([d] + b)[1..] == b;
      SplitNoSeparator(b, d);
    } else {
      assert (a + [d] + b)[1..] == a[1..] + [d] + b;
      SplitLastPiece(a[1..], d, b);
    }
  }

  /** Strict lexicographic order on strings, character by character (Python's
      `<` on `str`; for UTF-8 encoded members also the byte order Redis uses). */
  predicate LexLess(a: string, b: string)
    decreases |a|
  {
    if |a| == 0 then |b| > 0
    else |b| > 0 && (a[0] < b[0] || (a[0] == b[0] && LexLess(a[1..], b[1..])))
  }

  lemma {:induction false} LexLessIrreflexive(a: string)
    ensures !LexLess(a, a)
    decreases |a|
  {
    if |a| > 0 {
      LexLessIrreflexive(a[1..]);
    }
  }

  lemma {:induction false} LexLessTransitive(a: string, b: string, c: string)
    requires LexLess(a, b) && LexLess(b, c)
    ensures LexLess(a, c)
    decreases |a|
  {
    if |a| > 0 && a[0] == b[0] && b[0] == c[0] {
      LexLessTransitive(a[1..], b[1..], c[1..]);
    }
  }

  lemma {:induction false} LexLessTotal(a: string, b: string)
    requires a != b
    ensures LexLess(a, b) || LexLess(b, a)
    decreases |a|
  {
    if |a| > 0 && |b| > 0 && a[0] == b[0] {
      assert a == [a[0]] + a[1..] && b == [b[0]] + b[1..];
      LexLessTotal(a[1..], b[1..]);
    }
  }

  // ---------------------------------------------------------------------------
  // Integers as text

  /** The decimal digit character for `d`. */
  function DigitChar(d: nat): (c: char)
    requires d < 10
    ensures '0' <= c <= '9' && c as int - '0' as int == d
  {
    ('0' as int + d) as char
  }

  function NatToString(n: nat): (r: string)
    ensures |r| >= 1
    ensures forall i :: 0 <= i < |r| ==> '0' <= r[i] <= '9'
    decreases n
  {
    if n < 10 then [DigitChar(n)] else NatToString(n / 10) + [DigitChar(n % 10)]
  }

  /** Python's `str(n)` for an integer. */
  function IntToString(n: int): string {
    if n < 0 then "-" + NatToString(-n) else NatToString(n)
  }

  function DigitsValue(s: string): nat
    requires forall i :: 0 <= i < |s| ==> '0' <= s[i] <= '9'
    decreases |s|
  {
    if |s| == 0 then 0 else 10 * DigitsValue(s[..|s| - 1]) + (s[|s| - 1] as int - '0' as int)
  }

  predicate AllDigits(s: string) {
    |s| >= 1 && forall i :: 0 <= i < |s| ==> '0' <= s[i] <= '9'
  }

  /** Python's `int(s)` on a decimal literal with an optional sign (surrounding
      white space and digit-group underscores are not accepted by this model). */
  function ParseInt(s: string): Option<int> {
    if AllDigits(s) then Some(DigitsValue(s) as int)
    else if |s| >= 2 && (s[0] == '-' || s[0] == '+') && AllDigits(s[1..]) then
      var v: int := DigitsValue(s[1..]);
      Some(if s[0] == '-' then -v else v)
    else None
  }

  lemma {:induction false} NatToStringValue(n: nat)
    ensures DigitsValue(NatToString(n)) == n
    decreases n
  {
    if n >= 10 {
      var s := NatToString(n / 10) + [DigitChar(n % 10)];
      NatToStringValue(n / 10);
      assert s[..|s| - 1] == NatToString(n / 10);
    }
  }

  /** `int(str(n)) == n`. */
  lemma IntToStringParses(n: int)
    ensures ParseInt(IntToString(n)) == Some(n)
  {
    var m: nat := if n < 0 then -n else n;
    NatToStringValue(m);
    ParsesBack(n, NatToString(m));
  }

  /** A digit string of value |n|, with a minus sign when n is negative,
      parses to n. */
  lemma ParsesBack(n: int, digits: string)
    requires AllDigits(digits) && DigitsValue(digits) == (if n < 0 then -n else n)
    ensures ParseInt(if n < 0 then "-" + digits else digits) == Some(n)
  {
    if n < 0 {
      var s := "-" + digits;
      assert s[1..] == digits;
      assert !AllDigits(s) by { assert s[0] == '-'; }
    }
  }

  /** Python's `int(v)` on a decoded JSON value. */
  function PyInt(v: Json): Option<int> {
    match v
    case JNum(n) => Some(n)
    case JBool(b) => Some(if b then 1 else 0)
    case JStr(s) => ParseInt(s)
    case _ => None
  }

  /** The Python type name of a decoded JSON value. */
  function TypeName(v: Json): string {
    match v
    case JNull => "NoneType"
    case JBool(_) => "bool"
    case JNum(_) => "int"
    case JStr(_) => "str"
    case JArr(_) => "list"
    case JObj(_) => "dict"
  }

  /** Lists and dicts cannot be dict keys: the `TypeError` text Python gives
      when one is hashed, or `None` for a hashable value. */
  function UnhashableError(v: Json): (m: Option<string>)
    ensures m.Some? <==> v.JArr? || v.JObj?
  {
    if v.JArr? || v.JObj? then Some("unhashable type: '" + TypeName(v) + "'") else None
  }

  /** The message of the exception `int(v)` raises when `PyInt(v)` is `None`. */
  function IntError(v: Json): string {
    if v.JStr? then "invalid literal for int() with base 10: " + Repr(v)
    else "int() argument must be a string, a bytes-like object or a real number, not '" + TypeName(v) + "'"
  }

  /** Python's `v[key]` with a string key: a dict lookup, or the exception
      other kinds of value raise. */
  function Subscript(v: Json, key: string): (r: Result<Json>)
    ensures r.Ok? <==> v.JObj? && key in v.fields
    ensures r.Ok? ==> r.value == v.fields[key]
    ensures v.JObj? && key !in v.fields ==> r.msg == "'" + key + "'"
  {
    match v
    case JObj(f) => if key in f then Ok(f[key]) else Err("'" + key + "'")
    case JArr(_) => Err("list indices must be integers or slices, not str")
    case JStr(_) => Err("string indices must be integers, not 'str'")
    case _ => Err("'" + TypeName(v) + "' object is not subscriptable")
  }

  /** Python's `str(v)` on a decoded JSON value. Lists are shown with the
      elements' `repr`; a dictionary is shown as a fixed placeholder. */
  function Str(v: Json): string
    decreases v, 1
  {
    match v
    case JNull => "None"
    case JBool(b) => if b then "True" else "False"
    case JNum(n) => IntToString(n)
    case JStr(s) => s
    case JArr(e) => "[" + Join(", ", ReprAll(e)) + "]"
    case JObj(_) => "{...}"
  }

  /** Python's `repr(v)`. */
  function Repr(v: Json): string
    decreases v, 2
  {
    match v
    case JStr(s) => StrRepr(s)
    case _ => Str(v)
  }

  /** `repr` of each element of a list, in order. */
  function ReprAll(e: seq<Json>): (r: seq<string>)
    ensures |r| == |e|
    decreases e, 3
  {
    if e == [] then [] else [Repr(e[0])] + ReprAll(e[1..])
  }

  /** The quote `repr` puts around a string: a double quote when the string
      holds a single quote and no double quote, otherwise a single quote. */
  function ReprQuote(s: string): char {
    if '\'' in s && '"' !in s then '"' else '\''
  }

  /** Python's `repr` of a string: the characters between the quotes of
      `ReprQuote`. */
  function StrRepr(s: string): string {
    [ReprQuote(s)] + s + [ReprQuote(s)]
  }

  /** A string without single quotes is shown in single quotes. */
  lemma PlainRepr(s: string)
    requires '\'' !in s
    ensures Repr(JStr(s)) == "'" + s + "'"
  {
  }

  /** A string holding a single quote and no double quote is shown in double
      quotes, as `repr("d'Ivoire")` is `"d'Ivoire"`. */
  lemma QuotedRepr(s: string)
    requires '\'' in s && '"' !in s
    ensures Repr(JStr(s)) == "\"" + s + "\""
  {
  }

  // ---------------------------------------------------------------------------
  // Sequences

  /** The elements of `s` with later repeats removed, in first-seen order. */
  function Dedup<T(==)>(s: seq<T>): seq<T>
    decreases |s|
  {
    if s == [] then []
    else
      var d := Dedup(s[..|s| - 1]);
      if s[|s| - 1] in d then d else d + [s[|s| - 1]]
  }

  predicate Distinct<T(==)>(s: seq<T>) {
    forall i, j :: 0 <= i < j < |s| ==> s[i] != s[j]
  }

  lemma {:induction false} DedupSpec<T>(s: seq<T>)
    ensures Distinct(Dedup(s))
    ensures forall x :: x in Dedup(s) <==> x in s
    decreases |s|
  {
    if s != [] {
      var p := s[..|s| - 1];
      DedupSpec(p);
      assert s == p + [s[|s| - 1]];
    }
  }

  /** A sequence with distinct elements has as many elements as its set. */
  lemma {:induction false} DistinctCard<T>(s: seq<T>)
    requires Distinct(s)
    ensures |set x | x in s| == |s|
    decreases |s|
  {
    if s != [] {
      var p := s[..|s| - 1];
      DistinctCard(p);
      assert (set x | x in s) == (set x | x in p) + {s[|s| - 1]};
      assert s[|s| - 1] !in p;
    }
  }

  /** `[f(x) for x in xs]` where `f` may raise: every result in order, or
      the exception of the first element that raises. */
  function MapAll<A, B>(xs: seq<A>, f: A -> Result<B>): (r: Result<seq<B>>)
    ensures r.Err? <==> exists i :: 0 <= i < |xs| && f(xs[i]).Err?
    ensures r.Ok? ==> |r.value| == |xs|
    ensures r.Ok? ==> forall i :: 0 <= i < |xs| ==> f(xs[i]) == Ok(r.value[i])
    decreases |xs|
  {
    if xs == [] then Ok([])
    else
      assert forall i :: 1 <= i < |xs| ==> xs[1..][i - 1] == xs[i];
      match f(xs[0])
      case Err(m) => Err(m)
      case Ok(y) =>
        match MapAll(xs[1..], f)
        case Err(m) =>
          ghost var j :| 0 <= j < |xs[1..]| && f(xs[1..][j]).Err?;
          assert f(xs[j + 1]).Err?;
          Err(m)
        case Ok(rest) => Ok([y] + rest)
  }

  /** The exception is that of the first element that raises. */
  lemma {:induction false} MapAllFirstError<A, B>(xs: seq<A>, f: A -> Result<B>, k: nat)
    requires k < |xs| && f(xs[k]).Err?
    requires forall i :: 0 <= i < k ==> f(xs[i]).Ok?
    ensures MapAll(xs, f) == Err(f(xs[k]).msg)
  {
    if k > 0 {
      assert forall i :: 1 <= i < |xs| ==> xs[1..][i - 1] == xs[i];
      MapAllFirstError(xs[1..], f, k - 1);
    }
  }

  /** Python's `for x in v` on a decoded value: a list yields its elements and
      a string its characters, as one-character strings. Other values raise;
      iterating a dictionary's keys is outside the model, since dictionaries
      carry no order here. */
  function Iterate(v: Json): (r: Result<seq<Json>>)
    ensures v.JArr? ==> r == Ok(v.elems)
    ensures v.JStr? ==> r.Ok? && |r.value| == |v.s| && forall i :: 0 <= i < |v.s| ==> r.value[i] == JStr([v.s[i]])
    ensures r.Ok? <==> v.JArr? || v.JStr?
  {
    match v
    case JArr(e) => Ok(e)
    case JStr(s) => Ok(seq(|s|, i requires 0 <= i < |s| => JStr([s[i]])))
    case JObj(_) => Err("iteration over a dict is outside the model")
    case _ => Err("'" + TypeName(v) + "' object is not iterable")
  }

  /** Sum of the lengths of a sequence of sequences. */
  function TotalLength<T>(ss: seq<seq<T>>): nat
    decreases |ss|
  {
    if ss == [] then 0 else TotalLength(ss[..|ss| - 1]) + |ss[|ss| - 1]|
  }

  /** Concatenation of a sequence of sequences. */
  function Flatten<T>(ss: seq<seq<T>>): (r: seq<T>)
    ensures |r| == TotalLength(ss)
    decreases |ss|
  {
    if ss == [] then [] else Flatten(ss[..|ss| - 1]) + ss[|ss| - 1]
  }
}
