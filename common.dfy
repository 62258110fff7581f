/** Values and string operations shared by every handler: the shapes of request bodies
    and replies, JavaScript truthiness, `String.prototype.trim`, `split`, ASCII case folding,
    and the casts the document store applies to Boolean and Number schema paths. */
module Common {

  /** Document identifiers (ObjectIds), modelled as natural numbers allocated fresh by each table. */
  type Id = nat

  datatype Option<+T> = None | Some(value: T)

  /** A JSON value as it arrives in a request body, for the fields whose handlers test its type
      (`typeof x === 'boolean'`, `x === "true"`, `x ?? d`). */
  datatype Json = Undefined | Null | Bool(b: bool) | Num(n: int) | Str(s: string)

  /** A handler's reply: an HTTP status code, the `message` of the JSON envelope and, on success, the payload. */
  datatype Reply<+T> = Done(code: int, message: string, value: T) | Fail(code: int, message: string)

  /** JavaScript truthiness of a JSON value (numbers are integers here, so NaN does not arise). */
  predicate Truthy(v: Json)
  {
    match v
    case Undefined => false
    case Null => false
    case Bool(b) => b
    case Num(n) => n != 0
    case Str(s) => s != ""
  }

  /** `x ?? d` treats exactly these two as missing. */
  predicate Nullish(v: Json)
  {
    v == Undefined || v == Null
  }

  /** `x ?? d`. */
  function Coalesce(v: Json, d: Json): (r: Json)
    ensures Nullish(v) ==> r == d
    ensures !Nullish(v) ==> r == v
  {
    if Nullish(v) then d else v
  }

  /** The status filter of the service, program and child-issue lists: an absent or empty value
      sets no filter, "true" or true selects active records, any other value inactive ones. */
  function StatusFilter(v: Json): (r: Option<bool>)
    ensures r.None? <==> v == Undefined || v == Str("")
    ensures (v == Str("true") || v == Bool(true)) ==> r == Some(true)
    ensures r.Some? && v != Str("true") && v != Bool(true) ==> r == Some(false)
  {
    if v == Undefined || v == Str("") then None else Some(v == Str("true") || v == Bool(true))
  }

  /** Truthiness of an optional string field (`None` stands for undefined or null). */
  predicate Present(o: Option<string>)
  {
    o.Some? && o.value != ""
  }

  /** The characters ECMAScript's `trim` removes: WhiteSpace and LineTerminator. */
  const JsSpaces: set<char> := {
    '\t', '\n', '\r', ' ', '\U{000B}', '\U{000C}', '\U{00A0}', '\U{1680}',
    '\U{2000}', '\U{2001}', '\U{2002}', '\U{2003}', '\U{2004}', '\U{2005}', '\U{2006}',
    '\U{2007}', '\U{2008}', '\U{2009}', '\U{200A}', '\U{2028}', '\U{2029}', '\U{202F}',
    '\U{205F}', '\U{3000}', '\U{FEFF}'
  }

  predicate IsSpace(c: char)
  {
    c in JsSpaces
  }

  /** A string made only of whitespace (the empty string included). */
  predicate Blank(s: string)
  {
    forall i :: 0 <= i < |s| ==> IsSpace(s[i])
  }

  function TrimStart(s: string): (r: string)
    ensures |r| <= |s| && r == s[|s| - |r|..]
    ensures r == [] || !IsSpace(r[0])
    ensures forall i :: 0 <= i < |s| - |r| ==> IsSpace(s[i])
  {
    if |s| > 0 && IsSpace(s[0]) then TrimStart(s[1..]) else s
  }

  function TrimEnd(s: string): (r: string)
    ensures |r| <= |s| && r == s[..|r|]
    ensures r == [] || !IsSpace(r[|r| - 1])
    ensures forall i :: |r| <= i < |s| ==> IsSpace(s[i])
  {
    if |s| > 0 && IsSpace(s[|s| - 1]) then TrimEnd(s[..|s| - 1]) else s
  }

  /** `s.trim()`: the longest infix of `s` that neither starts nor ends with whitespace;
      empty exactly when `s` is blank. */
  function Trim(s: string): (r: string)
    ensures |r| <= |s|
    ensures r == [] || (!IsSpace(r[0]) && !IsSpace(r[|r| - 1]))
    ensures r == [] <==> Blank(s)
  {
    var t := TrimStart(s);
    var r := TrimEnd(t);
    assert r != [] ==> !IsSpace(r[0]) by {
      if r != [] { assert r[0] == t[0]; }
    }
    assert r == [] ==> t == [];
    r
  }

  /** A string without surrounding whitespace is its own trim. */
  lemma {:induction false} TrimOfTrimmed(s: string)
    requires s == [] || (!IsSpace(s[0]) && !IsSpace(s[|s| - 1]))
    ensures Trim(s) == s
  {
    assert TrimStart(s) == s;
    assert TrimEnd(s) == s;
  }

  /** Trimming twice is trimming once. */
  lemma TrimIdempotent(s: string)
    ensures Trim(Trim(s)) == Trim(s)
  {
    TrimOfTrimmed(Trim(s));
  }

  /** The idiom `input?.trim() || current` of the partial updates: an absent, empty or
      whitespace-only input keeps the current value, any other input is stored trimmed. */
  function KeepOr(input: Option<string>, current: string): (r: string)
    ensures (input.None? || Blank(input.value)) ==> r == current
    ensures input.Some? && !Blank(input.value) ==> r == Trim(input.value) && r != ""
  {
    if input.Some? && Trim(input.value) != "" then Trim(input.value) else current
  }

  function LowerChar(c: char): (r: char)
  {
    if 'A' <= c <= 'Z' then (c as int + 32) as char else c
  }

  /** ASCII lower-casing, standing in for the case folding of a case-insensitive match. */
  function Lower(s: string): (r: string)
    ensures |r| == |s|
    ensures forall i :: 0 <= i < |s| ==> r[i] == LowerChar(s[i])
  {
    if s == [] then [] else [LowerChar(s[0])] + Lower(s[1..])
  }

  predicate EqualsIgnoreCase(a: string, b: string)
  {
    Lower(a) == Lower(b)
  }

  /** `s.split(sep)`: the maximal separator-free pieces, in order; never empty. */
  function Split(s: string, sep: char): (r: seq<string>)
    ensures |r| >= 1
    ensures forall i :: 0 <= i < |r| ==> sep !in r[i]
  {
    if s == [] then [""]
    else
      var rest := Split(s[1..], sep);
      if s[0] == sep then [""] + rest else [[s[0]] + rest[0]] + rest[1..]
  }

  /** `parts.join(sep)`. */
  function Join(parts: seq<string>, sep: char): string
    requires |parts| >= 1
  {
    if |parts| == 1 then parts[0] else parts[0] + [sep] + Join(parts[1..], sep)
  }

  /** Joining the pieces of a split gives back the original string. */
  lemma {:induction false} JoinSplit(s: string, sep: char)
    ensures Join(Split(s, sep), sep) == s
  {
    if s != [] {
      JoinSplit(s[1..], sep);
      var rest := Split(s[1..], sep);
      if s[0] == sep {
        assert Split(s, sep) == [""] + rest;
        assert ([""] + rest)[1..] == rest;
      } else {
        var r := [[s[0]] + rest[0]] + rest[1..];
        assert Split(s, sep) == r;
        if |rest| == 1 {
          assert Join(r, sep) == [s[0]] + rest[0];
        } else {
          assert r[1..] == rest[1..];
          assert Join(rest, sep) == rest[0] + [sep] + Join(rest[1..], sep);
          assert Join(r, sep) == [s[0]] + rest[0] + [sep] + Join(rest[1..], sep);
        }
        assert s == [s[0]] + s[1..];
      }
    }
  }

  /** A separator-free prefix is glued onto the first piece of what follows it. */
  lemma {:induction false} SplitCons(w: string, t: string, sep: char)
    requires sep !in w
    ensures Split(w + t, sep) == [w + Split(t, sep)[0]] + Split(t, sep)[1..]
  {
    if w == [] {
      assert w + t == t;
      assert w + Split(t, sep)[0] == Split(t, sep)[0];
      assert Split(t, sep) == [Split(t, sep)[0]] + Split(t, sep)[1..];
    } else {
      SplitCons(w[1..], t, sep);
      assert (w + t)[1..] == w[1..] + t;
      assert [w[0]] + (w[1..] + Split(t, sep)[0]) == w + Split(t, sep)[0];
    }
  }

  /** Splitting a joined sequence of separator-free pieces gives the pieces back. */
  lemma {:induction false} SplitJoin(parts: seq<string>, sep: char)
    requires |parts| >= 1
    requires forall i :: 0 <= i < |parts| ==> sep !in parts[i]
    ensures Split(Join(parts, sep), sep) == parts
  {
    if |parts| == 1 {
      SplitCons(parts[0], "", sep);
      assert parts[0] + "" == parts[0];
    } else {
      SplitJoin(parts[1..], sep);
      var t := [sep] + Join(parts[1..], sep);
      assert Join(parts, sep) == parts[0] + t;
      SplitCons(parts[0], t, sep);
      assert t[1..] == Join(parts[1..], sep);
      assert t != [] && t[0] == sep;
      assert Split(t, sep) == [""] + Split(t[1..], sep);
      assert Split(t[1..], sep) == parts[1..];
      assert Split(t, sep)[0] == "" && Split(t, sep)[1..] == parts[1..];
      assert parts[0] + "" == parts[0];
      assert parts == [parts[0]] + parts[1..];
    }
  }

  /** The cast of a Boolean schema path: true, "true", 1, "1", "yes" and their false
      counterparts are accepted; anything else is a cast error (`None`). */
  function CastBoolean(v: Json): (r: Option<bool>)
    ensures v.Bool? ==> r == Some(v.b)
    ensures v.Str? && v.s == "true" ==> r == Some(true)
    ensures v.Str? && v.s == "false" ==> r == Some(false)
    ensures Nullish(v) ==> r.None?
  {
    match v
    case Bool(b) => Some(b)
    case Num(n) => if n == 1 then Some(true) else if n == 0 then Some(false) else None
    case Str(s) =>
      if s in {"true", "1", "yes"} then Some(true)
      else if s in {"false", "0", "no"} then Some(false)
      else None
    case _ => None
  }

  predicate IsDigit(c: char)
  {
    '0' <= c <= '9'
  }

  function DigitsValue(s: string): (r: nat)
    requires forall i :: 0 <= i < |s| ==> IsDigit(s[i])
  {
    if s == [] then 0
    else
      assert IsDigit(s[|s| - 1]);
      10 * DigitsValue(s[..|s| - 1]) + (s[|s| - 1] as int - '0' as int)
  }

  /** A non-empty string of decimal digits. */
  predicate AllDigits(s: string)
  {
    s != "" && forall i :: 0 <= i < |s| ==> IsDigit(s[i])
  }

  /** `Number(s)` restricted to integers: surrounding whitespace is ignored, whitespace alone is
      0, and one optional sign may precede the decimal digits. Fractions, exponents, hexadecimal
      and `Infinity` are `None` here. */
  function NumberOfString(s: string): Option<int>
  {
    var t := Trim(s);
    if t == "" then Some(0)
    else if AllDigits(t) then Some(DigitsValue(t))
    else if t[0] == '-' && AllDigits(t[1..]) then Some(0 - DigitsValue(t[1..]))
    else if t[0] == '+' && AllDigits(t[1..]) then Some(DigitsValue(t[1..]))
    else None
  }

  /** The cast of a Number schema path, restricted to integers: a number is kept, a boolean
      becomes 1 or 0, the empty string becomes null (which a required path rejects), and any other
      string goes through `Number()`; `None` is a cast error or a missing value. */
  function CastNumber(v: Json): (r: Option<int>)
    ensures v.Num? ==> r == Some(v.n)
    ensures v.Bool? ==> r == Some(if v.b then 1 else 0)
    ensures Nullish(v) || v == Str("") ==> r.None?
  {
    match v
    case Num(n) => Some(n)
    case Bool(b) => Some(if b then 1 else 0)
    case Str(s) => if s == "" then None else NumberOfString(s)
    case _ => None
  }

  lemma DigitNotSpace(c: char)
    requires IsDigit(c)
    ensures !IsSpace(c)
  {
  }

  /** A signed digit string has nothing to trim. */
  lemma {:induction false} SignedDigitsTrimmed(d: string, sign: string)
    requires AllDigits(d) && sign in {"-", "+"}
    ensures Trim(sign + d) == sign + d
  {
    var t := sign + d;
    DigitNotSpace(d[|d| - 1]);
    assert t[|t| - 1] == d[|d| - 1];
    TrimOfTrimmed(t);
  }

  lemma {:induction false} UnsignedDigitsValue(d: string)
    requires AllDigits(d)
    ensures NumberOfString(d) == Some(DigitsValue(d))
  {
    DigitNotSpace(d[0]);
    DigitNotSpace(d[|d| - 1]);
    TrimOfTrimmed(d);
  }

  lemma {:induction false} SignedDigitsValue(d: string, sign: string)
    requires AllDigits(d) && sign in {"-", "+"}
    ensures NumberOfString(sign + d) == Some(if sign == "-" then 0 - DigitsValue(d) else DigitsValue(d))
  {
    var t := sign + d;
    SignedDigitsTrimmed(d, sign);
    assert t[1..] == d;
    assert !IsDigit(t[0]);
  }

  /** A digit string casts to its value, with or without a sign in front. */
  lemma {:induction false} CastDigits(d: string, sign: string)
    requires AllDigits(d) && sign in {"", "-", "+"}
    ensures CastNumber(Str(sign + d)) == Some(if sign == "-" then 0 - DigitsValue(d) else DigitsValue(d))
  {
    if sign == "" {
      assert sign + d == d;
      UnsignedDigitsValue(d);
    } else {
      SignedDigitsValue(d, sign);
    }
  }
}
