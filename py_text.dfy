/** The string operations of Python's `str` that the handler uses: `strip()`,
    `sep.join(...)`, `s.split('/')[-1]` and `int(...)`. */
module PyText {
  import opened PyValue

  /** `c.isspace()`: the 29 code points Python treats as whitespace. */
  predicate IsSpace(c: char) {
    c == ' ' || ('\t' <= c <= '\r') || ('\U{1C}' <= c <= '\U{1F}') || c == '\U{85}' ||
    c == '\U{A0}' || c == '\U{1680}' || ('\U{2000}' <= c <= '\U{200A}') || c == '\U{2028}' ||
    c == '\U{2029}' || c == '\U{202F}' || c == '\U{205F}' || c == '\U{3000}'
  }

  predicate IsDigit(c: char) {
    '0' <= c <= '9'
  }

  predicate Blank(s: string) {
    forall i | 0 <= i < |s| :: IsSpace(s[i])
  }

  /** `s.lstrip()`: a suffix of `s` that has lost exactly its leading whitespace. */
  function TrimStart(s: string): (r: string)
    ensures |r| <= |s| && r == s[|s| - |r|..]
    ensures Blank(s[..|s| - |r|])
    ensures r != [] ==> !IsSpace(r[0])
  {
    if s != [] && IsSpace(s[0]) then TrimStart(s[1..]) else s
  }

  /** `s.rstrip()`: a prefix of `s` that has lost exactly its trailing whitespace. */
  function TrimEnd(s: string): (r: string)
    ensures |r| <= |s| && r == s[..|r|]
    ensures Blank(s[|r|..])
    ensures r != [] ==> !IsSpace(r[|r| - 1])
  {
    if s != [] && IsSpace(s[|s| - 1]) then
      var r := TrimEnd(s[..|s| - 1]);
      assert s[|r|..] == s[..|s| - 1][|r|..] + [s[|s| - 1]];
      r
    else s
  }

  /** `r` occurs at `i` in `s`, with only whitespace before and after it. */
  predicate Surrounds(s: string, i: int, r: string) {
    0 <= i <= |s| - |r| && r == s[i..i + |r|] && Blank(s[..i]) && Blank(s[i + |r|..])
  }

  /** `s.strip()`. */
  function Strip(s: string): (r: string)
    ensures r == [] <==> Blank(s)
    ensures r != [] ==> !IsSpace(r[0]) && !IsSpace(r[|r| - 1])
    ensures exists i :: Surrounds(s, i, r)
  {
    var t := TrimStart(s);
    var r := TrimEnd(t);
    TrimmedSurrounds(s, t, r);
    r
  }

  /** A whitespace prefix cut off `s`, then a whitespace suffix cut off the rest, leave
      text surrounded by whitespace only. */
  lemma TrimmedSurrounds(s: string, t: string, r: string)
    requires |t| <= |s| && t == s[|s| - |t|..] && Blank(s[..|s| - |t|])
    requires |r| <= |t| && r == t[..|r|] && Blank(t[|r|..])
    requires r != [] ==> !IsSpace(r[0])
    ensures Surrounds(s, |s| - |t|, r)
    ensures r == [] <==> Blank(s)
  {
    var i := |s| - |t|;
    assert s[i + |r|..] == t[|r|..];
    assert r == s[i..i + |r|];
    if r == [] {
      assert s == s[..i] + s[i..];
    } else {
      assert s[i] == r[0];
    }
  }

  /** `sep.join(parts)` for a sequence of strings. */
  function JoinWith(parts: seq<string>, sep: string): (r: string)
    decreases |parts|
  {
    if |parts| == 0 then ""
    else if |parts| == 1 then parts[0]
    else JoinWith(parts[..|parts| - 1], sep) + sep + parts[|parts| - 1]
  }

  /** The joined string starts with the first part, whatever follows. */
  lemma {:induction false} JoinStartsWithFirst(parts: seq<string>, sep: string)
    requires |parts| > 0
    ensures |parts[0]| <= |JoinWith(parts, sep)|
    ensures JoinWith(parts, sep)[..|parts[0]|] == parts[0]
    decreases |parts|
  {
    if |parts| > 1 {
      var init := parts[..|parts| - 1];
      JoinStartsWithFirst(init, sep);
      assert init[0] == parts[0];
      var j := JoinWith(init, sep);
      assert JoinWith(parts, sep) == j + sep + parts[|parts| - 1];
      assert (j + sep + parts[|parts| - 1])[..|parts[0]|] == j[..|parts[0]|];
    }
  }

  predicate AllStr(xs: seq<Value>) {
    forall i | 0 <= i < |xs| :: xs[i].Str?
  }

  function Strings(xs: seq<Value>): (r: seq<string>)
    requires AllStr(xs)
    ensures |r| == |xs| && forall i | 0 <= i < |xs| :: r[i] == xs[i].s
  {
    seq(|xs|, i requires 0 <= i < |xs| => xs[i].s)
  }

  /** `sep.join(v)`: every element of the iterable must be a `str`. A string iterates
      over its characters and a dict over its keys. */
  function PyJoin(sep: string, v: Value, py: Py): (r: Result<string, PyError>)
    ensures v.List? ==> (r.Ok? <==> AllStr(v.items))
    ensures v.List? && AllStr(v.items) ==> r == Ok(JoinWith(Strings(v.items), sep))
    ensures r.Err? ==> r.error == NotJoinable(v)
    ensures v.Null? || v.Int? || v.Float? || v.Bool? || v.Opaque? ==> r.Err?
  {
    match v
    case List(xs) => if AllStr(xs) then Ok(JoinWith(Strings(xs), sep)) else Err(NotJoinable(v))
    case Str(s) => Ok(JoinWith(seq(|s|, i requires 0 <= i < |s| => [s[i]]), sep))
    case Dict(m) => Ok(JoinWith(py.keyOrder(m), sep))
    case _ => Err(NotJoinable(v))
  }

  /** `s.split('/')[-1]`: the text after the last slash, or all of `s` when it has none. */
  function LastSegment(s: string): string {
    if s == [] then []
    else if s[|s| - 1] == '/' then []
    else LastSegment(s[..|s| - 1]) + [s[|s| - 1]]
  }

  /** The last segment ends `s`, holds no slash, and is preceded by a slash unless it is
      all of `s`. */
  lemma LastSegmentShape(s: string)
    ensures |LastSegment(s)| <= |s|
    ensures LastSegment(s) == s[|s| - |LastSegment(s)|..]
    ensures '/' !in LastSegment(s)
    ensures |LastSegment(s)| < |s| ==> s[|s| - |LastSegment(s)| - 1] == '/'
  {
    LastSegmentSuffix(s);
    LastSegmentNoSlash(s);
    LastSegmentAfterSlash(s);
  }

  lemma {:induction false} LastSegmentSuffix(s: string)
    ensures |LastSegment(s)| <= |s| && LastSegment(s) == s[|s| - |LastSegment(s)|..]
    decreases |s|
  {
    if s != [] && s[|s| - 1] != '/' {
      var t, c := s[..|s| - 1], s[|s| - 1];
      assert s == t + [c];
      LastSegmentSuffix(t);
      var r := LastSegment(t);
      assert s[|s| - |r| - 1..] == t[|t| - |r|..] + [c];
    }
  }

  lemma {:induction false} LastSegmentNoSlash(s: string)
    ensures '/' !in LastSegment(s)
    decreases |s|
  {
    if s != [] && s[|s| - 1] != '/' {
      LastSegmentNoSlash(s[..|s| - 1]);
      assert '/' !in LastSegment(s[..|s| - 1]) + [s[|s| - 1]];
    }
  }

  lemma {:induction false} LastSegmentAfterSlash(s: string)
    ensures |LastSegment(s)| < |s| ==> s[|s| - |LastSegment(s)| - 1] == '/'
    decreases |s|
  {
    if s != [] && s[|s| - 1] != '/' {
      var t, c := s[..|s| - 1], s[|s| - 1];
      assert s == t + [c];
      LastSegmentSuffix(t);
      LastSegmentAfterSlash(t);
      var r := LastSegment(t);
      if |r| < |t| {
        assert s[|s| - |r| - 2] == t[|t| - |r| - 1];
      }
    }
  }

  function DigitValue(c: char): nat {
    if IsDigit(c) then c as int - '0' as int else 0
  }

  /** The value of a run of decimal digits. */
  function Decimal(ds: string): nat
    decreases |ds|
  {
    if ds == [] then 0 else 10 * Decimal(ds[..|ds| - 1]) + DigitValue(ds[|ds| - 1])
  }

  predicate Digits(ds: string) {
    ds != [] && forall i | 0 <= i < |ds| :: IsDigit(ds[i])
  }

  /** An integer literal after stripping: an optional sign, then one or more digits. */
  function IntLiteral(t: string): Option<int> {
    if t != [] && (t[0] == '+' || t[0] == '-') then
      if Digits(t[1..]) then
        var magnitude: int := Decimal(t[1..]);
        Some(if t[0] == '-' then -magnitude else magnitude)
      else None
    else if Digits(t) then Some(Decimal(t))
    else None
  }

  /** `int(v)`. Booleans are integers; a finite float truncates; a string must hold an
      integer literal once stripped. */
  function PyInt(v: Value, py: Py): (r: Result<int, PyError>)
    ensures v.Int? ==> r == Ok(v.i)
    ensures v.Null? || v.List? || v.Dict? || v.Opaque? ==> r == Err(NotAnInteger(v))
    ensures v.Str? ==> (r.Ok? <==> IntLiteral(Strip(v.s)).Some?)
  {
    match v
    case Int(i) => Ok(i)
    case Bool(b) => Ok(if b then 1 else 0)
    case Float(f) =>
      (match f
       case Zero(_) => Ok(0)
       case Finite(id) => Ok(py.truncate(id))
       case _ => Err(NotAnInteger(v)))
    case Str(s) =>
      (match IntLiteral(Strip(s))
       case Some(n) => Ok(n)
       case None => Err(NotAnInteger(v)))
    case _ => Err(NotAnInteger(v))
  }

  /** `str(n)` for a natural number. */
  function DecimalString(n: nat): (r: string)
    ensures Digits(r)
  {
    var d := ['0' + (n % 10) as char];
    if n < 10 then d else DecimalString(n / 10) + d
  }

  lemma {:induction false} DecimalOfDecimalString(n: nat)
    ensures Decimal(DecimalString(n)) == n
  {
    var d := ['0' + (n % 10) as char];
    if n >= 10 {
      DecimalOfDecimalString(n / 10);
      var ds := DecimalString(n / 10) + d;
      assert ds[..|ds| - 1] == DecimalString(n / 10);
    }
  }

  /** Digits carry no whitespace, so stripping leaves them alone. */
  lemma StripDigits(s: string)
    requires Digits(s)
    ensures Strip(s) == s
  {
    assert !IsSpace(s[0]);
    assert TrimStart(s) == s;
    assert !IsSpace(s[|s| - 1]);
    assert TrimEnd(s) == s;
  }

  lemma PyIntOfLiteral(m: string, py: Py, k: int)
    requires Strip(m) == m
    requires IntLiteral(m) == Some(k)
    ensures PyInt(Str(m), py) == Ok(k)
  {
  }

  /** `int(str(n)) == n`: a profile id written as a decimal string converts back to it. */
  lemma {:induction false} IntOfDecimalString(n: nat, py: Py)
    ensures PyInt(Str(DecimalString(n)), py) == Ok(n)
  {
    var s := DecimalString(n);
    DecimalOfDecimalString(n);
    StripDigits(s);
    assert s[0] != '+' && s[0] != '-';
    assert IntLiteral(s) == Some(n);
    PyIntOfLiteral(s, py, n);
  }
}
