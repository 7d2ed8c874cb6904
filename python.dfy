/** The few pieces of Python's built-in behaviour the annotation core relies on:
    exceptions reported as values, `str.strip()`, `int()` applied to text, and the
    decimal rendering `f'{n}'` of an integer. */
module Python {

  /** The exceptions the core can raise. */
  datatype PyError =
    | KeyError(key: string)  // a dictionary has no such key
    | TypeError              // a value of the wrong kind: a str indexed by a str, int() of a dict, an unhashable key
    | ValueError             // int() of text that is not an integer, a malformed dict.update argument
    | AttributeError         // an attribute read on None
    | RuntimeError           // a Qt object used after Qt deleted it
    | IndexError             // a list index out of range
    | AssertionError         // a failed assert statement
    | NotModelled            // dict.update given a list of key/value pairs (see README, "Left out")

  /** The outcome of an operation that may raise. */
  datatype Result<+T> = Ok(value: T) | Err(error: PyError) {
    predicate IsFailure() { Err? }
    function PropagateFailure<U>(): Result<U> requires Err? { Err(error) }
    function Extract(): T requires Ok? { value }
  }

  datatype Option<+T> = None | Some(value: T)

  /** The characters for which Python's `str.isspace()` holds. */
  predicate IsSpace(c: char) {
    ('\t' <= c <= '\r') || ('\U{1C}' <= c <= ' ') || c == '\U{85}' || c == '\U{A0}'
    || c == '\U{1680}' || ('\U{2000}' <= c <= '\U{200A}') || c == '\U{2028}' || c == '\U{2029}'
    || c == '\U{202F}' || c == '\U{205F}' || c == '\U{3000}'
  }

  /** `s.lstrip()`: drops the leading whitespace. */
  function TrimLeft(s: string): (r: string)
    ensures |r| <= |s| && r == s[|s| - |r|..]
    ensures r == [] || !IsSpace(r[0])
    ensures forall i | 0 <= i < |s| - |r| :: IsSpace(s[i])
  {
    if s != [] && IsSpace(s[0]) then TrimLeft(s[1..]) else s
  }

  /** `s.rstrip()`: drops the trailing whitespace. */
  function TrimRight(s: string): (r: string)
    ensures |r| <= |s| && r == s[..|r|]
    ensures r == [] || !IsSpace(r[|r| - 1])
    ensures forall i | |r| <= i < |s| :: IsSpace(s[i])
  {
    if s != [] && IsSpace(s[|s| - 1]) then TrimRight(s[..|s| - 1]) else s
  }

  /** `s.strip()`. */
  function Strip(s: string): (r: string)
  {
    TrimRight(TrimLeft(s))
  }

  /** Text that `strip()` leaves alone: empty, or not starting or ending with whitespace. */
  predicate IsStripped(s: string) {
    s == [] || (!IsSpace(s[0]) && !IsSpace(s[|s| - 1]))
  }

  /** `strip()` leaves no whitespace at either end, removes everything from all-whitespace
      text, and keeps text that has no surrounding whitespace. */
  lemma StripSpec(s: string)
    ensures IsStripped(Strip(s))
    ensures Strip(s) == [] <==> forall i | 0 <= i < |s| :: IsSpace(s[i])
    ensures IsStripped(s) ==> Strip(s) == s
  {
    var l := TrimLeft(s);
    var r := TrimRight(l);
    var i := |s| - |l|;
    if r != [] {
      assert !IsSpace(r[0]);
      assert r[0] == l[0];
    }
    if IsStripped(s) && s != [] {
      assert l == s;
      assert r == s;
    }
  }

  predicate IsDigit(c: char) { '0' <= c <= '9' }

  function DigitValue(c: char): nat
    requires IsDigit(c)
  {
    (c as int) - ('0' as int)
  }

  function DigitChar(d: nat): (c: char)
    requires d < 10
    ensures IsDigit(c) && DigitValue(c) == d
  {
    (('0' as int) + d) as char
  }

  /** The digits accepted by `int()` after an optional sign: ASCII digits, where a single
      underscore may separate two digits. */
  predicate IsDigitRun(t: string) {
    |t| > 0 &&
    forall i | 0 <= i < |t| :: IsDigit(t[i]) || (t[i] == '_' && 0 < i && i + 1 < |t| && IsDigit(t[i + 1]))
  }

  /** The number a digit run denotes, underscores ignored. */
  function DigitsValue(t: string): nat
  {
    if t == [] then 0
    else if IsDigit(t[|t| - 1]) then 10 * DigitsValue(t[..|t| - 1]) + DigitValue(t[|t| - 1])
    else DigitsValue(t[..|t| - 1])
  }

  /** `int(s)` for a str `s`: surrounding whitespace, an optional sign, then a digit run;
      anything else raises ValueError. */
  function ParseInt(s: string): (r: Result<int>)
    ensures r.Ok? <==> (var t := Strip(s);
                        IsDigitRun(t) || (|t| > 0 && (t[0] == '+' || t[0] == '-') && IsDigitRun(t[1..])))
    ensures r.Err? ==> r.error == ValueError
  {
    var t := Strip(s);
    if |t| > 0 && (t[0] == '+' || t[0] == '-') then
      if IsDigitRun(t[1..]) then
        var v: int := DigitsValue(t[1..]);
        Ok(if t[0] == '-' then -v else v)
      else Err(ValueError)
    else if IsDigitRun(t) then Ok(DigitsValue(t))
    else Err(ValueError)
  }

  /** The decimal digits of a natural number, most significant first, no leading zero. */
  function NatText(n: nat): (r: string)
    ensures |r| > 0 && (forall i | 0 <= i < |r| :: IsDigit(r[i]))
    ensures |r| > 1 ==> r[0] != '0'
  {
    if n < 10 then [DigitChar(n)] else NatText(n / 10) + [DigitChar(n % 10)]
  }

  /** `f'{n}'` for an int `n`. */
  function IntText(n: int): (r: string)
  {
    if n < 0 then "-" + NatText(-n) else NatText(n)
  }

  lemma {:induction false} NatTextValue(n: nat)
    ensures DigitsValue(NatText(n)) == n
  {
    if n >= 10 {
      var t := NatText(n);
      assert t[..|t| - 1] == NatText(n / 10);
      NatTextValue(n / 10);
    }
  }

  /** Reading back what `f'{n}'` wrote gives `n`: `int(f'{n}') == n`. */
  lemma IntTextRoundTrip(n: int)
    ensures IsStripped(IntText(n))
    ensures ParseInt(IntText(n)) == Ok(n)
  {
    var t := IntText(n);
    var m: nat := if n < 0 then -n else n;
    var d := NatText(m);
    assert IsDigitRun(d);
    NatTextValue(m);
    assert IsStripped(t) by {
      assert t[|t| - 1] == d[|d| - 1];
    }
    StripSpec(t);
    assert Strip(t) == t;
    if n < 0 {
      assert t[1..] == d;
      assert !IsDigitRun(t) by { assert t[0] == '-'; }
    } else {
      assert t == d;
    }
  }

  /** `for x in xs: out.append(f(x))` where `f` may raise: the first exception ends the loop.
      The list comes out only when every element succeeds, and then holds their results in order. */
  function MapResult<T, U>(f: T -> Result<U>, xs: seq<T>): (r: Result<seq<U>>)
    ensures r.Ok? <==> forall i | 0 <= i < |xs| :: f(xs[i]).Ok?
    ensures r.Ok? ==> |r.value| == |xs| && forall i | 0 <= i < |xs| :: r.value[i] == f(xs[i]).value
  {
    if xs == [] then Ok([])
    else
      var n := |xs| - 1;
      var front :- MapResult(f, xs[..n]);
      var last :- f(xs[n]);
      assert forall i | 0 <= i < n :: xs[..n][i] == xs[i];
      Ok(front + [last])
  }

  /** Once a prefix fails, the whole loop fails with that prefix's error. */
  lemma {:induction false} MapResultPrefixError<T, U>(f: T -> Result<U>, xs: seq<T>, k: nat)
    requires k <= |xs| && MapResult(f, xs[..k]).Err?
    ensures MapResult(f, xs) == MapResult(f, xs[..k])
  {
    if k < |xs| {
      var n := |xs| - 1;
      assert xs[..n][..k] == xs[..k];
      MapResultPrefixError(f, xs[..n], k);
    } else {
      assert xs[..k] == xs;
    }
  }

  /** The error of the loop is the one of the first element that fails. */
  lemma MapResultFirstError<T, U>(f: T -> Result<U>, xs: seq<T>, k: nat)
    requires k < |xs| && f(xs[k]).Err?
    requires forall i | 0 <= i < k :: f(xs[i]).Ok?
    ensures MapResult(f, xs) == Err(f(xs[k]).error)
  {
    assert xs[..k + 1][..k] == xs[..k];
    assert forall i | 0 <= i < k :: xs[..k][i] == xs[i];
    MapResultPrefixError(f, xs, k + 1);
  }

  /** `xs[i]` for an int `i`: a negative index counts from the end; out of range raises IndexError. */
  function Index<T>(xs: seq<T>, i: int): (r: Result<T>)
    ensures r.Ok? <==> -|xs| <= i < |xs|
    ensures r.Ok? ==> r.value == xs[if i < 0 then i + |xs| else i]
    ensures r.Err? ==> r.error == IndexError
  {
    if 0 <= i < |xs| then Ok(xs[i])
    else if -|xs| <= i < 0 then Ok(xs[i + |xs|])
    else Err(IndexError)
  }
}
