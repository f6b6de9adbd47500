/** The parts of java.lang.String, Integer and hutool's StrUtil that the
    deployment code relies on, with Java's own edge cases: `trim` strips
    characters up to U+0020, `split("\n")` drops trailing empty pieces,
    `lastIndexOf` answers -1, `substring` throws on a bad index and
    `Integer.parseInt` rejects anything outside 32 bits. */
module JavaLang {

  datatype Option<+T> = None | Some(value: T)

  /** The exceptions the modelled code can raise. */
  datatype JavaException =
    | StringIndexOutOfBounds(begin: int, end: int, length: int)  // String.substring
    | CharIndexOutOfBounds(index: int, length: int)               // String.charAt
    | NullPointer                                                  // a null reference dereferenced
    | NumberFormat(input: string)                                  // Integer.parseInt
    | IllegalState(detail: string)                                 // Timer.schedule of a used task
    | ConcurrentModification                                       // a HashMap iterator after a removal
    | Remote(detail: string)                                       // raised by the SSH or JSON library, or the network

  datatype Result<+T> = Ok(value: T) | Fail(error: JavaException)

  const MinInt: int := -0x8000_0000
  const MaxInt: int := 0x7fff_ffff

  /** What `getLocalizedMessage()` reports for each exception (JDK 17 wording;
      a NullPointerException is taken to carry no message, and a
      ConcurrentModificationException from a HashMap iterator carries none, which string
      concatenation prints as "null"). */
  function Message(e: JavaException): string {
    match e
    case StringIndexOutOfBounds(b, en, l) =>
      "begin " + IntToString(b) + ", end " + IntToString(en) + ", length " + IntToString(l)
    case CharIndexOutOfBounds(i, l) => "index " + IntToString(i) + ", length " + IntToString(l)
    case NullPointer => "null"
    case NumberFormat(s) => "For input string: \"" + s + "\""
    case IllegalState(d) => d
    case ConcurrentModification => "null"
    case Remote(d) => d
  }

  /** Java's string conversion of a possibly-null String: null prints as "null". */
  function JavaStr(s: Option<string>): string {
    match s
    case None => "null"
    case Some(v) => v
  }

  // ---------------------------------------------------------------- sequences

  /** Appending parts one after the other appends their concatenation. */
  lemma Assoc<T>(a: seq<T>, b: seq<T>, c: seq<T>)
    ensures a + b + c == a + (b + c)
  {
  }

  /** `a` is the prefix of `a + b` of its own length. */
  lemma PrefixOfAppend<T>(a: seq<T>, b: seq<T>)
    ensures |a| <= |a + b| && (a + b)[..|a|] == a
  {
  }

  /** A prefix one longer is the prefix and the next element. */
  lemma Snoc<T>(s: seq<T>, i: nat)
    requires i < |s|
    ensures s[..i + 1] == s[..i] + [s[i]]
  {
  }

  lemma Whole<T>(s: seq<T>)
    ensures s[..|s|] == s
  {
  }

  // ---------------------------------------------------------------- prefix, index

  predicate StartsWith(s: string, prefix: string) {
    |prefix| <= |s| && s[..|prefix|] == prefix
  }

  predicate EndsWith(s: string, suffix: string) {
    |suffix| <= |s| && s[|s| - |suffix|..] == suffix
  }

  /** `s.lastIndexOf(c)`: the last position holding `c`, or -1. */
  function LastIndexOf(s: string, c: char): (i: int)
    ensures -1 <= i < |s|
    ensures i >= 0 ==> s[i] == c
    ensures forall j :: i < j < |s| ==> s[j] != c
    ensures i == -1 <==> c !in s
  {
    if |s| == 0 then -1
    else if s[|s| - 1] == c then |s| - 1
    else
      var i := LastIndexOf(s[..|s| - 1], c);
      assert forall j :: i < j < |s| - 1 ==> s[j] == s[..|s| - 1][j];
      i
  }

  /** `s.substring(begin, end)`, which throws unless 0 <= begin <= end <= length. */
  function Substring(s: string, begin: int, end: int): (r: Result<string>)
    ensures r.Ok? <==> 0 <= begin <= end <= |s|
    ensures r.Ok? ==> |r.value| == end - begin && forall k :: 0 <= k < end - begin ==> r.value[k] == s[begin + k]
    ensures r.Fail? ==> r.error == StringIndexOutOfBounds(begin, end, |s|)
  {
    if 0 <= begin <= end <= |s| then Ok(s[begin..end])
    else Fail(StringIndexOutOfBounds(begin, end, |s|))
  }

  /** `s.substring(begin)`. */
  function SubstringFrom(s: string, begin: int): (r: Result<string>)
    ensures r.Ok? <==> 0 <= begin <= |s|
    ensures r.Ok? ==> EndsWith(s, r.value) && |r.value| == |s| - begin
    ensures r.Fail? ==> r.error == StringIndexOutOfBounds(begin, |s|, |s|)
  {
    Substring(s, begin, |s|)
  }

  // ---------------------------------------------------------------- trim

  /** `s` without its leading characters up to U+0020. */
  function TrimStart(s: string): (r: string)
    ensures |r| <= |s|
    ensures r == [] || r[0] > ' '
  {
    if |s| > 0 && s[0] <= ' ' then TrimStart(s[1..]) else s
  }

  lemma {:induction false} TrimStartCuts(s: string)
    ensures var r := TrimStart(s);
            r == s[|s| - |r|..] && forall k :: 0 <= k < |s| - |r| ==> s[k] <= ' '
  {
    if |s| > 0 && s[0] <= ' ' {
      TrimStartCuts(s[1..]);
      var r := TrimStart(s[1..]);
      assert forall k :: 1 <= k < |s| - |r| ==> s[k] == s[1..][k - 1];
    }
  }

  /** `s` without its trailing characters up to U+0020. */
  function TrimEnd(s: string): (r: string)
    ensures |r| <= |s|
    ensures r == [] || r[|r| - 1] > ' '
  {
    if |s| > 0 && s[|s| - 1] <= ' ' then TrimEnd(s[..|s| - 1]) else s
  }

  lemma {:induction false} TrimEndCuts(s: string)
    ensures var r := TrimEnd(s);
            r == s[..|r|] && forall k :: |r| <= k < |s| ==> s[k] <= ' '
  {
    if |s| > 0 && s[|s| - 1] <= ' ' {
      TrimEndCuts(s[..|s| - 1]);
      var r := TrimEnd(s[..|s| - 1]);
      assert forall k :: |r| <= k < |s| - 1 ==> s[k] == s[..|s| - 1][k];
    }
  }

  /** `s.trim()`: `s` without its leading and trailing characters up to U+0020. */
  function Trim(s: string): (r: string)
    ensures |r| <= |s|
    ensures r == [] || (r[0] > ' ' && r[|r| - 1] > ' ')
  {
    var t := TrimStart(s);
    TrimEndCuts(t);
    TrimEnd(t)
  }

  /** The trimmed string is the middle of `s`, and only characters up to
      U+0020 were cut away on either side. */
  lemma TrimIsInfix(s: string)
    ensures var r, i := Trim(s), |s| - |TrimStart(s)|;
            i + |r| <= |s| && s[i..i + |r|] == r
    ensures var i := |s| - |TrimStart(s)|;
            forall k :: 0 <= k < i ==> s[k] <= ' '
    ensures var r, i := Trim(s), |s| - |TrimStart(s)|;
            forall k :: i + |r| <= k < |s| ==> s[k] <= ' '
  {
    var t := TrimStart(s);
    var r := TrimEnd(t);
    var i := |s| - |t|;
    TrimStartCuts(s);
    TrimEndCuts(t);
    assert t == s[i..];
    assert r == t[..|r|];
    forall k | i + |r| <= k < |s|
      ensures s[k] <= ' '
    {
      assert s[k] == t[k - i];
    }
  }

  /** `core` stands in `s` at position `i` with only characters up to U+0020
      before and after it, and starts and ends above U+0020: `core` is what
      `s.trim()` gives. */
  predicate PaddedAt(s: string, i: int, core: string) {
    0 <= i && i + |core| <= |s| && s[i..i + |core|] == core
    && (forall k :: 0 <= k < i ==> s[k] <= ' ')
    && (forall k :: i + |core| <= k < |s| ==> s[k] <= ' ')
    && (core == [] || (core[0] > ' ' && core[|core| - 1] > ' '))
  }

  /** Trimming twice is trimming once. */
  lemma TrimIdempotent(s: string)
    ensures Trim(Trim(s)) == Trim(s)
  {
    var r := Trim(s);
    if r != [] {
      assert TrimStart(r) == r;
      assert TrimEnd(r) == r;
    }
  }

  // ---------------------------------------------------------------- blank (hutool)

  /** hutool's `CharUtil.isBlankChar`: Java whitespace, the Unicode space
      separators, U+FEFF, U+202A and U+0000. */
  predicate IsBlankChar(c: char) {
    var n := c as int;
    (0x09 <= n <= 0x0D) || (0x1C <= n <= 0x20) || n == 0x00 || n == 0xA0 || n == 0x1680
    || (0x2000 <= n <= 0x200A) || n == 0x2028 || n == 0x2029 || n == 0x202A || n == 0x202F
    || n == 0x205F || n == 0x3000 || n == 0xFEFF
  }

  /** hutool's `StrUtil.isBlank`: null, or only blank characters. */
  predicate IsBlank(s: Option<string>) {
    match s
    case None => true
    case Some(v) => forall i :: 0 <= i < |v| ==> IsBlankChar(v[i])
  }

  // ---------------------------------------------------------------- split("\n")

  /** Every piece between two line feeds, empty ones included. */
  function Pieces(s: string): (r: seq<string>)
    ensures |r| >= 1
    ensures forall i :: 0 <= i < |r| ==> '\n' !in r[i]
  {
    if s == [] then [""]
    else
      var rest := Pieces(s[1..]);
      if s[0] == '\n' then [""] + rest
      else [[s[0]] + rest[0]] + rest[1..]
  }

  /** The pieces glued back with line feeds. */
  function Join(ps: seq<string>): string {
    if |ps| == 0 then ""
    else if |ps| == 1 then ps[0]
    else ps[0] + "\n" + Join(ps[1..])
  }

  /** `ps` without its trailing empty strings. */
  function DropTrailingEmpty(ps: seq<string>): (r: seq<string>)
    ensures |r| <= |ps| && r == ps[..|r|]
    ensures r == [] || r[|r| - 1] != ""
    ensures forall i :: |r| <= i < |ps| ==> ps[i] == ""
  {
    if |ps| > 0 && ps[|ps| - 1] == "" then
      var r := DropTrailingEmpty(ps[..|ps| - 1]);
      assert forall i :: |r| <= i < |ps| - 1 ==> ps[i] == ps[..|ps| - 1][i];
      r
    else ps
  }

  /** `s.split("\n")`: a string without a line feed is its own single piece;
      otherwise the pieces, with trailing empty ones removed. */
  function Split(s: string): (r: seq<string>)
    ensures forall i :: 0 <= i < |r| ==> '\n' !in r[i]
    ensures '\n' in s ==> r == [] || r[|r| - 1] != ""
  {
    if '\n' in s then DropTrailingEmpty(Pieces(s)) else [s]
  }

  predicate NewlinesOnly(t: string) {
    forall i :: 0 <= i < |t| ==> t[i] == '\n'
  }

  lemma {:induction false} JoinPieces(s: string)
    ensures Join(Pieces(s)) == s
  {
    if s != [] {
      JoinPieces(s[1..]);
      var rest := Pieces(s[1..]);
      if s[0] == '\n' {
        assert ([""] + rest)[1..] == rest;
      } else {
        var ps := [[s[0]] + rest[0]] + rest[1..];
        if |rest| > 1 {
          assert ps[1..] == rest[1..];
          assert Join(rest) == rest[0] + "\n" + Join(rest[1..]);
        }
        assert Join(ps) == [s[0]] + Join(rest);
      }
    }
  }

  lemma {:induction false} JoinSnoc(q: seq<string>, x: string)
    requires |q| >= 1
    ensures Join(q + [x]) == Join(q) + "\n" + x
  {
    if |q| > 1 {
      JoinSnoc(q[1..], x);
      assert (q + [x])[1..] == q[1..] + [x];
    }
  }

  lemma {:induction false} JoinDropTrailing(ps: seq<string>)
    ensures var j, d := Join(ps), Join(DropTrailingEmpty(ps));
            |d| <= |j| && j == d + j[|d|..] && NewlinesOnly(j[|d|..])
  {
    if |ps| > 0 && ps[|ps| - 1] == "" {
      var q := ps[..|ps| - 1];
      assert ps == q + [""];
      JoinDropTrailing(q);
      if |q| >= 1 {
        JoinSnoc(q, "");
      }
    }
  }

  /** Splitting loses only trailing line feeds: gluing the pieces back with
      "\n" gives `s` up to a run of line feeds at its end. */
  lemma SplitRejoin(s: string)
    ensures var j := Join(Split(s));
            |j| <= |s| && s == j + s[|j|..] && NewlinesOnly(s[|j|..])
  {
    if '\n' in s {
      JoinPieces(s);
      JoinDropTrailing(Pieces(s));
    }
  }

  // ---------------------------------------------------------------- integers

  predicate IsDigit(c: char) { '0' <= c <= '9' }

  predicate AllDigits(s: string) {
    forall i :: 0 <= i < |s| ==> IsDigit(s[i])
  }

  function DigitsValue(s: string): nat
    requires AllDigits(s)
  {
    if s == [] then 0 else DigitsValue(s[..|s| - 1]) * 10 + (s[|s| - 1] as int - '0' as int)
  }

  function DigitChar(d: nat): (c: char)
    requires d < 10
    ensures IsDigit(c) && c as int - '0' as int == d
  {
    ('0' as int + d) as char
  }

  /** Decimal digits of `n`, without leading zeros. */
  function NatToString(n: nat): (s: string)
    ensures |s| >= 1 && AllDigits(s)
  {
    if n < 10 then [DigitChar(n)] else NatToString(n / 10) + [DigitChar(n % 10)]
  }

  /** `Integer.toString(n)` / `"" + n`. */
  function IntToString(n: int): string {
    if n < 0 then "-" + NatToString(-n) else NatToString(n)
  }

  /** `Integer.parseInt(s)`: an optional sign, then one or more decimal digits,
      with a value in 32 bits; anything else throws NumberFormatException. */
  function ParseInt(s: string): (r: Result<int>)
    ensures r.Ok? ==> MinInt <= r.value <= MaxInt
    ensures r.Fail? ==> r.error == NumberFormat(s)
    ensures r.Ok? <==> (|s| >= 1 && AllDigits(s) && DigitsValue(s) <= MaxInt)
                       || (|s| >= 2 && s[0] == '+' && AllDigits(s[1..]) && DigitsValue(s[1..]) <= MaxInt)
                       || (|s| >= 2 && s[0] == '-' && AllDigits(s[1..]) && DigitsValue(s[1..]) <= -MinInt)
    ensures r.Ok? && |s| >= 1 && IsDigit(s[0]) ==> r.value == DigitsValue(s)
    ensures r.Ok? && |s| >= 1 && s[0] == '+' ==> r.value == DigitsValue(s[1..])
    ensures r.Ok? && |s| >= 1 && s[0] == '-' ==> r.value == 0 - DigitsValue(s[1..]) as int
  {
    var signed := |s| > 0 && (s[0] == '-' || s[0] == '+');
    var digits := if signed then s[1..] else s;
    if digits == [] || !AllDigits(digits) then Fail(NumberFormat(s))
    else
      var v: int := if |s| > 0 && s[0] == '-' then -(DigitsValue(digits) as int) else DigitsValue(digits);
      if MinInt <= v <= MaxInt then Ok(v) else Fail(NumberFormat(s))
  }

  lemma {:induction false} NatToStringValue(n: nat)
    ensures DigitsValue(NatToString(n)) == n
  {
    if n >= 10 {
      NatToStringValue(n / 10);
      var s := NatToString(n);
      assert s[..|s| - 1] == NatToString(n / 10);
    }
  }

  /** Printing a 32-bit integer and parsing it back gives the integer. */
  lemma ParseIntRoundTrip(n: int)
    requires MinInt <= n <= MaxInt
    ensures ParseInt(IntToString(n)) == Ok(n)
  {
    var s := IntToString(n);
    if n < 0 {
      NatToStringValue(-n);
      assert s[0] == '-' && s[1..] == NatToString(-n);
    } else {
      NatToStringValue(n);
      assert IsDigit(s[0]);
    }
  }
}
