/**
 * The string and number primitives the core relies on: Go's `strings.TrimSpace`,
 * `strings.HasPrefix`, `strings.Trim`, `strings.SplitN(s, sep, 2)`, `strings.Split`,
 * `strings.Fields`, `strconv.Atoi` and the `%d` verb of `fmt`; and JavaScript's
 * `split(' ')`, `toLowerCase`, `includes` and `parseInt`.
 */
module Text {
  import opened Wrappers

  /** Go's `int` on a 64-bit platform. */
  type Int64 = x: int | -0x8000_0000_0000_0000 <= x <= 0x7FFF_FFFF_FFFF_FFFF

  /** Go's `unicode.IsSpace`: the Unicode White_Space property. */
  predicate IsSpace(c: char)
  {
    c == ' ' || c == '\t' || c == '\n' || c == '\r' || c == '\U{B}' || c == '\U{C}'
    || c == '\U{85}' || c == '\U{A0}' || c == '\U{1680}' || ('\U{2000}' <= c <= '\U{200A}')
    || c == '\U{2028}' || c == '\U{2029}' || c == '\U{202F}' || c == '\U{205F}' || c == '\U{3000}'
  }

  /** JavaScript's white space and line terminators, as skipped by `parseInt`. */
  predicate IsJsSpace(c: char)
  {
    (IsSpace(c) && c != '\U{85}') || c == '\U{FEFF}'
  }

  predicate NoSpace(s: string)
  {
    forall k :: 0 <= k < |s| ==> !IsSpace(s[k])
  }

  /** Neither end of `s` is white space. */
  predicate SpaceFreeEdges(s: string)
  {
    s == [] || (!IsSpace(s[0]) && !IsSpace(s[|s| - 1]))
  }

  function TrimLeftSpace(s: string): (r: string)
    ensures |r| <= |s| && r == s[|s| - |r|..]
    ensures r != [] ==> !IsSpace(r[0])
    ensures forall k :: 0 <= k < |s| - |r| ==> IsSpace(s[k])
  {
    if |s| > 0 && IsSpace(s[0]) then TrimLeftSpace(s[1..]) else s
  }

  function TrimRightSpace(s: string): (r: string)
    ensures |r| <= |s| && r == s[..|r|]
    ensures r != [] ==> !IsSpace(r[|r| - 1])
    ensures forall k :: |r| <= k < |s| ==> IsSpace(s[k])
  {
    if |s| > 0 && IsSpace(s[|s| - 1]) then TrimRightSpace(s[..|s| - 1]) else s
  }

  /** `strings.TrimSpace`: the longest infix of `s` with no white space at either end. */
  function TrimSpace(s: string): (r: string)
    ensures SpaceFreeEdges(r)
    ensures |r| <= |s|
  {
    TrimRightSpace(TrimLeftSpace(s))
  }

  lemma TrimSpaceKeeps(s: string)
    requires SpaceFreeEdges(s)
    ensures TrimSpace(s) == s
  {
  }

  /** Trimming a key followed by one blank, or one blank followed by a value, gives back the key or the value. */
  lemma TrimSpaceAround(s: string)
    requires s != [] && SpaceFreeEdges(s)
    ensures TrimSpace(s + " ") == s
    ensures TrimSpace(" " + s) == s
  {
    assert TrimLeftSpace(s + " ") == s + " ";
    assert (s + " ")[..|s + " "| - 1] == s;
    assert (" " + s)[1..] == s;
  }

  predicate HasPrefix(s: string, p: string)
  {
    |p| <= |s| && s[..|p|] == p
  }

  /** Two strings that differ at an index both have: the first does not start with the second. */
  lemma DiffersAt(s: string, p: string, k: nat)
    requires k < |p| && k < |s| && s[k] != p[k]
    ensures !HasPrefix(s, p)
  {
    assert |p| > |s| || s[..|p|][k] != p[k];
  }

  predicate HasSuffix(s: string, p: string)
  {
    |p| <= |s| && s[|s| - |p|..] == p
  }

  function TrimLeftChar(s: string, c: char): (r: string)
    ensures |r| <= |s| && r == s[|s| - |r|..]
    ensures r != [] ==> r[0] != c
  {
    if |s| > 0 && s[0] == c then TrimLeftChar(s[1..], c) else s
  }

  function TrimRightChar(s: string, c: char): (r: string)
    ensures |r| <= |s| && r == s[..|r|]
    ensures r != [] ==> r[|r| - 1] != c
  {
    if |s| > 0 && s[|s| - 1] == c then TrimRightChar(s[..|s| - 1], c) else s
  }

  /** `strings.Trim(s, "\"")`: every leading and every trailing double quote removed. */
  function TrimQuotes(s: string): (r: string)
    ensures r == [] || (r[0] != '"' && r[|r| - 1] != '"')
  {
    TrimRightChar(TrimLeftChar(s, '"'), '"')
  }

  /** A string that survives being written between double quotes and read back. */
  predicate Quotable(s: string)
  {
    '\n' !in s && (s == [] || (s[0] != '"' && s[|s| - 1] != '"'))
  }

  function Quote(s: string): string
  {
    "\"" + s + "\""
  }

  /** The value rule of the config reader: a value that starts and ends with a quote loses all its edge quotes. */
  function Unquote(v: string): string
  {
    if HasPrefix(v, "\"") && HasSuffix(v, "\"") then TrimQuotes(v) else v
  }

  lemma UnquoteQuote(s: string)
    requires Quotable(s)
    ensures Unquote(Quote(s)) == s
  {
    var q := Quote(s);
    assert HasPrefix(q, "\"") && HasSuffix(q, "\"") by {
      assert q[..1] == "\"" && q[|q| - 1..] == "\"";
    }
    if s == [] {
      assert q == ['"', '"'];
      assert TrimLeftChar(q, '"') == "";
    } else {
      TrimLeftQuote(s);
      TrimRightQuote(s);
    }
  }

  lemma TrimLeftQuote(s: string)
    requires s != [] && s[0] != '"'
    ensures TrimLeftChar(Quote(s), '"') == s + "\""
  {
    var q, t := Quote(s), s + "\"";
    assert q[0] == '"';
    assert q[1..] == t;
    assert t[0] != '"';
  }

  lemma TrimRightQuote(s: string)
    requires s != [] && s[|s| - 1] != '"'
    ensures TrimRightChar(s + "\"", '"') == s
  {
    var t := s + "\"";
    assert t[|t| - 1] == '"';
    assert t[..|t| - 1] == s;
  }

  lemma TrimQuotesKeeps(s: string)
    requires s == [] || (s[0] != '"' && s[|s| - 1] != '"')
    ensures TrimQuotes(s) == s
  {
  }

  lemma UnquoteKeeps(v: string)
    requires v == [] || v[0] != '"'
    ensures Unquote(v) == v
  {
  }

  /** The index of the first `c` in `s`. */
  function IndexOf(s: string, c: char): (r: Option<nat>)
    ensures r.None? <==> c !in s
    ensures r.Some? ==> r.value < |s| && s[r.value] == c && c !in s[..r.value]
  {
    if s == [] then None
    else if s[0] == c then Some(0)
    else match IndexOf(s[1..], c)
      case None => None
      case Some(i) => assert s[1..][..i] == s[1..i + 1]; Some(i + 1)
  }

  /** `strings.SplitN(s, string(c), 2)`: the text before the first `c` and the text after it. */
  function SplitOnce(s: string, c: char): (r: Option<(string, string)>)
    ensures r.None? <==> c !in s
    ensures r.Some? ==> s == r.value.0 + [c] + r.value.1 && c !in r.value.0
  {
    match IndexOf(s, c)
    case None => None
    case Some(i) => assert s == s[..i] + [c] + s[i + 1..]; Some((s[..i], s[i + 1..]))
  }

  lemma SplitOnceAt(a: string, c: char, b: string)
    requires c !in a
    ensures SplitOnce(a + [c] + b, c) == Some((a, b))
  {
    var s := a + [c] + b;
    IndexOfAt(a, c, b);
    assert s[..|a|] == a;
    assert s[|a| + 1..] == b;
  }

  lemma {:induction false} IndexOfAt(a: string, c: char, b: string)
    requires c !in a
    ensures IndexOf(a + [c] + b, c) == Some(|a|)
  {
    if a != [] {
      assert (a + [c] + b)[1..] == a[1..] + [c] + b;
      IndexOfAt(a[1..], c, b);
    }
  }

  /** `strings.Split(s, string(c))`, which is also JavaScript's `s.split(c)`. */
  function Split(s: string, c: char): (r: seq<string>)
    ensures |r| >= 1
    ensures forall p :: p in r ==> c !in p
    decreases |s|
  {
    match SplitOnce(s, c)
    case None => [s]
    case Some((a, b)) => [a] + Split(b, c)
  }

  /** The pieces glued back together with `c` between them. */
  function Join(parts: seq<string>, c: char): string
  {
    if |parts| == 0 then ""
    else if |parts| == 1 then parts[0]
    else parts[0] + [c] + Join(parts[1..], c)
  }

  lemma {:induction false} JoinSplit(s: string, c: char)
    ensures Join(Split(s, c), c) == s
    decreases |s|
  {
    match SplitOnce(s, c)
    case None =>
    case Some((a, b)) =>
      JoinSplit(b, c);
  }

  lemma {:induction false} SplitJoin(parts: seq<string>, c: char)
    requires |parts| >= 1
    requires forall p :: p in parts ==> c !in p
    ensures Split(Join(parts, c), c) == parts
  {
    if |parts| > 1 {
      SplitOnceAt(parts[0], c, Join(parts[1..], c));
      SplitJoin(parts[1..], c);
    }
  }

  /** Each line followed by a newline: what writing the lines one after the other produces. */
  function Unlines(lines: seq<string>): string
  {
    if lines == [] then "" else lines[0] + "\n" + Unlines(lines[1..])
  }

  lemma {:induction false} UnlinesAppend(a: seq<string>, b: seq<string>)
    ensures Unlines(a + b) == Unlines(a) + Unlines(b)
  {
    if a != [] {
      assert (a + b)[1..] == a[1..] + b;
      UnlinesAppend(a[1..], b);
    } else {
      assert a + b == b;
    }
  }

  lemma {:induction false} SplitUnlines(lines: seq<string>)
    requires forall l :: l in lines ==> '\n' !in l
    ensures Split(Unlines(lines), '\n') == lines + [""]
  {
    if lines != [] {
      SplitOnceAt(lines[0], '\n', Unlines(lines[1..]));
      SplitUnlines(lines[1..]);
      assert lines + [""] == [lines[0]] + (lines[1..] + [""]);
    } else {
      assert SplitOnce("", '\n').None?;
    }
  }

  /** The length of the longest prefix of `s` without white space. */
  function WordLength(s: string): (n: nat)
    ensures n <= |s| && NoSpace(s[..n])
    ensures n < |s| ==> IsSpace(s[n])
  {
    if s == [] || IsSpace(s[0]) then 0
    else
      var m := WordLength(s[1..]);
      assert s[..m + 1] == [s[0]] + s[1..][..m];
      m + 1
  }

  /** `strings.Fields`: the maximal runs of non-space characters, in order. */
  function Fields(s: string): (r: seq<string>)
    ensures forall t :: t in r ==> t != "" && NoSpace(t)
    decreases |s|
  {
    var t := TrimLeftSpace(s);
    if t == [] then []
    else
      var n := WordLength(t);
      [t[..n]] + Fields(t[n..])
  }

  lemma {:induction false} FieldsOfWords(ts: seq<string>)
    requires forall t :: t in ts ==> t != "" && NoSpace(t)
    ensures Fields(Join(ts, ' ')) == ts
    decreases |ts|
  {
    if |ts| == 1 {
      assert ts[0] in ts;
      FieldsOfWord(ts[0]);
    } else if |ts| > 1 {
      var head, tail := ts[0], ts[1..];
      assert head in ts;
      assert forall t :: t in tail ==> t in ts;
      assert Join(ts, ' ') == head + [' '] + Join(tail, ' ');
      FieldsCons(head, Join(tail, ' '));
      FieldsOfWords(tail);
      assert ts == [head] + tail;
    }
  }

  lemma FieldsOfWord(t: string)
    requires t != "" && NoSpace(t)
    ensures Fields(t) == [t]
  {
    assert TrimLeftSpace(t) == t;
    WordLengthOfWord(t, "");
    assert t + "" == t;
    assert t[|t|..] == "";
  }

  lemma FieldsCons(t: string, rest: string)
    requires t != "" && NoSpace(t)
    ensures Fields(t + [' '] + rest) == [t] + Fields(rest)
  {
    var s := t + [' '] + rest;
    assert s[0] == t[0];
    assert TrimLeftSpace(s) == s;
    assert s == t + (" " + rest);
    WordLengthOfWord(t, " " + rest);
    assert s[..|t|] == t;
    assert s[|t|..] == " " + rest;
    FieldsSkipsSpace(rest);
  }

  lemma WordLengthOfWord(t: string, rest: string)
    requires t != "" && NoSpace(t)
    requires rest == [] || IsSpace(rest[0])
    ensures WordLength(t + rest) == |t|
    decreases |t|
  {
    if |t| > 1 {
      assert (t + rest)[1..] == t[1..] + rest;
      WordLengthOfWord(t[1..], rest);
    } else {
      assert (t + rest)[1..] == rest;
    }
  }

  /** Leading white space does not change the fields of a string. */
  lemma FieldsSkipsSpace(rest: string)
    ensures Fields(" " + rest) == Fields(rest)
  {
    assert (" " + rest)[1..] == rest;
    assert TrimLeftSpace(" " + rest) == TrimLeftSpace(rest);
    assert TrimLeftSpace(TrimLeftSpace(rest)) == TrimLeftSpace(rest);
  }

  /** The non-empty elements of `parts`, in order: JavaScript's `filter(arg => arg.length > 0)`. */
  function DropEmpty(parts: seq<string>): (r: seq<string>)
    ensures forall t :: t in r ==> t in parts && t != ""
    ensures forall t :: t in parts && t != "" ==> t in r
  {
    if parts == [] then []
    else if parts[0] == "" then DropEmpty(parts[1..])
    else [parts[0]] + DropEmpty(parts[1..])
  }

  lemma {:induction false} DropEmptyKeeps(parts: seq<string>)
    requires forall t :: t in parts ==> t != ""
    ensures DropEmpty(parts) == parts
  {
    if parts != [] {
      assert parts[0] in parts;
      assert forall t :: t in parts[1..] ==> t in parts;
      DropEmptyKeeps(parts[1..]);
      assert parts == [parts[0]] + parts[1..];
    }
  }

  // ---- numbers ----

  predicate IsDigit(c: char)
  {
    '0' <= c <= '9'
  }

  predicate AllDigits(s: string)
  {
    forall k :: 0 <= k < |s| ==> IsDigit(s[k])
  }

  /** The number written by a string of decimal digits. */
  function DecimalValue(s: string): nat
    requires AllDigits(s)
  {
    if s == [] then 0 else DecimalValue(s[..|s| - 1]) * 10 + ((s[|s| - 1] as int) - ('0' as int))
  }

  /** `strconv.Atoi`: an optional sign, at least one decimal digit, nothing else, within int64. */
  function Atoi(s: string): (r: Option<Int64>)
    ensures r.Some? ==> s != [] && IsDigit(s[|s| - 1])
    ensures r.Some? ==> IsDigit(s[0]) || s[0] == '-' || s[0] == '+'
  {
    var body := if |s| > 0 && (s[0] == '-' || s[0] == '+') then s[1..] else s;
    if body == [] || !AllDigits(body) then None
    else
      var d: int := DecimalValue(body);
      var v := if s[0] == '-' then -d else d;
      if -0x8000_0000_0000_0000 <= v <= 0x7FFF_FFFF_FFFF_FFFF then Some(v) else None
  }

  /** The decimal digits of `n`, most significant first, with no leading zero. */
  function Digits(n: nat): (r: string)
    ensures r != [] && AllDigits(r) && DecimalValue(r) == n
    ensures r[0] != '0' || n == 0
  {
    var d := [(('0' as int) + n % 10) as char];
    if n < 10 then d
    else
      var r := Digits(n / 10) + d;
      assert r[..|r| - 1] == Digits(n / 10);
      r
  }

  /** The `%d` verb of `fmt`: an optional minus sign, then digits. */
  function FormatInt(n: int): (r: string)
    ensures r != [] && (IsDigit(r[0]) || r[0] == '-') && (r[0] == '-' <==> n < 0)
    ensures forall k :: 0 < k < |r| ==> IsDigit(r[k])
    ensures IsDigit(r[|r| - 1])
  {
    if n < 0 then "-" + Digits(-n) else Digits(n)
  }

  lemma AtoiFormatInt(n: Int64)
    ensures Atoi(FormatInt(n)) == Some(n)
  {
    var s := FormatInt(n);
    var m: int := n;
    if m < 0 {
      var d := Digits(-m);
      assert s == "-" + d;
      assert s[0] == '-' && s[1..] == d;
      assert DecimalValue(d) == -m;
    } else {
      var d := Digits(n);
      assert s == d && IsDigit(s[0]);
      assert DecimalValue(d) == n;
    }
  }

  /** JavaScript's `parseInt(s)` in base 10: leading blanks, a sign, then the longest run of digits; `None` is NaN. */
  function ParseIntJs(s: string): (r: Option<int>)
    ensures r.Some? ==> exists k :: 0 <= k < |s| && IsDigit(s[k])
    decreases |s|
  {
    if |s| > 0 && IsJsSpace(s[0]) then ParseIntJs(s[1..])
    else
      var neg := |s| > 0 && s[0] == '-';
      var body := if |s| > 0 && (s[0] == '-' || s[0] == '+') then s[1..] else s;
      var n := DigitRun(body);
      if n == 0 then None
      else
        assert IsDigit(body[0]);
        var v: int := DecimalValue(body[..n]);
        Some(if neg then -v else v)
  }

  /** The length of the longest prefix of decimal digits. */
  function DigitRun(s: string): (n: nat)
    ensures n <= |s| && AllDigits(s[..n])
  {
    if s == [] || !IsDigit(s[0]) then 0
    else
      var m := DigitRun(s[1..]);
      assert s[..m + 1] == [s[0]] + s[1..][..m];
      m + 1
  }

  // ---- JavaScript text search ----

  /** `toLowerCase` on the ASCII letters. */
  function Lower(s: string): (r: string)
    ensures |r| == |s|
    ensures forall k :: 0 <= k < |s| ==> r[k] == LowerChar(s[k])
  {
    seq(|s|, k requires 0 <= k < |s| => LowerChar(s[k]))
  }

  function LowerChar(c: char): char
  {
    if 'A' <= c <= 'Z' then ((c as int) + 32) as char else c
  }

  /** `s.includes(sub)`: `sub` occurs at some position of `s`. */
  predicate Contains(s: string, sub: string)
  {
    exists i :: 0 <= i <= |s| - |sub| && OccursAt(s, sub, i)
  }

  predicate OccursAt(s: string, sub: string, i: nat)
    requires i + |sub| <= |s|
  {
    s[i..i + |sub|] == sub
  }
}
