/** The Python 2 built-in behaviour the scripts rely on: the exceptions they
    can raise, `in` on strings, `rsplit`, `split`, `join`, slicing, `int()`
    and `str()` on integers. Each function here follows the built-in's
    documented behaviour for the arguments the scripts pass. */
module Py {

  /** The exceptions a script can stop with. */
  datatype Error = IndexError | ValueError | NameError | AttributeError | TypeError | StopIteration | IOError | OSError

  datatype Option<T> = None | Some(value: T)

  /** A value, or the exception the Python code raises instead. */
  datatype Result<T> = Ok(value: T) | Err(error: Error) {
    predicate IsFailure() { Err? }
    function PropagateFailure<U>(): Result<U> requires Err? { Err(error) }
    function Extract(): T requires Ok? { value }
  }

  /** A statement that either completes or raises. */
  datatype Status = Done | Fail(error: Error)

  /** A statement's outcome agrees with the result that specifies it. */
  predicate Agrees<T>(s: Status, r: Result<T>) {
    (s.Done? <==> r.Ok?) && (s.Fail? ==> r.Err? && s.error == r.error)
  }

  /** Reading a global that may never have been assigned: NameError when unset. */
  function Defined<T>(v: Option<T>): (r: Result<T>)
    ensures r.Ok? <==> v.Some?
    ensures r.Ok? ==> r.value == v.value
  {
    match v
    case Some(x) => Ok(x)
    case None => Err(NameError)
  }

  // ---------------------------------------------------------------- strings

  /** `sub in s` */
  predicate Contains(s: string, sub: string)
    decreases |s|
  {
    sub <= s || (|s| > 0 && Contains(s[1..], sub))
  }

  /** `sub` sits at offset `i` of `s`. */
  predicate OccursAt(s: string, sub: string, i: int) {
    0 <= i <= |s| - |sub| && s[i..i + |sub|] == sub
  }

  lemma {:induction false} OccursContains(s: string, sub: string, i: nat)
    requires OccursAt(s, sub, i)
    ensures Contains(s, sub)
    decreases i
  {
    if i == 0 {
      assert s[..|sub|] == sub;
    } else {
      assert s[1..][i - 1..i - 1 + |sub|] == s[i..i + |sub|];
      OccursContains(s[1..], sub, i - 1);
    }
  }

  lemma {:induction false} ContainsFinds(s: string, sub: string)
    requires Contains(s, sub)
    ensures exists i :: OccursAt(s, sub, i)
    decreases |s|
  {
    if sub <= s {
      assert s[0..|sub|] == sub;
      assert OccursAt(s, sub, 0);
    } else {
      ContainsFinds(s[1..], sub);
      var i :| OccursAt(s[1..], sub, i);
      assert s[1..][i..i + |sub|] == s[i + 1..i + 1 + |sub|];
      assert OccursAt(s, sub, i + 1);
    }
  }

  /** `sub in s` holds exactly when `sub` occurs at some offset of `s`. */
  lemma ContainsOccurs(s: string, sub: string)
    ensures Contains(s, sub) <==> exists i :: OccursAt(s, sub, i)
  {
    if Contains(s, sub) {
      ContainsFinds(s, sub);
    }
    if exists i :: OccursAt(s, sub, i) {
      var i :| OccursAt(s, sub, i);
      OccursContains(s, sub, i);
    }
  }

  /** Every character of a contained string is in the containing one, so
      `sub` is not in `s` when one of its characters is not. */
  lemma {:induction false} ContainedChar(s: string, sub: string, k: nat)
    requires k < |sub|
    ensures Contains(s, sub) ==> sub[k] in s
    decreases |s|
  {
    if sub <= s {
      assert s[k] == sub[k];
    } else if |s| > 0 {
      ContainedChar(s[1..], sub, k);
      assert forall c :: c in s[1..] ==> c in s;
    }
  }

  /** A string that occurs inside a part occurs inside the whole. */
  lemma {:induction false} ContainsInfix(a: string, b: string, c: string, sub: string)
    requires Contains(b, sub)
    ensures Contains(a + b + c, sub)
    decreases |a| + |b|
  {
    if |a| > 0 {
      ContainsInfix(a[1..], b, c, sub);
      assert (a + b + c)[1..] == a[1..] + b + c;
    } else if sub <= b {
      assert a + b + c == b + c;
    } else {
      ContainsInfix(a, b[1..], c, sub);
      assert (a + b + c)[1..] == a + b[1..] + c;
    }
  }

  /** Index of the last occurrence of `c` in `s`. */
  function LastIndexOf(s: string, c: char): (r: Option<nat>)
    ensures r.Some? ==> r.value < |s| && s[r.value] == c && forall j :: r.value < j < |s| ==> s[j] != c
    ensures r.None? ==> c !in s
    decreases |s|
  {
    if |s| == 0 then None
    else if s[|s| - 1] == c then Some(|s| - 1)
    else
      var r := LastIndexOf(s[..|s| - 1], c);
      assert s == s[..|s| - 1] + [s[|s| - 1]];
      r
  }

  /** Index of the first occurrence of `c` in `s`. */
  function FirstIndexOf(s: string, c: char): (r: Option<nat>)
    ensures r.Some? ==> r.value < |s| && s[r.value] == c && forall j :: 0 <= j < r.value ==> s[j] != c
    ensures r.None? ==> c !in s
    decreases |s|
  {
    if |s| == 0 then None
    else if s[0] == c then Some(0)
    else
      var r := FirstIndexOf(s[1..], c);
      assert s == [s[0]] + s[1..];
      match r
      case None => None
      case Some(k) =>
        assert s[..k + 1] == [s[0]] + s[1..][..k];
        Some(k + 1)
  }

  /** `s.rsplit(c, 1)`: the text before and after the last `c`, or `[s]`. */
  function RSplitOnce(s: string, c: char): (parts: seq<string>)
    ensures |parts| == 1 <==> c !in s
    ensures |parts| == 1 ==> parts[0] == s
    ensures |parts| == 2 ==> parts[0] + [c] + parts[1] == s && c !in parts[1]
    ensures 1 <= |parts| <= 2
  {
    match LastIndexOf(s, c)
    case None => [s]
    case Some(k) =>
      assert s == s[..k] + [c] + s[k + 1..];
      [s[..k], s[k + 1..]]
  }

  /** Splitting at a separator that does not occur later in the string gives back both sides. */
  lemma RSplitOnceAt(a: string, c: char, b: string)
    requires c !in b
    ensures RSplitOnce(a + [c] + b, c) == [a, b]
  {
    var s := a + [c] + b;
    assert s[|a|] == c;
    assert forall j :: |a| < j < |s| ==> s[j] == b[j - |a| - 1];
    assert s[..|a|] == a;
    assert s[|a| + 1..] == b;
  }

  /** `s[:-1]` */
  function DropLast(s: string): (r: string)
    ensures |s| > 0 ==> r + [s[|s| - 1]] == s
    ensures |s| == 0 ==> r == ""
  {
    if |s| == 0 then s else s[..|s| - 1]
  }

  /** `s[1:-1]`, the slice `str(attribute)[1:-1]` uses to drop quotes. */
  function Unquote(s: string): (r: string)
    ensures |s| >= 2 ==> [s[0]] + r + [s[|s| - 1]] == s
    ensures |s| < 2 ==> r == ""
  {
    if |s| < 2 then "" else s[1..|s| - 1]
  }

  /** `s.endswith(c)` for a one-character suffix */
  predicate EndsWith(s: string, c: char) {
    |s| > 0 && s[|s| - 1] == c
  }

  /** `sep.join(parts)` */
  function Join(parts: seq<string>, sep: string): string
    decreases |parts|
  {
    if |parts| == 0 then ""
    else if |parts| == 1 then parts[0]
    else parts[0] + sep + Join(parts[1..], sep)
  }

  /** `s.split(c)` */
  function Split(s: string, c: char): (r: seq<string>)
    ensures |r| >= 1
    decreases |s|
  {
    match FirstIndexOf(s, c)
    case None => [s]
    case Some(k) => [s[..k]] + Split(s[k + 1..], c)
  }

  /** `s.split(c, n)`: at most `n` splits, the rest left whole in the last field. */
  function SplitN(s: string, c: char, n: nat): (r: seq<string>)
    ensures 1 <= |r| <= n + 1
    decreases n
  {
    if n == 0 then [s]
    else
      match FirstIndexOf(s, c)
      case None => [s]
      case Some(k) => [s[..k]] + SplitN(s[k + 1..], c, n - 1)
  }

  /** A field free of the separator is split off the front of the string. */
  lemma FirstIndexAt(a: string, c: char, b: string)
    requires c !in a
    ensures FirstIndexOf(a + [c] + b, c) == Some(|a|)
    ensures (a + [c] + b)[..|a|] == a && (a + [c] + b)[|a| + 1..] == b
  {
    var s := a + [c] + b;
    assert s[|a|] == c;
    assert forall j :: 0 <= j < |a| ==> s[j] == a[j];
    assert forall m :: |a| < m <= |s| ==> s[..m][|a|] == c;
    assert s[..|a|] == a;
    assert s[|a| + 1..] == b;
  }

  lemma SplitNCons(a: string, c: char, b: string, n: nat)
    requires c !in a
    ensures SplitN(a + [c] + b, c, n + 1) == [a] + SplitN(b, c, n)
  {
    FirstIndexAt(a, c, b);
  }

  /** A field free of the separator in front of an already split rest. */
  lemma SplitPrepend(x: string, c: char, rest: string, fields: seq<string>)
    requires c !in x && Split(rest, c) == fields
    ensures Split(x + [c] + rest, c) == [x] + fields
  {
    FirstIndexAt(x, c, rest);
  }

  /** Splitting the joined fields gives the fields back, when none holds the separator. */
  lemma {:induction false} SplitJoin(parts: seq<string>, c: char)
    requires |parts| > 0
    requires forall i :: 0 <= i < |parts| ==> c !in parts[i]
    ensures Split(Join(parts, [c]), c) == parts
    decreases |parts|
  {
    if |parts| == 1 {
      assert Join(parts, [c]) == parts[0];
      assert parts == [parts[0]];
    } else {
      var tail := parts[1..];
      var rest := Join(tail, [c]);
      assert Join(parts, [c]) == parts[0] + [c] + rest;
      assert forall i :: 0 <= i < |tail| ==> tail[i] == parts[i + 1];
      SplitJoin(tail, c);
      SplitPrepend(parts[0], c, rest, tail);
      assert parts == [parts[0]] + tail;
    }
  }

  /** Appending a field to a non-empty list puts one separator before it. */
  lemma {:induction false} JoinSnoc(xs: seq<string>, y: string, sep: string)
    requires |xs| > 0
    ensures Join(xs + [y], sep) == Join(xs, sep) + sep + y
    decreases |xs|
  {
    if |xs| == 1 {
      assert (xs + [y])[1..] == [y];
    } else {
      assert (xs + [y])[1..] == xs[1..] + [y];
      JoinSnoc(xs[1..], y, sep);
    }
  }

  /** Joining a field onto a non-empty list puts one separator between them. */
  lemma JoinCons(x: string, xs: seq<string>, sep: string)
    requires |xs| > 0
    ensures Join([x] + xs, sep) == x + sep + Join(xs, sep)
  {
    assert ([x] + xs)[1..] == xs;
  }

  /** A field free of the separator in front of an already split rest. */
  lemma SplitNPrepend(x: string, c: char, rest: string, n: nat, fields: seq<string>)
    requires c !in x && SplitN(rest, c, n) == fields
    ensures SplitN(x + [c] + rest, c, n + 1) == [x] + fields
  {
    SplitNCons(x, c, rest, n);
  }

  lemma SevenList<T>(f0: T, f1: T, f2: T, f3: T, f4: T, f5: T, f6: T)
    ensures [f0] + ([f1] + ([f2] + ([f3] + ([f4] + ([f5] + [f6]))))) == [f0, f1, f2, f3, f4, f5, f6]
  {
  }

  /** Splitting seven fields joined by `c` at most six times gives them back
      when none but the last holds the separator; the last may hold it. */
  lemma SplitNSeven(f0: string, f1: string, f2: string, f3: string, f4: string, f5: string, f6: string, c: char)
    requires c !in f0 && c !in f1 && c !in f2 && c !in f3 && c !in f4 && c !in f5
    ensures SplitN(f0 + [c] + (f1 + [c] + (f2 + [c] + (f3 + [c] + (f4 + [c] + (f5 + [c] + f6))))), c, 6)
            == [f0, f1, f2, f3, f4, f5, f6]
  {
    var r5 := f5 + [c] + f6;
    var r4 := f4 + [c] + r5;
    var r3 := f3 + [c] + r4;
    var r2 := f2 + [c] + r3;
    var r1 := f1 + [c] + r2;
    var l5 := [f5] + [f6];
    var l4 := [f4] + l5;
    var l3 := [f3] + l4;
    var l2 := [f2] + l3;
    var l1 := [f1] + l2;
    SplitNPrepend(f5, c, f6, 0, [f6]);
    SplitNPrepend(f4, c, r5, 1, l5);
    SplitNPrepend(f3, c, r4, 2, l4);
    SplitNPrepend(f2, c, r3, 3, l3);
    SplitNPrepend(f1, c, r2, 4, l2);
    SplitNPrepend(f0, c, r1, 5, l1);
    SevenList(f0, f1, f2, f3, f4, f5, f6);
  }

  /** `s.replace(a, b)` for single characters */
  function ReplaceChar(s: string, a: char, b: char): (r: string)
    ensures |r| == |s|
    ensures forall i :: 0 <= i < |s| ==> r[i] == if s[i] == a then b else s[i]
  {
    seq(|s|, i requires 0 <= i < |s| => if s[i] == a then b else s[i])
  }

  /** `s.lower()` on a byte string: only ASCII capitals change. */
  function Lower(s: string): (r: string)
    ensures |r| == |s|
    ensures forall i :: 0 <= i < |s| ==> r[i] == LowerChar(s[i])
  {
    seq(|s|, i requires 0 <= i < |s| => LowerChar(s[i]))
  }

  function LowerChar(c: char): char {
    if 'A' <= c <= 'Z' then (c as int - 'A' as int + 'a' as int) as char else c
  }

  // ---------------------------------------------------------------- numbers

  predicate IsDigit(c: char) { '0' <= c <= '9' }

  predicate AllDigits(s: string) { forall i :: 0 <= i < |s| ==> IsDigit(s[i]) }

  /** The whitespace that `str.strip()` and `int()` discard. */
  predicate IsSpace(c: char) {
    c == ' ' || c == '\t' || c == '\n' || c == '\r' || c == 11 as char || c == 12 as char
  }

  function DigitChar(d: nat): (c: char)
    requires d < 10
    ensures IsDigit(c)
  {
    ('0' as int + d) as char
  }

  function DigitValue(c: char): (d: nat)
    requires IsDigit(c)
    ensures d < 10 && DigitChar(d) == c
  {
    c as int - '0' as int
  }

  /** `str(n)` for n >= 0 */
  function NatToStr(n: nat): (s: string)
    ensures |s| > 0 && AllDigits(s)
    ensures s[|s| - 1] == DigitChar(n % 10)
    decreases n
  {
    if n < 10 then [DigitChar(n)] else NatToStr(n / 10) + [DigitChar(n % 10)]
  }

  /** `str(n)` */
  function IntToStr(n: int): (s: string)
    ensures |s| > 0
  {
    if n < 0 then "-" + NatToStr(-n) else NatToStr(n)
  }

  /** The value of a run of decimal digits. */
  function DigitsValue(s: string): nat
    requires AllDigits(s)
    decreases |s|
  {
    if |s| == 0 then 0 else DigitsValue(s[..|s| - 1]) * 10 + DigitValue(s[|s| - 1])
  }

  function StripLeft(s: string): (r: string)
    ensures |r| <= |s|
    decreases |s|
  {
    if |s| > 0 && IsSpace(s[0]) then StripLeft(s[1..]) else s
  }

  function StripRight(s: string): (r: string)
    ensures |r| <= |s|
    decreases |s|
  {
    if |s| > 0 && IsSpace(s[|s| - 1]) then StripRight(s[..|s| - 1]) else s
  }

  /** `s.strip()` */
  function Strip(s: string): string {
    StripRight(StripLeft(s))
  }

  /** `int(s)` on a byte string: surrounding whitespace, an optional sign and
      one or more decimal digits; anything else is a ValueError (None). */
  function ParseInt(s: string): Option<int> {
    var t := Strip(s);
    if |t| > 1 && (t[0] == '-' || t[0] == '+') && AllDigits(t[1..]) then
      var v: int := DigitsValue(t[1..]);
      Some(if t[0] == '-' then -v else v)
    else if |t| > 0 && AllDigits(t) then Some(DigitsValue(t))
    else None
  }

  /** `int(s)`, raising ValueError */
  function ToInt(s: string): (r: Result<int>)
    ensures r.Ok? <==> ParseInt(s).Some?
    ensures r.Ok? ==> r.value == ParseInt(s).value
  {
    match ParseInt(s)
    case Some(n) => Ok(n)
    case None => Err(ValueError)
  }

  lemma {:induction false} DigitsValueOfNatToStr(n: nat)
    ensures DigitsValue(NatToStr(n)) == n
    decreases n
  {
    var s := NatToStr(n);
    if n >= 10 {
      DigitsValueOfNatToStr(n / 10);
      assert s[..|s| - 1] == NatToStr(n / 10);
    }
  }

  predicate AllSpace(s: string) { forall i :: 0 <= i < |s| ==> IsSpace(s[i]) }

  lemma {:induction false} StripRightSpaces(t: string, ws: string)
    requires |t| > 0 && !IsSpace(t[|t| - 1]) && AllSpace(ws)
    ensures StripRight(t + ws) == t
    decreases |ws|
  {
    if |ws| == 0 {
      assert t + ws == t;
    } else {
      assert (t + ws)[..|t + ws| - 1] == t + ws[..|ws| - 1];
      StripRightSpaces(t, ws[..|ws| - 1]);
    }
  }

  /** `int(str(n) + ws)` is n for trailing whitespace such as the line's newline. */
  lemma ParseIntOfIntToStr(n: int, ws: string)
    requires AllSpace(ws)
    ensures ParseInt(IntToStr(n) + ws) == Some(n)
  {
    var s := IntToStr(n);
    var u := s + ws;
    assert !IsSpace(u[0]);
    assert StripLeft(u) == u;
    StripRightSpaces(s, ws);
    assert Strip(u) == s;
    if n < 0 {
      assert s[1..] == NatToStr(-n);
      DigitsValueOfNatToStr(-n);
    } else {
      DigitsValueOfNatToStr(n);
    }
  }

  // ---------------------------------------------------------------- lists

  /** `int(str(n))` is n. */
  lemma ParseIntOfIntToStrBare(n: int)
    ensures ParseInt(IntToStr(n)) == Some(n)
  {
    ParseIntOfIntToStr(n, "");
    assert IntToStr(n) + "" == IntToStr(n);
  }

  /** `xs[i]` with Python's negative indices: the position it reaches, if any. */
  function PyIndex(len: nat, i: int): (r: Option<nat>)
    ensures r.Some? ==> r.value < len && (r.value == i || r.value == len + i)
    ensures r.Some? <==> -(len as int) <= i < len
  {
    if 0 <= i < len then Some(i)
    else if -(len as int) <= i < 0 then Some(len + i)
    else None
  }

  /** `xs[i] = v` on a list: IndexError past the end. */
  function SetAt<T>(xs: seq<T>, i: nat, v: T): (r: Result<seq<T>>)
    ensures r.Ok? <==> i < |xs|
    ensures r.Ok? ==> |r.value| == |xs| && r.value[i] == v
    ensures r.Ok? ==> forall j :: 0 <= j < |xs| && j != i ==> r.value[j] == xs[j]
  {
    if i < |xs| then Ok(xs[i := v]) else Err(IndexError)
  }

  /** `os.path.join(a, b)` on POSIX */
  function PathJoin(a: string, b: string): (r: string)
    ensures |b| > 0 && b[0] == '/' ==> r == b
    ensures (|b| == 0 || b[0] != '/') && EndsWith(a, '/') ==> r == a + b
    ensures (|b| == 0 || b[0] != '/') && |a| > 0 && !EndsWith(a, '/') ==> r == a + "/" + b
    ensures (|b| == 0 || b[0] != '/') && |a| == 0 ==> r == b
  {
    if |b| > 0 && b[0] == '/' then b
    else if |a| == 0 || EndsWith(a, '/') then a + b
    else a + "/" + b
  }
}
