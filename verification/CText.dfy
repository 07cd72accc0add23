/** C strings and the conversions that the driver takes from the kernel: decimal printing
    (%d, %llu), sscanf with %d, and kstrtoint with base 0. A byte is the char with its code. */
module CText {
  import opened Basics

  type bytes = seq<char>

  const NUL: char := '\0'
  const INT_MIN: int := -0x8000_0000
  const INT_MAX: int := 0x7fff_ffff

  predicate IsInt32(i: int) { INT_MIN <= i <= INT_MAX }

  /** Storing a wide integer into a 32-bit int keeps its low 32 bits. */
  function Wrap32(i: int): (w: int)
    ensures IsInt32(w) && (IsInt32(i) ==> w == i)
  {
    (i + 0x8000_0000) % 0x1_0000_0000 - 0x8000_0000
  }

  /** Index of the first c in b, or |b|. */
  function IndexOf(b: bytes, c: char): (k: nat)
    ensures k <= |b| && c !in b[..k]
    ensures k < |b| ==> b[k] == c
  {
    if b == [] || b[0] == c then 0
    else
      var k := 1 + IndexOf(b[1..], c);
      assert b[..k] == [b[0]] + b[1..][..k - 1];
      k
  }

  /** The C string that starts at a buffer: everything before the first NUL. */
  function CStr(b: bytes): (s: bytes)
    ensures NUL !in s && s <= b
  {
    b[..IndexOf(b, NUL)]
  }

  lemma {:induction false} IndexOfUnique(b: bytes, c: char, k: nat)
    requires k < |b| && b[k] == c && c !in b[..k]
    ensures IndexOf(b, c) == k
  {
    if k > 0 {
      assert b[..k] == [b[0]] + b[1..][..k - 1];
      IndexOfUnique(b[1..], c, k - 1);
    }
  }

  /** A C string ends at its first NUL, whatever lies beyond. */
  lemma CStrTerminated(head: bytes, tail: bytes)
    ensures CStr(head + [NUL] + tail) == CStr(head)
  {
    var b := head + [NUL] + tail;
    var k := IndexOf(head, NUL);
    assert b[..k] == head[..k];
    IndexOfUnique(b, NUL, k);
  }

  /** strncmp(a, b, n) == 0 on two memory regions: compare up to n bytes, stop at a common NUL.
      A region that ends counts as differing. */
  predicate StrNEq(a: bytes, b: bytes, n: nat)
  {
    n == 0 ||
    (a != [] && b != [] && a[0] == b[0] && (a[0] == NUL || StrNEq(a[1..], b[1..], n - 1)))
  }

  /** Against a pattern without NULs, strncmp over the pattern's length is a prefix test. */
  lemma {:induction false} StrNEqIsPrefix(a: bytes, pattern: bytes)
    requires NUL !in pattern
    ensures StrNEq(a, pattern, |pattern|) <==> pattern <= a
  {
    if pattern != [] && a != [] && a[0] == pattern[0] {
      StrNEqIsPrefix(a[1..], pattern[1..]);
      if pattern[1..] <= a[1..] {
        assert a == [a[0]] + a[1..] && pattern == [pattern[0]] + pattern[1..];
      }
    }
  }

  // ---- Printing

  function DigitChar(d: nat): (c: char)
    requires d < 10
    ensures IsDigit(c) && DigitValue(c) == d
  {
    ('0' as int + d) as char
  }

  /** %llu */
  function Dec(n: nat): (s: bytes)
    ensures s != [] && forall i :: 0 <= i < |s| ==> IsDigit(s[i])
  {
    if n < 10 then [DigitChar(n)] else Dec(n / 10) + [DigitChar(n % 10)]
  }

  /** Decimal, in words: the digits are these ten characters, and the last one is the number's remainder. */
  lemma DecInWords(n: nat, d: nat)
    requires d < 10
    ensures Dec(d) == ["0123456789"[d]]
    ensures n > 0 ==> Dec(10 * n + d) == Dec(n) + ["0123456789"[d]]
  {
    assert DigitChar(d) == "0123456789"[d];
  }

  /** %d */
  function DecInt(i: int): (s: bytes)
    ensures s != [] && (IsDigit(s[0]) || (s[0] == '-' && |s| > 1 && IsDigit(s[1])))
  {
    if i < 0 then ['-'] + Dec(-i) else Dec(i)
  }

  function Pow10(k: nat): (p: nat)
    ensures p >= 1
  {
    if k == 0 then 1 else 10 * Pow10(k - 1)
  }

  lemma {:induction false} DecLength(n: nat, k: nat)
    requires 1 <= k && n < Pow10(k)
    ensures |Dec(n)| <= k
  {
    if n >= 10 {
      assert Pow10(1) == 10 * Pow10(0) == 10;
      DecLength(n / 10, k - 1);
    }
  }

  lemma DecNoNul(n: nat)
    ensures NUL !in Dec(n)
  {
    var s := Dec(n);
    forall i | 0 <= i < |s| ensures s[i] != NUL { assert IsDigit(s[i]); }
  }

  /** A positive number is printed without a leading zero. */
  lemma {:induction false} DecLeadingDigit(n: nat)
    requires n > 0
    ensures Dec(n)[0] != '0'
  {
    if n >= 10 {
      DecLeadingDigit(n / 10);
    } else {
      assert DigitValue(Dec(n)[0]) == n;
    }
  }

  // ---- Reading digits

  predicate IsDigit(c: char) { '0' <= c <= '9' }

  /** The kernel's isspace: blank, \t \n \v \f \r and the no-break space of its ctype table. */
  predicate IsSpace(c: char)
  {
    c == ' ' || 9 <= c as int <= 13 || c as int == 160
  }

  /** Value of a digit in any base up to 16; 16 stands for "not a digit". */
  function DigitValue(c: char): (v: nat)
    ensures v <= 16 && (IsDigit(c) <==> v < 10)
  {
    if '0' <= c <= '9' then c as int - '0' as int
    else if 'a' <= c <= 'f' then c as int - 'a' as int + 10
    else if 'A' <= c <= 'F' then c as int - 'A' as int + 10
    else 16
  }

  /** Number of leading digits of s in the given base. */
  function Span(base: nat, s: bytes): (k: nat)
    requires base <= 16
    ensures k <= |s| && (forall i :: 0 <= i < k ==> DigitValue(s[i]) < base)
    ensures k < |s| ==> DigitValue(s[k]) >= base
  {
    if s == [] || DigitValue(s[0]) >= base then 0 else 1 + Span(base, s[1..])
  }

  /** Value of a run of digits. */
  function NatIn(base: nat, ds: bytes): nat
  {
    if ds == [] then 0 else NatIn(base, ds[..|ds| - 1]) * base + DigitValue(ds[|ds| - 1])
  }

  lemma {:induction false} NatOfDec(n: nat)
    ensures NatIn(10, Dec(n)) == n
  {
    if n >= 10 {
      var s := Dec(n);
      assert s[..|s| - 1] == Dec(n / 10);
      NatOfDec(n / 10);
    } else {
      var s := Dec(n);
      assert s[..0] == [] && DigitValue(s[0]) == n;
      assert NatIn(10, s) == NatIn(10, s[..0]) * 10 + DigitValue(s[0]);
    }
  }

  lemma {:induction false} SpanUnique(base: nat, s: bytes, k: nat)
    requires base <= 16 && k <= |s|
    requires forall i :: 0 <= i < k ==> DigitValue(s[i]) < base
    requires k < |s| ==> DigitValue(s[k]) >= base
    ensures Span(base, s) == k
  {
    if k > 0 {
      SpanUnique(base, s[1..], k - 1);
    }
  }

  /** A printed number is read back whole when no digit follows it. */
  lemma {:induction false} DecReadsBack(n: nat, rest: bytes)
    requires rest == [] || !IsDigit(rest[0])
    ensures Span(10, Dec(n) + rest) == |Dec(n)|
    ensures NatIn(10, (Dec(n) + rest)[..|Dec(n)|]) == n
  {
    var s := Dec(n) + rest;
    forall i | 0 <= i < |Dec(n)| ensures DigitValue(s[i]) < 10 { assert IsDigit(Dec(n)[i]); }
    SpanUnique(10, s, |Dec(n)|);
    assert s[..|Dec(n)|] == Dec(n);
    NatOfDec(n);
  }

  function Signed(neg: bool, n: int): int { if neg then -n else n }

  // ---- sscanf

  /** A format string split into its directives. */
  datatype Directive = Text(s: bytes) | Space | Int

  function SkipSpaces(s: bytes): (t: bytes)
    ensures t == [] || !IsSpace(t[0])
    ensures |t| <= |s|
  {
    if s != [] && IsSpace(s[0]) then SkipSpaces(s[1..]) else s
  }

  /** sprintf with as many arguments as %d directives. */
  function Print(fmt: seq<Directive>, args: seq<int>): bytes
  {
    if fmt == [] then []
    else match fmt[0]
      case Text(s) => s + Print(fmt[1..], args)
      case Space => [' '] + Print(fmt[1..], args)
      case Int => if args == [] then [] else DecInt(args[0]) + Print(fmt[1..], args[1..])
  }

  function ScanDigits(neg: bool, u: bytes): Option<(int, bytes)>
  {
    var k := Span(10, u);
    if k == 0 then None else Some((Wrap32(Signed(neg, NatIn(10, u[..k]))), u[k..]))
  }

  /** One %d conversion: optional minus, at least one digit; the value and the rest of the input. */
  function ScanInt(s: bytes): Option<(int, bytes)>
  {
    var t := SkipSpaces(s);
    if t != [] && t[0] == '-' then ScanDigits(true, t[1..]) else ScanDigits(false, t)
  }

  /** sscanf: the values converted before the first mismatch. */
  function Scan(fmt: seq<Directive>, s: bytes): seq<int>
  {
    if fmt == [] then []
    else match fmt[0]
      case Text(t) => if t <= s then Scan(fmt[1..], s[|t|..]) else []
      case Space => Scan(fmt[1..], SkipSpaces(s))
      case Int =>
        match ScanInt(s)
        case None => []
        case Some(r) => [r.0] + Scan(fmt[1..], r.1)
  }

  lemma {:induction false} ScanGivesInts(fmt: seq<Directive>, s: bytes)
    ensures forall i :: 0 <= i < |Scan(fmt, s)| ==> IsInt32(Scan(fmt, s)[i])
  {
    if fmt != [] {
      match fmt[0] {
        case Text(t) => if t <= s { ScanGivesInts(fmt[1..], s[|t|..]); }
        case Space => ScanGivesInts(fmt[1..], SkipSpaces(s));
        case Int =>
          var r := ScanInt(s);
          if r.Some? { ScanGivesInts(fmt[1..], r.value.1); }
      }
    }
  }

  /** A %d or a blank is followed by a literal that cannot be taken for more of it. */
  predicate DelimitedAt(fmt: seq<Directive>, i: nat)
    requires i < |fmt|
  {
    match fmt[i]
    case Text(t) => t != []
    case Int => i + 1 < |fmt| ==> fmt[i + 1].Text? && fmt[i + 1].s != [] && !IsDigit(fmt[i + 1].s[0])
    case Space => i + 1 < |fmt| && fmt[i + 1].Text? && fmt[i + 1].s != [] && !IsSpace(fmt[i + 1].s[0])
  }

  predicate Delimited(fmt: seq<Directive>)
  {
    forall i :: 0 <= i < |fmt| ==> DelimitedAt(fmt, i)
  }

  lemma DelimitedTail(fmt: seq<Directive>)
    requires Delimited(fmt) && fmt != []
    ensures Delimited(fmt[1..])
  {
    forall i | 0 <= i < |fmt| - 1 ensures DelimitedAt(fmt[1..], i) {
      assert DelimitedAt(fmt, i + 1);
    }
  }

  function Holes(fmt: seq<Directive>): nat
  {
    if fmt == [] then 0 else (if fmt[0].Int? then 1 else 0) + Holes(fmt[1..])
  }

  function WrapAll(args: seq<int>): (r: seq<int>)
    ensures |r| == |args| && forall i :: 0 <= i < |r| ==> r[i] == Wrap32(args[i])
  {
    seq(|args|, i requires 0 <= i < |args| => Wrap32(args[i]))
  }

  lemma {:induction false} ScanDigitsOfDec(neg: bool, n: nat, rest: bytes)
    requires rest == [] || !IsDigit(rest[0])
    ensures ScanDigits(neg, Dec(n) + rest) == Some((Wrap32(Signed(neg, n)), rest))
  {
    DecReadsBack(n, rest);
    assert (Dec(n) + rest)[|Dec(n)|..] == rest;
  }

  lemma ScanIntNegative(u: bytes)
    ensures ScanInt(['-'] + u) == ScanDigits(true, u)
  {
    assert SkipSpaces(['-'] + u) == ['-'] + u;
    assert (['-'] + u)[1..] == u;
  }

  lemma ScanIntPlain(u: bytes)
    requires u != [] && IsDigit(u[0])
    ensures ScanInt(u) == ScanDigits(false, u)
  {
  }

  lemma {:induction false} ScanIntOfDecInt(a: int, rest: bytes)
    requires rest == [] || !IsDigit(rest[0])
    ensures ScanInt(DecInt(a) + rest) == Some((Wrap32(a), rest))
  {
    var m: nat := if a < 0 then -a else a;
    var u := Dec(m) + rest;
    ScanDigitsOfDec(a < 0, m, rest);
    if a < 0 {
      assert DecInt(a) + rest == ['-'] + u;
      ScanIntNegative(u);
    } else {
      ScanIntPlain(u);
    }
  }

  lemma {:induction false} ScanSpace(rest: seq<Directive>, p: bytes)
    requires p != [] && !IsSpace(p[0])
    ensures Scan([Space] + rest, [' '] + p) == Scan(rest, p)
  {
    assert ([' '] + p)[1..] == p;
    assert SkipSpaces(p) == p;
    assert ([Space] + rest)[1..] == rest;
  }

  lemma {:induction false} ScanText(t: bytes, rest: seq<Directive>, p: bytes)
    ensures Scan([Text(t)] + rest, t + p) == Scan(rest, p)
  {
    assert t <= t + p && (t + p)[|t|..] == p;
    assert ([Text(t)] + rest)[1..] == rest;
  }

  lemma {:induction false} ScanOneInt(rest: seq<Directive>, a: int, p: bytes)
    requires p == [] || !IsDigit(p[0])
    ensures Scan([Int] + rest, DecInt(a) + p) == [Wrap32(a)] + Scan(rest, p)
  {
    ScanIntOfDecInt(a, p);
    assert ([Int] + rest)[1..] == rest;
  }

  /** The first byte printed by a format whose first directive is a literal. */
  lemma PrintedHead(fmt: seq<Directive>, args: seq<int>)
    requires fmt != [] && fmt[0].Text? && fmt[0].s != []
    ensures Print(fmt, args) != [] && Print(fmt, args)[0] == fmt[0].s[0]
  {
  }

  lemma {:induction false} UndoInt(rest: seq<Directive>, args: seq<int>)
    requires args != [] && Scan(rest, Print(rest, args[1..])) == WrapAll(args[1..])
    requires rest == [] || (rest[0].Text? && rest[0].s != [] && !IsDigit(rest[0].s[0]))
    ensures Scan([Int] + rest, Print([Int] + rest, args)) == WrapAll(args)
  {
    assert ([Int] + rest)[1..] == rest;
    if rest != [] { PrintedHead(rest, args[1..]); }
    ScanOneInt(rest, args[0], Print(rest, args[1..]));
    assert WrapAll(args) == [Wrap32(args[0])] + WrapAll(args[1..]);
  }

  lemma {:induction false} UndoSpace(rest: seq<Directive>, args: seq<int>)
    requires Scan(rest, Print(rest, args)) == WrapAll(args)
    requires rest != [] && rest[0].Text? && rest[0].s != [] && !IsSpace(rest[0].s[0])
    ensures Scan([Space] + rest, Print([Space] + rest, args)) == WrapAll(args)
  {
    assert ([Space] + rest)[1..] == rest;
    PrintedHead(rest, args);
    ScanSpace(rest, Print(rest, args));
  }

  lemma {:induction false} UndoText(t: bytes, rest: seq<Directive>, args: seq<int>)
    requires Scan(rest, Print(rest, args)) == WrapAll(args)
    ensures Scan([Text(t)] + rest, Print([Text(t)] + rest, args)) == WrapAll(args)
  {
    assert ([Text(t)] + rest)[1..] == rest;
    ScanText(t, rest, Print(rest, args));
  }

  /** sscanf undoes sprintf: for every delimited format and any integers, each value comes back
      as the 32-bit int that %d stores. */
  lemma {:induction false} ScanUndoesPrint(fmt: seq<Directive>, args: seq<int>)
    requires Delimited(fmt) && Holes(fmt) == |args|
    ensures Scan(fmt, Print(fmt, args)) == WrapAll(args)
  {
    if fmt != [] {
      var rest := fmt[1..];
      assert fmt == [fmt[0]] + rest;
      DelimitedTail(fmt);
      assert DelimitedAt(fmt, 0);
      ScanUndoesPrint(rest, if fmt[0].Int? then args[1..] else args);
      match fmt[0] {
        case Int => UndoInt(rest, args);
        case Space => UndoSpace(rest, args);
        case Text(t) => UndoText(t, rest, args);
      }
    }
  }

  // ---- kstrtoint(s, 0, &res)

  /** Base and digits of a number: 0x prefix, leading 0 for octal, otherwise decimal. */
  function Radix(s: bytes): (r: (nat, bytes))
    ensures r.0 in {8, 10, 16}
  {
    if |s| >= 1 && s[0] == '0' then
      if |s| >= 3 && (s[1] == 'x' || s[1] == 'X') && DigitValue(s[2]) < 16 then (16, s[2..])
      else (8, s)
    else (10, s)
  }

  /** An optional sign, digits in the detected base, at most one trailing newline. */
  function KStrToInt(s: bytes): (r: Result<int>)
    ensures match r case Ok(v) => IsInt32(v) case Err(e) => e == EINVAL || e == ERANGE
  {
    var neg := s != [] && s[0] == '-';
    var (base, ds) := Radix(if s != [] && (s[0] == '-' || s[0] == '+') then s[1..] else s);
    var k := Span(base, ds);
    var n := NatIn(base, ds[..k]);
    if n >= 0x1_0000_0000_0000_0000 then Err(ERANGE)
    else if k == 0 then Err(EINVAL)
    else if ds[k..] != [] && ds[k..] != ['\n'] then Err(EINVAL)
    else
      var v := Signed(neg, n);
      if IsInt32(v) then Ok(v) else Err(ERANGE)
  }

  /** A positive number printed in decimal reads back exactly when it fits an int. */
  lemma KStrToIntOfDec(n: nat)
    requires 0 < n
    ensures KStrToInt(Dec(n)) == if n <= INT_MAX then Ok(n) else Err(ERANGE)
  {
    var s := Dec(n);
    DecLeadingDigit(n);
    assert IsDigit(s[0]) && s[0] != '-' && s[0] != '+';
    DecReadsBack(n, []);
    assert s + [] == s;
    assert Radix(s) == (10, s);
    assert s[|s|..] == [];
  }

  /** Digits without a leading zero, and what may follow them. */
  lemma {:induction false} PlainDigits(m: nat, rest: bytes)
    requires m > 0 && (rest == [] || rest == ['\n'])
    ensures var u := Dec(m) + rest;
            Radix(u) == (10, u) && Span(10, u) == |Dec(m)| && NatIn(10, u[..|Dec(m)|]) == m && u[|Dec(m)|..] == rest &&
            IsDigit(u[0])
  {
    DecLeadingDigit(m);
    DecReadsBack(m, rest);
    var u := Dec(m) + rest;
    assert IsDigit(Dec(m)[0]) && u[0] == Dec(m)[0] && u[|Dec(m)|..] == rest;
  }

  lemma {:induction false} PlainNumber(m: nat, rest: bytes)
    requires 0 < m <= INT_MAX && (rest == [] || rest == ['\n'])
    ensures KStrToInt(Dec(m) + rest) == Ok(m)
  {
    PlainDigits(m, rest);
  }

  lemma {:induction false} AfterMinus(x: bytes, u: bytes, k: nat, v: int)
    requires x != [] && x[0] == '-' && x[1..] == u && 0 < k <= |u| && INT_MIN <= v <= 0
    requires Radix(u) == (10, u) && Span(10, u) == k && NatIn(10, u[..k]) == -v && (u[k..] == [] || u[k..] == ['\n'])
    ensures KStrToInt(x) == Ok(v)
  {
  }

  lemma {:induction false} MinusFirst(i: int, rest: bytes)
    requires i < 0
    ensures var x := DecInt(i) + rest; x != [] && x[0] == '-' && x[1..] == Dec(-i) + rest
  {
  }

  lemma {:induction false} NegativeNumber(i: int, rest: bytes)
    requires INT_MIN <= i < 0 && (rest == [] || rest == ['\n'])
    ensures KStrToInt(DecInt(i) + rest) == Ok(i)
  {
    PlainDigits(-i, rest);
    MinusFirst(i, rest);
    AfterMinus(DecInt(i) + rest, Dec(-i) + rest, |Dec(-i)|, i);
  }

  /** Any int printed in decimal reads back, also with a newline after it. */
  lemma {:induction false} KStrToIntOfDecInt(i: int, rest: bytes)
    requires IsInt32(i) && (rest == [] || rest == ['\n'])
    ensures KStrToInt(DecInt(i) + rest) == Ok(i)
  {
    if i < 0 {
      NegativeNumber(i, rest);
    } else if i > 0 {
      PlainNumber(i, rest);
    } else {
      ZeroReadsBack(rest);
    }
  }

  /** A lone zero is octal, and still zero. */
  lemma {:induction false} ZeroReadsBack(rest: bytes)
    requires rest == [] || rest == ['\n']
    ensures KStrToInt(DecInt(0) + rest) == Ok(0)
  {
    assert DigitChar(0) == '0';
    var s: bytes := ['0'];
    var t := s + rest;
    SpanUnique(8, t, 1);
    assert t[..1] == s && t[1..] == rest && s[..0] == [];
    assert NatIn(8, s) == NatIn(8, s[..0]) * 8 + DigitValue('0');
  }

  lemma KStrToIntNoDigit(s: bytes)
    requires s == [] || !(IsDigit(s[0]) || s[0] == '-' || s[0] == '+')
    ensures KStrToInt(s) == Err(EINVAL)
  {
    var (base, ds) := Radix(s);
    assert Span(base, ds) == 0;
    assert ds[..0] == [];
  }
}
