// The text functions the settings go through (Go's strings and strconv).
module Text {
  import opened Integers
  import opened Options

  function Split(s: string, sep: char): (parts: seq<string>)
    ensures |parts| > 0
  {
    if s == "" then [""]
    else
      var rest := Split(s[1..], sep);
      if s[0] == sep then [""] + rest else [[s[0]] + rest[0]] + rest[1..]
  }

  function Join(parts: seq<string>, sep: string): string
    requires |parts| > 0
  {
    if |parts| == 1 then parts[0] else parts[0] + sep + Join(parts[1..], sep)
  }

  lemma {:induction false} SplitWhole(s: string, sep: char)
    requires sep !in s
    ensures Split(s, sep) == [s]
  {
    if s != "" {
      SplitWhole(s[1..], sep);
      assert s == [s[0]] + s[1..];
    }
  }

  lemma {:induction false} SplitAt(a: string, b: string, sep: char)
    ensures Split(a + [sep] + b, sep) == Split(a, sep) + Split(b, sep)
  {
    var s := a + [sep] + b;
    if a == "" {
      assert s[1..] == b;
    } else {
      assert s[1..] == a[1..] + [sep] + b;
      SplitAt(a[1..], b, sep);
    }
  }

  lemma {:induction false} SplitJoin(parts: seq<string>, sep: char)
    requires |parts| > 0 && forall k :: 0 <= k < |parts| ==> sep !in parts[k]
    ensures Split(Join(parts, [sep]), sep) == parts
  {
    SplitWhole(parts[0], sep);
    if |parts| > 1 {
      SplitAt(parts[0], Join(parts[1..], [sep]), sep);
      SplitJoin(parts[1..], sep);
      assert parts == [parts[0]] + parts[1..];
    } else {
      assert parts == [parts[0]];
    }
  }

  // unicode.IsSpace.
  predicate IsSpace(c: char) {
    || '\t' <= c <= '\r' || c == ' ' || c as int == 0x85 || c as int == 0xA0 || c as int == 0x1680
    || 0x2000 <= c as int <= 0x200A || c as int == 0x2028 || c as int == 0x2029 || c as int == 0x202F
    || c as int == 0x205F || c as int == 0x3000
  }

  function TrimLeft(s: string): string {
    if s != "" && IsSpace(s[0]) then TrimLeft(s[1..]) else s
  }

  function TrimRight(s: string): string {
    if s != "" && IsSpace(s[|s| - 1]) then TrimRight(s[..|s| - 1]) else s
  }

  function TrimSpace(s: string): string {
    TrimRight(TrimLeft(s))
  }

  predicate AllSpaces(s: string) {
    forall k :: 0 <= k < |s| ==> IsSpace(s[k])
  }

  lemma {:induction false} TrimLeftTakes(s: string) returns (a: string)
    ensures s == a + TrimLeft(s) && AllSpaces(a)
    ensures TrimLeft(s) != "" ==> !IsSpace(TrimLeft(s)[0])
  {
    hide IsSpace;
    if s != "" && IsSpace(s[0]) {
      var b := TrimLeftTakes(s[1..]);
      a := [s[0]] + b;
      assert s == [s[0]] + s[1..];
    } else {
      a := "";
    }
  }

  lemma {:induction false} TrimRightTakes(s: string) returns (b: string)
    ensures s == TrimRight(s) + b && AllSpaces(b)
    ensures TrimRight(s) != "" ==> !IsSpace(TrimRight(s)[|TrimRight(s)| - 1]) && TrimRight(s)[0] == s[0]
  {
    hide IsSpace;
    if s != "" && IsSpace(s[|s| - 1]) {
      var a := TrimRightTakes(s[..|s| - 1]);
      b := a + [s[|s| - 1]];
      assert s == s[..|s| - 1] + [s[|s| - 1]];
    } else {
      b := "";
    }
  }

  // Trimming takes away spaces at both ends, and all of them.
  lemma TrimSpaceTakes(s: string) returns (a: string, b: string)
    ensures s == a + TrimSpace(s) + b && AllSpaces(a) && AllSpaces(b)
    ensures TrimSpace(s) != "" ==> !IsSpace(TrimSpace(s)[0]) && !IsSpace(TrimSpace(s)[|TrimSpace(s)| - 1])
  {
    hide IsSpace, TrimLeft, TrimRight;
    a := TrimLeftTakes(s);
    b := TrimRightTakes(TrimLeft(s));
  }

  // So text that neither begins nor ends with a space comes out of any padding.
  lemma TrimPadded(a: string, s: string, b: string)
    requires AllSpaces(a) && AllSpaces(b) && s != "" && !IsSpace(s[0]) && !IsSpace(s[|s| - 1])
    ensures TrimSpace(a + s + b) == s
  {
    hide IsSpace;
    assert a + s + b == a + (s + b);
    TrimLeftOff(a, s + b);
    TrimRightOff(s, b);
  }

  lemma {:induction false} TrimLeftOff(a: string, s: string)
    requires AllSpaces(a) && s != "" && !IsSpace(s[0])
    ensures TrimLeft(a + s) == s
  {
    hide IsSpace;
    if a == "" {
      assert a + s == s;
    } else {
      assert (a + s)[1..] == a[1..] + s;
      TrimLeftOff(a[1..], s);
    }
  }

  lemma {:induction false} TrimRightOff(s: string, b: string)
    requires AllSpaces(b) && s != "" && !IsSpace(s[|s| - 1])
    ensures TrimRight(s + b) == s
  {
    hide IsSpace;
    if b == "" {
      assert s + b == s;
    } else {
      assert (s + b)[..|s + b| - 1] == s + b[..|b| - 1];
      TrimRightOff(s, b[..|b| - 1]);
    }
  }

  // What a keyboard makes of spaces, and what it does not.
  lemma Blanks(c: char)
    ensures c == ' ' || c == '\t' || c == '\r' || c == '\n' ==> IsSpace(c)
    ensures '!' <= c <= '~' ==> !IsSpace(c)
  {
  }

  predicate IsDigit(c: char) {
    '0' <= c <= '9'
  }

  predicate AllDigits(s: string) {
    forall k :: 0 <= k < |s| ==> IsDigit(s[k])
  }

  function Digit(c: char): nat
    requires IsDigit(c)
  {
    c as int - '0' as int
  }

  function DigitChar(n: nat): (c: char)
    requires n < 10
    ensures IsDigit(c) && Digit(c) == n
  {
    (n + '0' as int) as char
  }

  function Itoa(n: nat): (s: string)
    ensures s != "" && AllDigits(s)
  {
    if n < 10 then [DigitChar(n)] else Itoa(n / 10) + [DigitChar(n % 10)]
  }

  function Decimal(s: string): nat
    requires AllDigits(s)
  {
    if s == "" then 0 else 10 * Decimal(s[..|s| - 1]) + Digit(s[|s| - 1])
  }

  lemma {:induction false} DecimalOfItoa(n: nat)
    ensures Decimal(Itoa(n)) == n
  {
    var s := Itoa(n);
    if n >= 10 {
      assert s[..|s| - 1] == Itoa(n / 10);
      DecimalOfItoa(n / 10);
    }
  }

  // To the base ten.
  lemma DecimalIs(a: char, b: char, c: char)
    requires IsDigit(a) && IsDigit(b) && IsDigit(c)
    ensures Decimal([a, b, c]) == 100 * Digit(a) + 10 * Digit(b) + Digit(c)
    ensures Digit('0') == 0 && Digit('9') == 9
  {
    assert [a, b, c][..2] == [a, b] && [a, b][..1] == [a];
    assert Decimal([a]) == Digit(a) && Decimal([a, b]) == 10 * Decimal([a]) + Digit(b);
  }

  // strconv.Atoi on a 64-bit machine: an optional sign and digits, in range.
  function Atoi(s: string): Option<int> {
    var signed := s != "" && (s[0] == '-' || s[0] == '+');
    var digits := if signed then s[1..] else s;
    if digits == "" || !AllDigits(digits) then None
    else
      var n: int := Decimal(digits);
      var v := if signed && s[0] == '-' then -n else n;
      if -(TWO_TO_THE_63 as int) <= v < TWO_TO_THE_63 then Some(v) else None
  }

  lemma AtoiOfItoa(n: nat)
    ensures Atoi(Itoa(n)) == if n < TWO_TO_THE_63 then Some(n) else None
  {
    DecimalOfItoa(n);
    assert IsDigit(Itoa(n)[0]);
  }

  // And so does any string of digits, with a sign or without; nothing else reads
  // as a number.
  lemma AtoiReads(s: string)
    requires s != "" && AllDigits(s)
    ensures var n: int := Decimal(s);
            && Atoi(s) == (if n < TWO_TO_THE_63 then Some(n) else None)
            && Atoi("+" + s) == Atoi(s)
            && Atoi("-" + s) == (if n <= TWO_TO_THE_63 then Some(-n) else None)
  {
    hide Atoi;
    AtoiUnsigned(s);
    AtoiSigned('+', s);
    AtoiSigned('-', s);
    assert "+" + s == ['+'] + s && "-" + s == ['-'] + s;
  }

  lemma AtoiUnsigned(s: string)
    requires s != "" && AllDigits(s)
    ensures var n: int := Decimal(s);
            Atoi(s) == if n < TWO_TO_THE_63 then Some(n) else None
  {
    hide Decimal;
    assert IsDigit(s[0]);
  }

  lemma AtoiSigned(c: char, s: string)
    requires s != "" && AllDigits(s) && (c == '+' || c == '-')
    ensures var n: int := Decimal(s);
            var v := if c == '-' then -n else n;
            Atoi([c] + s) == if v < TWO_TO_THE_63 && -v <= TWO_TO_THE_63 then Some(v) else None
  {
    hide Decimal;
    assert ([c] + s)[1..] == s;
  }

  lemma AtoiNeedsDigits(s: string)
    requires Atoi(s).Some?
    ensures s != "" && (IsDigit(s[0]) || s[0] == '-' || s[0] == '+') && AllDigits(s[1..])
    ensures !IsDigit(s[0]) ==> s[1..] != ""
  {
    hide Decimal;
    if s[0] != '-' && s[0] != '+' {
      assert AllDigits(s);
    }
  }

  lemma TrimDigits(s: string)
    requires AllDigits(s) && s != ""
    ensures TrimSpace(s) == s && ',' !in s
  {
    assert IsDigit(s[0]) && IsDigit(s[|s| - 1]);
  }

  // The lines of a file; a final newline ends the last one.
  function Lines(s: string): seq<string> {
    WithoutEmptyEnd(Split(s, '\n'))
  }

  function WithoutEmptyEnd(parts: seq<string>): seq<string>
    requires parts != []
  {
    if parts[|parts| - 1] == "" then parts[..|parts| - 1] else parts
  }

  lemma EmptyEndDropped(parts: seq<string>, line: string)
    ensures WithoutEmptyEnd(parts + [line, ""]) == parts + [line]
  {
  }
}
