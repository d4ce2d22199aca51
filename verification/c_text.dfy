/**
 * The C string handling the firmware's command protocol relies on, over
 * `seq<char>`: the NUL-terminated view of a buffer, the `strtok` split of a
 * received line into command and value (section 7.24.5.8 of ISO C11), `atoi`
 * (section 7.22.1.2 of ISO C11) and the decimal text `sprintf` writes for `%d`.
 */
module CText {

  datatype Option<T> = None | Some(value: T)

  /** Index of the first occurrence of `c` in `s`, or |s| when there is none. */
  function IndexOf(s: string, c: char): (k: nat)
    ensures k <= |s|
    ensures forall i :: 0 <= i < k ==> s[i] != c
    ensures k < |s| ==> s[k] == c
  {
    if s == [] then 0
    else if s[0] == c then 0
    else 1 + IndexOf(s[1..], c)
  }

  /** The text a `char*` designates: everything before the first NUL. */
  function CString(buffer: string): (s: string)
    ensures s <= buffer
    ensures '\0' !in s
    ensures |s| < |buffer| ==> buffer[|s|] == '\0'
  {
    buffer[..IndexOf(buffer, '\0')]
  }

  lemma CStringOfTerminated(s: string, tail: string)
    requires '\0' !in s
    ensures CString(s + ['\0'] + tail) == s
  {
    var b := s + ['\0'] + tail;
    var k := IndexOf(b, '\0');
    assert b[|s|] == '\0';
  }

  /** Drops the leading occurrences of the delimiter `d`. */
  function SkipLeading(s: string, d: char): (t: string)
    ensures |t| <= |s| && t == s[|s| - |t|..]
    ensures forall i :: 0 <= i < |s| - |t| ==> s[i] == d
    ensures t == [] || t[0] != d
  {
    if s != [] && s[0] == d then SkipLeading(s[1..], d) else s
  }

  /**
   * One call of `strtok` with the single delimiter `d` on the text `s`: the token
   * (a null pointer when only delimiters remain) and the text where the next call
   * with a null first argument resumes.
   */
  function Strtok(s: string, d: char): (r: (Option<string>, string))
    ensures r.0.None? <==> forall i :: 0 <= i < |s| ==> s[i] == d
    ensures r.0.Some? ==> |r.0.value| > 0 && d !in r.0.value
    ensures r.0.None? ==> r.1 == []
  {
    var t := SkipLeading(s, d);
    if t == [] then (None, [])
    else
      var k := IndexOf(t, d);
      (Some(t[..k]), if k < |t| then t[k + 1..] else [])
  }

  datatype SplitLine = SplitLine(command: Option<string>, value: Option<string>)

  /**
   * `parseRXLine`: `command = strtok(buffer, ":")` then `value = strtok(NULL, "\n")`.
   * The command is the first run of characters other than ':'; the value is what
   * follows the ':' that ends it, with leading newlines skipped, up to the next newline.
   */
  function ParseRXLine(line: string): (r: SplitLine)
    ensures r.command.None? <==> forall i :: 0 <= i < |line| ==> line[i] == ':'
    ensures r.command.Some? ==> |r.command.value| > 0 && ':' !in r.command.value
    ensures r.value.Some? ==> r.command.Some? && |r.value.value| > 0 && '\n' !in r.value.value
  {
    var first := Strtok(line, ':');
    var second := Strtok(first.1, '\n');
    assert first.0.None? ==> first.1 == [] && second.0.None?;
    SplitLine(first.0, second.0)
  }

  /** A line with no ':' is taken whole (newline included) as the command, with no value. */
  lemma ParseLineWithoutColon(line: string)
    requires line != [] && ':' !in line
    ensures ParseRXLine(line) == SplitLine(Some(line), None)
  {
    StrtokWhole(line, ':');
  }

  /** A request `KEY:\n` splits into the key and no value. */
  lemma ParseReadRequest(key: string)
    requires key != [] && ':' !in key
    ensures ParseRXLine(key + ":\n") == SplitLine(Some(key), None)
  {
    assert key + ":\n" == key + [':'] + "\n";
    StrtokToken(key, ':', "\n");
    assert SkipLeading("\n", '\n') == [];
  }

  /** A command `KEY:VALUE\n` splits into the key and the value text. */
  lemma ParseWriteRequest(key: string, value: string)
    requires key != [] && ':' !in key
    requires value != [] && '\n' !in value
    ensures ParseRXLine(key + ":" + value + "\n") == SplitLine(Some(key), Some(value))
  {
    assert key + ":" + value + "\n" == key + [':'] + (value + "\n");
    StrtokToken(key, ':', value + "\n");
    assert value + "\n" == value + ['\n'] + [];
    StrtokToken(value, '\n', []);
  }

  /** A token followed by its delimiter: `strtok` returns it and resumes after the delimiter. */
  lemma StrtokToken(token: string, d: char, tail: string)
    requires token != [] && d !in token
    ensures Strtok(token + [d] + tail, d) == (Some(token), tail)
  {
    var s := token + [d] + tail;
    assert s[0] == token[0];
    assert SkipLeading(s, d) == s;
    IndexOfAfter(token, d, tail);
    assert s[..|token|] == token;
    assert s[|token| + 1..] == tail;
  }

  /** Text without the delimiter is one token, and nothing remains after it. */
  lemma StrtokWhole(s: string, d: char)
    requires s != [] && d !in s
    ensures Strtok(s, d) == (Some(s), [])
  {
    assert SkipLeading(s, d) == s;
    IndexOfAbsent(s, d);
    assert s[..|s|] == s;
  }

  lemma IndexOfAbsent(s: string, c: char)
    requires c !in s
    ensures IndexOf(s, c) == |s|
  {
  }

  lemma {:induction false} IndexOfAfter(prefix: string, c: char, tail: string)
    requires c !in prefix
    ensures IndexOf(prefix + [c] + tail, c) == |prefix|
  {
    if prefix != [] {
      assert (prefix + [c] + tail)[1..] == prefix[1..] + [c] + tail;
      assert prefix[0] in prefix;
      IndexOfAfter(prefix[1..], c, tail);
    }
  }

  // ---------------------------------------------------------------------------
  // Decimal numbers

  predicate IsDigit(c: char) { '0' <= c <= '9' }

  function DigitValue(c: char): nat
    requires IsDigit(c)
  {
    (c as int) - ('0' as int)
  }

  function DigitChar(d: nat): (c: char)
    requires d < 10
    ensures IsDigit(c) && DigitValue(c) == d
  {
    (('0' as int) + d) as char
  }

  /** Value of a run of decimal digits, most significant first. */
  function DigitsValue(ds: string): nat
    requires forall i :: 0 <= i < |ds| ==> IsDigit(ds[i])
  {
    if ds == [] then 0 else 10 * DigitsValue(ds[..|ds| - 1]) + DigitValue(ds[|ds| - 1])
  }

  /** Digits of a natural number without leading zeros ("0" for zero). */
  function NatDigits(n: nat): (ds: string)
    ensures |ds| > 0
    ensures forall i :: 0 <= i < |ds| ==> IsDigit(ds[i])
  {
    if n < 10 then [DigitChar(n)] else NatDigits(n / 10) + [DigitChar(n % 10)]
  }

  lemma {:induction false} NatDigitsValue(n: nat)
    ensures DigitsValue(NatDigits(n)) == n
  {
    if n >= 10 {
      var ds := NatDigits(n);
      assert ds[..|ds| - 1] == NatDigits(n / 10);
      NatDigitsValue(n / 10);
    }
  }

  /** The text `sprintf` writes for the conversion `%d`. */
  function Decimal(n: int): (s: string)
    ensures |s| > 0
    ensures n >= 0 <==> IsDigit(s[0])
    ensures n < 0 <==> s[0] == '-'
  {
    if n < 0 then "-" + NatDigits(-n) else NatDigits(n)
  }

  // ---------------------------------------------------------------------------
  // atoi

  /** The characters `isspace` accepts in the C locale. */
  predicate IsCSpace(c: char)
  {
    c == ' ' || c == '\t' || c == '\n' || c == '\U{B}' || c == '\U{C}' || c == '\r'
  }

  /** Length of the leading run of decimal digits. */
  function DigitRun(s: string): (k: nat)
    ensures k <= |s|
    ensures forall i :: 0 <= i < k ==> IsDigit(s[i])
    ensures k < |s| ==> !IsDigit(s[k])
  {
    if s != [] && IsDigit(s[0]) then 1 + DigitRun(s[1..]) else 0
  }

  function SkipSpace(s: string): (t: string)
    ensures |t| <= |s| && t == s[|s| - |t|..]
    ensures t == [] || !IsCSpace(t[0])
  {
    if s != [] && IsCSpace(s[0]) then SkipSpace(s[1..]) else s
  }

  /** Value of the leading run of digits (0 when there is none). */
  function LeadingNumber(s: string): nat
  {
    DigitsValue(s[..DigitRun(s)])
  }

  /**
   * `atoi`: skip white space, read an optional sign and the longest run of digits
   * after it; text without digits converts to 0.
   */
  function Atoi(s: string): int
  {
    var t := SkipSpace(s);
    if t != [] && t[0] == '-' then -(LeadingNumber(t[1..]) as int)
    else if t != [] && t[0] == '+' then LeadingNumber(t[1..])
    else LeadingNumber(t)
  }

  /** `atoi` reads back exactly the number `%d` printed. */
  lemma AtoiDecimal(n: int)
    ensures Atoi(Decimal(n)) == n
  {
    AtoiDecimalThen(n, []);
    assert Decimal(n) + [] == Decimal(n);
  }

  /** `atoi` stops at the first non-digit: a trailing newline does not change the value. */
  lemma AtoiDecimalThen(n: int, tail: string)
    requires tail == [] || !IsDigit(tail[0])
    ensures Atoi(Decimal(n) + tail) == n
  {
    var m: nat := if n < 0 then -n else n;
    var ds := NatDigits(m);
    NatDigitsValue(m);
    LeadingNumberOf(ds, tail);
    if n < 0 {
      assert Decimal(n) == "-" + ds;
      assert Decimal(n) + tail == "-" + (ds + tail);
      AtoiMinus(ds + tail);
    } else {
      assert Decimal(n) == ds;
      assert (ds + tail)[0] == ds[0];
      AtoiDigits(ds + tail);
    }
  }

  /** Text that starts with a digit converts to its leading number. */
  lemma AtoiDigits(s: string)
    requires s != [] && IsDigit(s[0])
    ensures Atoi(s) == LeadingNumber(s)
  {
    assert SkipSpace(s) == s;
  }

  /** A leading minus sign negates the number after it. */
  lemma AtoiMinus(rest: string)
    ensures Atoi("-" + rest) == -(LeadingNumber(rest) as int)
  {
    var s := "-" + rest;
    assert s[0] == '-' && !IsCSpace(s[0]);
    assert SkipSpace(s) == s;
    assert s[1..] == rest;
  }

  lemma LeadingNumberOf(ds: string, tail: string)
    requires forall i :: 0 <= i < |ds| ==> IsDigit(ds[i])
    requires tail == [] || !IsDigit(tail[0])
    ensures LeadingNumber(ds + tail) == DigitsValue(ds)
  {
    DigitRunPrefix(ds, tail);
  }

  lemma DigitRunAll(ds: string)
    requires forall i :: 0 <= i < |ds| ==> IsDigit(ds[i])
    ensures DigitRun(ds) == |ds|
  {
    DigitRunPrefix(ds, []);
    assert ds + [] == ds;
  }

  lemma {:induction false} DigitRunPrefix(ds: string, tail: string)
    requires forall i :: 0 <= i < |ds| ==> IsDigit(ds[i])
    requires tail == [] || !IsDigit(tail[0])
    ensures DigitRun(ds + tail) == |ds|
    ensures (ds + tail)[..|ds|] == ds
  {
    if ds != [] {
      assert (ds + tail)[1..] == ds[1..] + tail;
      DigitRunPrefix(ds[1..], tail);
    }
  }

  // ---------------------------------------------------------------------------
  // Replies

  /**
   * The reply a board writes into a transmit buffer: `"KEY:%d"` for a read key,
   * `"KEY:=%d"` for the acknowledgement of a write key.
   */
  function FormatReply(key: string, isWrite: bool, value: int): (s: string)
    ensures |s| > |key| + 1 && s[..|key|] == key && s[|key|] == ':'
    ensures isWrite <==> s[|key| + 1] == '='
  {
    key + ":" + (if isWrite then "=" else "") + Decimal(value)
  }
}
