/**
 * The host side of the reply protocol, as the Raspberry Pi scripts read a
 * board's answers: `StringToBytes` for the I2C payload, `parseValueStr` for
 * the value field of a reply and `tryValueInt` for its integer.
 *
 * Python's `str.split`, `str.replace` and `int` appear as the functions
 * `Split`, `Without` and `TryValueInt`.
 */
module HostReply {
  import opened CText

  // ---------------------------------------------------------------------------
  // str.split and str.replace

  /** `s.split(sep)`: the pieces between separators, in order; `n` separators give `n + 1` pieces. */
  function Split(s: string, sep: char): (parts: seq<string>)
    ensures |parts| >= 1
    ensures forall i :: 0 <= i < |parts| ==> sep !in parts[i]
    decreases |s|
  {
    if s == [] then [[]]
    else
      var rest := Split(s[1..], sep);
      if s[0] == sep then [[]] + rest else [[s[0]] + rest[0]] + rest[1..]
  }

  /** `sep.join(parts)`. */
  function Join(parts: seq<string>, sep: char): string
    requires |parts| >= 1
    decreases |parts|
  {
    if |parts| == 1 then parts[0] else parts[0] + [sep] + Join(parts[1..], sep)
  }

  /** Splitting and joining on the same separator gives back the text. */
  lemma {:induction false} JoinSplit(s: string, sep: char)
    ensures Join(Split(s, sep), sep) == s
    decreases |s|
  {
    if s != [] {
      var rest := Split(s[1..], sep);
      JoinSplit(s[1..], sep);
      if s[0] == sep {
        assert Split(s, sep)[1..] == rest;
        assert s == [sep] + s[1..];
      } else if |rest| == 1 {
        assert s == [s[0]] + s[1..];
      } else {
        var parts := Split(s, sep);
        assert parts[1..] == rest[1..];
        assert Join(rest, sep) == rest[0] + [sep] + Join(rest[1..], sep);
        assert s == [s[0]] + s[1..];
      }
    }
  }

  /** Text without the separator is one piece. */
  lemma {:induction false} SplitWhole(s: string, sep: char)
    requires sep !in s
    ensures Split(s, sep) == [s]
    decreases |s|
  {
    if s != [] {
      SplitWhole(s[1..], sep);
      assert [s[0]] + s[1..] == s;
    }
  }

  /** The first piece ends at the first separator. */
  lemma {:induction false} SplitFirst(a: string, sep: char, b: string)
    requires sep !in a
    ensures Split(a + [sep] + b, sep) == [a] + Split(b, sep)
    decreases |a|
  {
    var s := a + [sep] + b;
    if a == [] {
      assert s[1..] == b;
    } else {
      assert s[1..] == a[1..] + [sep] + b;
      SplitFirst(a[1..], sep, b);
      assert [a[0]] + a[1..] == a;
    }
  }

  /** `s.replace(c, '')`: every `c` removed, the other characters kept in order. */
  function Without(s: string, c: char): (r: string)
    ensures |r| <= |s|
    ensures forall x :: x in r ==> x in s && x != c
    ensures c !in s ==> r == s
    decreases |s|
  {
    if s == [] then []
    else (if s[0] == c then [] else [s[0]]) + Without(s[1..], c)
  }

  /** Removing characters distributes over concatenation. */
  lemma {:induction false} WithoutConcat(a: string, b: string, c: char)
    ensures Without(a + b, c) == Without(a, c) + Without(b, c)
    decreases |a|
  {
    if a != [] {
      var h := if a[0] == c then [] else [a[0]];
      assert (a + b)[0] == a[0] && (a + b)[1..] == a[1..] + b;
      assert Without(a + b, c) == h + Without(a[1..] + b, c);
      WithoutConcat(a[1..], b, c);
      assert Without(a, c) == h + Without(a[1..], c);
      assert h + (Without(a[1..], c) + Without(b, c)) == (h + Without(a[1..], c)) + Without(b, c);
    } else {
      assert a + b == b;
    }
  }

  /** Text made of line-end characters only. */
  predicate LineEnds(t: string)
  {
    forall i :: 0 <= i < |t| ==> t[i] == '\n' || t[i] == '\r'
  }

  /** Removing `\n` and then `\r` leaves nothing of a run of line ends. */
  lemma {:induction false} WithoutLineEnds(t: string)
    requires LineEnds(t)
    ensures Without(Without(t, '\n'), '\r') == []
    decreases |t|
  {
    if t != [] {
      WithoutLineEnds(t[1..]);
      assert Without(t, '\n') == (if t[0] == '\n' then [] else [t[0]]) + Without(t[1..], '\n');
      WithoutConcat(if t[0] == '\n' then [] else [t[0]], Without(t[1..], '\n'), '\r');
    }
  }

  // ---------------------------------------------------------------------------
  // parseValueStr

  /**
   * What `parseValueStr` needs to index: once the reply has a second field and
   * does not start with `Error`, that field is not empty (`valueStr[0]`
   * raises otherwise).
   */
  predicate HasValueField(message: string)
  {
    var parts := Split(message, ':');
    |parts| >= 2 && parts[0] != "Error" ==> parts[1] != []
  }

  /**
   * `parseValueStr(message)`: the text between the first and the second `:`
   * with line ends removed, paired with `true`; `["Error", False]` when there is
   * no `:`, when the key is `Error`, or when the field starts with `=` (a write
   * acknowledgement).
   */
  function ParseValueStr(message: string): (r: (string, bool))
    requires HasValueField(message)
    ensures r.1 ==> ':' !in r.0 && '\n' !in r.0 && '\r' !in r.0
    ensures !r.1 ==> r == ("Error", false)
  {
    var parts := Split(message, ':');
    if |parts| < 2 || parts[0] == "Error" then ("Error", false)
    else if parts[1][0] == '=' then ("Error", false)
    else (Without(Without(parts[1], '\n'), '\r'), true)
  }

  /** A message without `:` is an error. */
  lemma ParseNoSeparator(message: string)
    requires ':' !in message
    ensures HasValueField(message) && ParseValueStr(message) == ("Error", false)
  {
    SplitWhole(message, ':');
  }

  /** A message whose key is `Error` is an error, whatever follows. */
  lemma ParseErrorKey(rest: string)
    ensures HasValueField("Error:" + rest) && ParseValueStr("Error:" + rest) == ("Error", false)
  {
    assert "Error:" + rest == "Error" + [':'] + rest;
    SplitFirst("Error", ':', rest);
  }

  /**
   * A write acknowledgement `KEY:=<value>`, as `WriteAck` in the firmware
   * formats it, is read as an error.
   */
  lemma ParseWriteAck(key: string, value: int)
    requires ':' !in key
    ensures HasValueField(FormatReply(key, true, value)) && ParseValueStr(FormatReply(key, true, value)) == ("Error", false)
  {
    var m := FormatReply(key, true, value);
    var field := "=" + Decimal(value);
    assert m == key + [':'] + field;
    SplitFirst(key, ':', field);
    assert Split(m, ':')[1] == Split(field, ':')[0];
    assert field == [field[0]] + field[1..];
  }

  /** `%d` text is a minus sign and digits only: no `:` and no line end. */
  lemma DecimalCharacters(n: int)
    ensures forall i :: 0 <= i < |Decimal(n)| ==> Decimal(n)[i] == '-' || IsDigit(Decimal(n)[i])
    ensures ':' !in Decimal(n) && '\n' !in Decimal(n) && '\r' !in Decimal(n)
  {
    var d := Decimal(n);
    forall i | 0 <= i < |d|
      ensures d[i] == '-' || IsDigit(d[i])
    {
      if n < 0 && i > 0 {
        assert d[i] == NatDigits(-n)[i - 1];
      } else if n >= 0 {
        assert d[i] == NatDigits(n)[i];
      }
    }
  }

  /** A run of line ends adds no `:`. */
  lemma ColonFreeTail(d: string, tail: string)
    requires ':' !in d && LineEnds(tail)
    ensures ':' !in d + tail
  {
    forall i | 0 <= i < |d + tail|
      ensures (d + tail)[i] != ':'
    {
      if i >= |d| {
        assert (d + tail)[i] == tail[i - |d|];
      }
    }
  }

  /** Stripping line ends from text followed by line ends leaves the text. */
  lemma StripTail(d: string, tail: string)
    requires '\n' !in d && '\r' !in d && LineEnds(tail)
    ensures Without(Without(d + tail, '\n'), '\r') == d
  {
    WithoutConcat(d, tail, '\n');
    WithoutConcat(d, Without(tail, '\n'), '\r');
    WithoutLineEnds(tail);
    assert d + [] == d;
  }

  /**
   * A read reply `KEY:<value>`, as the firmware formats it and with any line
   * ends a UART `println` adds, is read as the value's `%d` text.
   */
  lemma ParseReadReply(key: string, value: int, tail: string)
    requires ':' !in key && key != "Error" && LineEnds(tail)
    ensures HasValueField(FormatReply(key, false, value) + tail)
    ensures ParseValueStr(FormatReply(key, false, value) + tail) == (Decimal(value), true)
  {
    var d := Decimal(value);
    var m := FormatReply(key, false, value) + tail;
    assert m == key + [':'] + (d + tail);
    SplitFirst(key, ':', d + tail);
    DecimalCharacters(value);
    ColonFreeTail(d, tail);
    SplitWhole(d + tail, ':');
    assert Split(m, ':') == [key, d + tail];
    assert (d + tail)[0] == d[0] != '=';
    StripTail(d, tail);
  }

  // ---------------------------------------------------------------------------
  // tryValueInt

  /** The text after an optional leading sign. */
  function Unsigned(s: string): (body: string)
    ensures body == s || (s != [] && (s[0] == '+' || s[0] == '-') && body == s[1..])
  {
    if s != [] && (s[0] == '+' || s[0] == '-') then s[1..] else s
  }

  predicate AllDigits(s: string)
  {
    forall i :: 0 <= i < |s| ==> IsDigit(s[i])
  }

  /** An optional sign followed by one or more decimal digits. */
  predicate IsIntText(s: string)
  {
    Unsigned(s) != [] && AllDigits(Unsigned(s))
  }

  /**
   * `tryValueInt(valueStr)`: `[int(valueStr), True]` for signed decimal text,
   * `[-1, False]` for anything else.
   */
  function TryValueInt(s: string): (r: (int, bool))
    ensures r.1 <==> IsIntText(s)
    ensures !r.1 ==> r == (-1, false)
  {
    if !IsIntText(s) then (-1, false)
    else
      var magnitude := DigitsValue(Unsigned(s)) as int;
      (if s[0] == '-' then -magnitude else magnitude, true)
  }

  /** `int` reads back exactly the number `%d` printed. */
  lemma TryValueIntDecimal(n: int)
    ensures TryValueInt(Decimal(n)) == (n, true)
  {
    var d := Decimal(n);
    if n < 0 {
      var ds := NatDigits(-n);
      assert d[1..] == ds && Unsigned(d) == ds;
      NatDigitsValue(-n);
    } else {
      assert Unsigned(d) == d;
      NatDigitsValue(n);
    }
  }

  /** On signed decimal text Python's `int` and C's `atoi` agree. */
  lemma TryValueIntIsAtoi(s: string)
    requires IsIntText(s)
    ensures TryValueInt(s).0 == Atoi(s)
  {
    var body := Unsigned(s);
    LeadingNumberOf(body, []);
    assert body + [] == body;
    if s[0] == '-' {
      AtoiMinus(body);
      assert "-" + body == s;
    } else if s[0] == '+' {
      assert !IsCSpace(s[0]) && SkipSpace(s) == s;
    } else {
      AtoiDigits(s);
    }
  }

  /**
   * The round trip the monitoring scripts rely on: a board's reply to a read
   * request, such as `WVB:<mV>`, parsed with `parseValueStr` and then
   * `tryValueInt`, gives back the number the board sent.
   */
  lemma ReplyRoundTrip(key: string, value: int, tail: string)
    requires ':' !in key && key != "Error" && LineEnds(tail)
    ensures HasValueField(FormatReply(key, false, value) + tail)
    ensures var parsed := ParseValueStr(FormatReply(key, false, value) + tail);
      parsed.1 && TryValueInt(parsed.0) == (value, true)
  {
    ParseReadReply(key, value, tail);
    TryValueIntDecimal(value);
  }

  /** The bus-voltage reply `WVB:<n>` reads back as `n`. */
  lemma BusVoltageRoundTrip(n: int)
    ensures HasValueField("WVB:" + Decimal(n))
    ensures var parsed := ParseValueStr("WVB:" + Decimal(n));
      parsed == (Decimal(n), true) && TryValueInt(parsed.0) == (n, true)
  {
    assert FormatReply("WVB", false, n) == "WVB" + ":" + "" + Decimal(n);
    assert FormatReply("WVB", false, n) + [] == "WVB:" + Decimal(n);
    ParseReadReply("WVB", n, []);
    ReplyRoundTrip("WVB", n, []);
  }

  // ---------------------------------------------------------------------------
  // StringToBytes

  /** `StringToBytes(val)`: the code of each character, in order. */
  function StringToBytes(val: string): (codes: seq<int>)
    ensures |codes| == |val|
    ensures forall i :: 0 <= i < |val| ==> codes[i] == val[i] as int
  {
    seq(|val|, i requires 0 <= i < |val| => val[i] as int)
  }
}
