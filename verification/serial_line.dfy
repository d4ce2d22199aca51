/**
 * The byte-at-a-time line accumulator behind every `readUART` of the firmware,
 * and the in-place copy-and-shift `receiveEventI2C` performs on an I2C message.
 * A receive buffer of `capacity` bytes closes a line on '\n' or when it holds
 * `capacity - 1` bytes, leaving the last slot for the terminating NUL.
 */
module SerialLine {
  import opened CText

  /** One byte received with `pending` already buffered: the completed line, if any, and the new pending text. */
  function Step(pending: string, c: char, capacity: int): (Option<string>, string)
  {
    var p := pending + [c];
    if c == '\n' || |p| == capacity - 1 then (Some(p), []) else (None, p)
  }

  /** The lines completed while `bytes` arrive one by one, and the text left pending afterwards. */
  function Split(pending: string, bytes: string, capacity: int): (seq<string>, string)
    decreases |bytes|
  {
    if bytes == [] then ([], pending)
    else
      var (line, p) := Step(pending, bytes[0], capacity);
      var (lines, rest) := Split(p, bytes[1..], capacity);
      (if line.Some? then [line.value] + lines else lines, rest)
  }

  function Flatten(lines: seq<string>): string
  {
    if lines == [] then [] else lines[0] + Flatten(lines[1..])
  }

  /** A partial line as it may sit in a buffer of `capacity` bytes between two received bytes. */
  predicate PendingOk(pending: string, capacity: int)
  {
    |pending| <= capacity - 2 && '\n' !in pending
  }

  /** A completed line: at most `capacity - 1` bytes, closed by its only '\n' or by filling the buffer. */
  predicate LineOk(line: string, capacity: int)
  {
    0 < |line| <= capacity - 1
    && (line[|line| - 1] == '\n' || |line| == capacity - 1)
    && '\n' !in line[..|line| - 1]
  }

  /**
   * Nothing is lost or reordered: the completed lines followed by the pending text
   * are the old pending text followed by the received bytes; every line is well
   * formed and the pending text still fits the buffer.
   */
  lemma {:induction false} SplitPreserves(pending: string, bytes: string, capacity: int)
    requires capacity >= 2 && PendingOk(pending, capacity)
    ensures Flatten(Split(pending, bytes, capacity).0) + Split(pending, bytes, capacity).1 == pending + bytes
    ensures forall i :: 0 <= i < |Split(pending, bytes, capacity).0| ==> LineOk(Split(pending, bytes, capacity).0[i], capacity)
    ensures PendingOk(Split(pending, bytes, capacity).1, capacity)
    decreases |bytes|
  {
    if bytes != [] {
      var c := bytes[0];
      var (line, p) := Step(pending, c, capacity);
      var (lines, rest) := Split(p, bytes[1..], capacity);
      var q := pending + [c];
      assert q[..|q| - 1] == pending;
      if line.Some? {
        assert p == [];
        assert line.value == q && LineOk(q, capacity);
      } else {
        assert p == q && PendingOk(q, capacity);
      }
      SplitPreserves(p, bytes[1..], capacity);
      assert pending + bytes == q + bytes[1..];
      if line.Some? {
        var all := [line.value] + lines;
        assert all[1..] == lines;
        assert Flatten(all) == q + Flatten(lines);
        assert Flatten(all) + rest == q + (Flatten(lines) + rest);
      }
    }
  }

  /** Text without a newline that does not fill the buffer stays pending and completes no line. */
  lemma {:induction false} SplitPartial(pending: string, bytes: string, capacity: int)
    requires '\n' !in bytes && |pending| + |bytes| < capacity - 1
    ensures Split(pending, bytes, capacity) == ([], pending + bytes)
    decreases |bytes|
  {
    if bytes != [] {
      assert bytes[0] in bytes;
      assert forall k :: 0 <= k < |bytes[1..]| ==> bytes[1..][k] in bytes;
      SplitPartial(pending + [bytes[0]], bytes[1..], capacity);
      assert pending + [bytes[0]] + bytes[1..] == pending + bytes;
    } else {
      assert pending + bytes == pending;
    }
  }

  /** A short command followed by its newline arrives as exactly one line. */
  lemma SplitOneLine(text: string, capacity: int)
    requires '\n' !in text && |text| + 1 <= capacity - 1
    ensures Split([], text + "\n", capacity) == ([text + "\n"], [])
  {
    SplitPartial([], text, capacity);
    SplitAppend([], text, "\n", capacity);
    assert [] + text == text;
    var nl := "\n";
    assert nl[0] == '\n' && nl[1..] == [];
    var st := Step(text, '\n', capacity);
    assert st.0 == Some(text + nl) && st.1 == [];
    assert Split(text, nl, capacity).0 == [text + nl] + Split([], [], capacity).0;
    assert Split(text, nl, capacity).1 == Split([], [], capacity).1;
    assert Split([], text, capacity).1 == text;
    assert Split([], text + nl, capacity).0 == [] + [text + nl];
    assert Split([], text + nl, capacity).1 == [];
    assert Split([], text + nl, capacity).0 == [text + nl];
  }

  /** Splitting a concatenation splits the first part, then continues from what it left pending. */
  lemma {:induction false} SplitAppend(pending: string, a: string, b: string, capacity: int)
    ensures Split(pending, a + b, capacity).0
      == Split(pending, a, capacity).0 + Split(Split(pending, a, capacity).1, b, capacity).0
    ensures Split(pending, a + b, capacity).1 == Split(Split(pending, a, capacity).1, b, capacity).1
    decreases |a|
  {
    if a == [] {
      assert a + b == b;
    } else {
      assert (a + b)[0] == a[0];
      assert (a + b)[1..] == a[1..] + b;
      var (line, p) := Step(pending, a[0], capacity);
      SplitAppend(p, a[1..], b, capacity);
      var first := if line.Some? then [line.value] else [];
      assert Split(pending, a + b, capacity).0 == first + Split(p, a[1..] + b, capacity).0;
      assert Split(pending, a, capacity).0 == first + Split(p, a[1..], capacity).0;
      assert Split(pending, a, capacity).1 == Split(p, a[1..], capacity).1;
    }
  }

  lemma CStringAppend(s: string, tail: string)
    ensures CString(s + ['\0'] + tail) == CString(s)
  {
    assert s + ['\0'] + tail == s + (['\0'] + tail);
    if '\0' in s {
      var j :| 0 <= j < |s| && s[j] == '\0';
      var k := IndexOf(s, '\0');
      assert k <= j;
      IndexOfPrefix(s, ['\0'] + tail, '\0');
      assert (s + (['\0'] + tail))[..k] == s[..k];
    } else {
      CStringOfTerminated(s, tail);
      IndexOfAbsent(s, '\0');
      assert s[..|s|] == s;
    }
  }

  lemma {:induction false} IndexOfPrefix(s: string, t: string, c: char)
    requires c in s
    ensures IndexOf(s + t, c) == IndexOf(s, c)
  {
    if s[0] != c {
      assert (s + t)[1..] == s[1..] + t;
      assert c in s[1..];
      IndexOfPrefix(s[1..], t, c);
    }
  }

  /**
   * A receive buffer and the count of bytes in the current partial line: the
   * `_rxBufferUART`/`_rxCntUART` pair of a board, or `_rxBuffer`/`_rxCnt` of PicroComm.
   */
  class LineBuffer {
    const buf: array<char>
    var cnt: int

    ghost predicate Valid()
      reads this, buf
    {
      buf.Length >= 2 && 0 <= cnt <= buf.Length - 2 && '\n' !in buf[..cnt]
    }

    /** The partial line received so far. */
    ghost function Pending(): string
      reads this, buf
      requires Valid()
    {
      buf[..cnt]
    }

    constructor (capacity: nat)
      requires capacity >= 2
      ensures Valid() && buf.Length == capacity && Pending() == []
      ensures fresh(buf)
    {
      buf := new char[capacity](_ => '\0');
      cnt := 0;
    }

    /**
     * One iteration of the `readUART` loop: store the byte at `cnt` and advance;
     * on '\n' or when `cnt` reaches `capacity - 1`, write the NUL at `cnt`, reset
     * `cnt` to 0 and hand the line over. The text the parser then sees through
     * the buffer is the C string of the completed line.
     */
    method Push(c: char) returns (line: Option<string>)
      requires Valid()
      modifies this, buf
      ensures Valid()
      ensures (line, Pending()) == Step(old(Pending()), c, buf.Length)
      ensures line.Some? ==> CString(buf[..]) == CString(line.value)
    {
      buf[cnt] := c;
      cnt := cnt + 1;
      if c == '\n' || cnt == buf.Length - 1 {
        buf[cnt] := '\0';
        line := Some(buf[..cnt]);
        assert buf[..] == buf[..cnt] + ['\0'] + buf[cnt + 1..];
        CStringAppend(buf[..cnt], buf[cnt + 1..]);
        cnt := 0;
      } else {
        line := None;
      }
      assert buf[..old(cnt) + 1] == old(Pending()) + [c];
    }

    /** The whole `while (Serial.available())` loop over the bytes that have arrived. */
    method ReadAll(bytes: string) returns (lines: seq<string>)
      requires Valid()
      modifies this, buf
      ensures Valid()
      ensures (lines, Pending()) == Split(old(Pending()), bytes, buf.Length)
    {
      ghost var start := Pending();
      lines := [];
      var k := 0;
      assert bytes[0..] == bytes;
      while k < |bytes|
        invariant 0 <= k <= |bytes| && Valid()
        invariant Split(start, bytes, buf.Length).0 == lines + Split(Pending(), bytes[k..], buf.Length).0
        invariant Split(start, bytes, buf.Length).1 == Split(Pending(), bytes[k..], buf.Length).1
      {
        ghost var before := Pending();
        assert bytes[k..][0] == bytes[k] && bytes[k..][1..] == bytes[k + 1..];
        var line := Push(bytes[k]);
        if line.Some? {
          assert Split(before, bytes[k..], buf.Length).0 == [line.value] + Split(Pending(), bytes[k + 1..], buf.Length).0;
          lines := lines + [line.value];
        } else {
          assert Split(before, bytes[k..], buf.Length).0 == Split(Pending(), bytes[k + 1..], buf.Length).0;
        }
        k := k + 1;
      }
      assert bytes[k..] == [];
      assert lines + [] == lines;
    }
  }

  /**
   * `receiveEventI2C(howMany)` on the buffer `rx`: copy the message byte by byte,
   * NUL after each, then shift everything one place left to drop the register
   * byte the Raspberry Pi sends first. The copy writes index `howMany`, so the
   * message must be shorter than the buffer.
   */
  method ReceiveShifted(rx: array<char>, message: string)
    requires |message| < rx.Length
    modifies rx
    ensures message == [] ==> rx[..] == old(rx[..])
    ensures message != [] ==>
      && rx[..|message| - 1] == message[1..]
      && rx[|message| - 1] == '\0' && rx[|message|] == '\0'
      && rx[|message| + 1..] == old(rx[|message| + 1..])
    ensures message != [] && '\0' !in message[1..] ==> CString(rx[..]) == message[1..]
  {
    var n := |message|;
    var i := 0;
    while i < n
      invariant 0 <= i <= n
      invariant rx[..i] == message[..i]
      invariant i > 0 ==> rx[i] == '\0'
      invariant rx[n + 1..] == old(rx[n + 1..])
      invariant i == 0 ==> rx[..] == old(rx[..])
    {
      rx[i] := message[i];
      rx[i + 1] := '\0';
      i := i + 1;
    }
    ghost var full := message + ['\0'];
    assert n > 0 ==> rx[..n + 1] == full;
    i := 0;
    while i < n
      invariant 0 <= i <= n
      invariant n > 0 ==> rx[..i] == full[1..i + 1] && rx[i..n + 1] == full[i..]
      invariant rx[n + 1..] == old(rx[n + 1..])
      invariant n == 0 ==> rx[..] == old(rx[..])
    {
      assert n > 0 ==> rx[i + 1] == full[i + 1];
      ghost var before := rx[..];
      rx[i] := rx[i + 1];
      assert n > 0 ==> rx[..i + 1] == full[1..i + 2];
      assert rx[i + 1..n + 1] == before[i + 1..n + 1];
      assert n > 0 ==> before[i + 1..n + 1] == full[i + 1..];
      i := i + 1;
    }
    if n > 0 {
      assert full[1..n + 1] == message[1..] + ['\0'];
      assert rx[..n - 1] == message[1..];
      if '\0' !in message[1..] {
        assert rx[..] == message[1..] + ['\0'] + rx[n..];
        CStringOfTerminated(message[1..], rx[n..]);
      }
    }
  }
}
