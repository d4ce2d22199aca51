/**
 * `PicroComm`, the stand-alone UART helper: a 32-byte receive buffer filled one
 * byte at a time. Unlike the board classes, `readUART` stops reading as soon as
 * a line is complete and reports it, leaving any later bytes on the serial port.
 */
module PicroCommLib {
  import opened CText
  import opened SerialLine

  /** Length of `_rxBuffer`. */
  const RX_BUFFER_SIZE := 32

  /**
   * Reading `bytes` until the first line completes: the line (None when the
   * bytes ran out first), how many bytes were taken, and the pending text after.
   */
  function FirstLine(pending: string, bytes: string, capacity: int): (Option<string>, nat, string)
    decreases |bytes|
  {
    if bytes == [] then (None, 0, pending)
    else
      var s := Step(pending, bytes[0], capacity);
      if s.0.Some? then (s.0, 1, s.1)
      else
        var t := FirstLine(s.1, bytes[1..], capacity);
        (t.0, t.1 + 1, t.2)
  }

  /**
   * Stopping at the first line agrees with the line accumulator run over the
   * bytes taken: when no line completes every byte is taken and only the pending
   * text grows; when one does, the bytes taken make exactly that one line and
   * nothing is left pending.
   */
  lemma {:induction false} FirstLineSplit(pending: string, bytes: string, capacity: int)
    ensures FirstLine(pending, bytes, capacity).1 <= |bytes|
    ensures FirstLine(pending, bytes, capacity).0.None? ==>
      FirstLine(pending, bytes, capacity).1 == |bytes|
      && Split(pending, bytes, capacity) == ([], FirstLine(pending, bytes, capacity).2)
    ensures FirstLine(pending, bytes, capacity).0.Some? ==>
      0 < FirstLine(pending, bytes, capacity).1
      && FirstLine(pending, bytes, capacity).2 == []
      && Split(pending, bytes[..FirstLine(pending, bytes, capacity).1], capacity)
         == ([FirstLine(pending, bytes, capacity).0.value], [])
    decreases |bytes|
  {
    if bytes != [] {
      var s := Step(pending, bytes[0], capacity);
      if s.0.Some? {
        var b1 := bytes[..1];
        assert b1[0] == bytes[0] && b1[1..] == [];
        assert s.1 == [];
        assert Split(pending, b1, capacity) == ([s.0.value] + Split(s.1, b1[1..], capacity).0, Split(s.1, b1[1..], capacity).1);
        assert Split(s.1, b1[1..], capacity) == ([], []);
        assert [s.0.value] + [] == [s.0.value];
      } else {
        var t := FirstLine(s.1, bytes[1..], capacity);
        FirstLineSplit(s.1, bytes[1..], capacity);
        if t.0.Some? {
          assert bytes[..t.1 + 1][0] == bytes[0];
          assert bytes[..t.1 + 1][1..] == bytes[1..][..t.1];
        }
      }
    }
  }

  class PicroComm {
    const rx: LineBuffer

    ghost predicate Valid()
      reads this, rx, rx.buf
    {
      rx.Valid() && rx.buf.Length == RX_BUFFER_SIZE
    }

    constructor ()
      ensures Valid() && rx.Pending() == [] && fresh(rx) && fresh(rx.buf)
    {
      rx := new LineBuffer(RX_BUFFER_SIZE);
    }

    /**
     * `readUART` over the bytes waiting on the serial port: `consumed` of them are
     * read; `done` says whether a line completed, in which case `getUARTBuffer()`
     * holds it as a C string.
     */
    method ReadUART(bytes: string) returns (done: bool, consumed: nat)
      requires Valid()
      modifies rx, rx.buf
      ensures Valid()
      ensures done == FirstLine(old(rx.Pending()), bytes, RX_BUFFER_SIZE).0.Some?
      ensures consumed == FirstLine(old(rx.Pending()), bytes, RX_BUFFER_SIZE).1
      ensures rx.Pending() == FirstLine(old(rx.Pending()), bytes, RX_BUFFER_SIZE).2
      ensures done ==> CString(rx.buf[..]) == CString(FirstLine(old(rx.Pending()), bytes, RX_BUFFER_SIZE).0.value)
    {
      ghost var start := rx.Pending();
      consumed := 0;
      done := false;
      assert bytes[0..] == bytes;
      while consumed < |bytes|
        invariant 0 <= consumed <= |bytes| && Valid()
        invariant FirstLine(start, bytes, RX_BUFFER_SIZE).0 == FirstLine(rx.Pending(), bytes[consumed..], RX_BUFFER_SIZE).0
        invariant FirstLine(start, bytes, RX_BUFFER_SIZE).1 == consumed + FirstLine(rx.Pending(), bytes[consumed..], RX_BUFFER_SIZE).1
        invariant FirstLine(start, bytes, RX_BUFFER_SIZE).2 == FirstLine(rx.Pending(), bytes[consumed..], RX_BUFFER_SIZE).2
      {
        assert bytes[consumed..][0] == bytes[consumed] && bytes[consumed..][1..] == bytes[consumed + 1..];
        var line := rx.Push(bytes[consumed]);
        consumed := consumed + 1;
        if line.Some? {
          done := true;
          return;
        }
      }
      assert bytes[consumed..] == [];
    }

    /** `getUARTBuffer`: the received text as a C string. */
    method GetUARTBuffer() returns (text: string)
      requires Valid()
      ensures text <= rx.buf[..] && '\0' !in text
      ensures |text| < RX_BUFFER_SIZE ==> rx.buf[|text|] == '\0'
    {
      text := CString(rx.buf[..]);
    }
  }
}
