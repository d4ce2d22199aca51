/**
 * `PicroBoard`, the communication base class every newer board derives from:
 * registered command callbacks, the UART and I2C receive buffers, one transmit
 * buffer per transport, and what is sent back to the Raspberry Pi.
 *
 * Callbacks are function pointers in the firmware; here each is an opaque
 * `Callback` value and calling one appends an `Invocation` to a log. What the
 * board prints on Serial and writes on the I2C bus is kept as two output logs.
 */
module PicroBoardBase {
  import opened CText
  import opened SerialLine

  /** Transport numbers (`CommunicationsProtocol`). */
  const UART_INDEX := 0
  const I2C_INDEX := 1
  /** Length of every receive and transmit buffer. */
  const COMMBUFFERSIZE := 16
  /** Capacity of the callback array. */
  const COMMANDCALLBACKSMAXLENGTH := 10

  datatype Callback = Callback(id: nat)

  /** One call `callback(command, value, receiveProtocol)`. */
  datatype Invocation = Invocation(callback: Callback, command: Option<string>, value: Option<string>, protocol: int)

  /** The calls the default branch of `interpretRXCommand` makes: every registered callback once, in order. */
  function Calls(registered: seq<Callback>, line: SplitLine, protocol: int): (r: seq<Invocation>)
    ensures |r| == |registered|
    ensures forall n :: 0 <= n < |r| ==> r[n] == Invocation(registered[n], line.command, line.value, protocol)
  {
    if registered == [] then []
    else
      Calls(registered[..|registered| - 1], line, protocol)
      + [Invocation(registered[|registered| - 1], line.command, line.value, protocol)]
  }

  /**
   * The reply to a read request: key `Rxxx` is answered `Wxxx:<value>`, the
   * value printed with `%d` (or `%u`, which prints a non-negative value alike).
   */
  function ReadReply(command: string, value: int): (s: string)
    requires |command| >= 1
  {
    FormatReply("W" + command[1..], false, value)
  }

  /** The acknowledgement of a write request: key `Wxxx` is answered `Wxxx:=<value>`. */
  function WriteAck(command: string, value: int): (s: string)
  {
    FormatReply(command, true, value)
  }

  class PicroBoard {
    const callbacks: array<Callback>
    var callbacksEnd: int
    const rxUart: LineBuffer
    const rxI2c: array<char>
    /** Contents of the two transmit buffers, `_txBuffer[UART_INDEX]` and `_txBuffer[I2C_INDEX]`. */
    var txUart: string
    var txI2c: string
    /** Lines printed with `Serial.println`. */
    var serialOut: seq<string>
    /** Strings written to the I2C master with `Wire.write`. */
    var wireOut: seq<string>
    /** Callback calls made so far. */
    var invocations: seq<Invocation>

    ghost predicate Valid()
      reads this, rxUart, rxUart.buf
    {
      callbacks.Length == COMMANDCALLBACKSMAXLENGTH
      && 0 <= callbacksEnd <= COMMANDCALLBACKSMAXLENGTH
      && rxUart.Valid() && rxUart.buf.Length == COMMBUFFERSIZE
      && rxI2c.Length == COMMBUFFERSIZE && rxI2c != rxUart.buf
    }

    /** Every object the board's state lives in. */
    ghost function Repr(): set<object>
      reads this
    {
      {this, callbacks, rxUart, rxUart.buf, rxI2c}
    }

    /** The callbacks registered so far, in registration order. */
    ghost function Registered(): seq<Callback>
      reads this, callbacks
      requires 0 <= callbacksEnd <= callbacks.Length
    {
      callbacks[..callbacksEnd]
    }

    constructor ()
      ensures Valid() && fresh(Repr())
      ensures Registered() == [] && rxUart.Pending() == []
      ensures txUart == txI2c == [] && serialOut == wireOut == [] && invocations == []
    {
      callbacks := new Callback[COMMANDCALLBACKSMAXLENGTH](_ => Callback(0));
      callbacksEnd := 0;
      rxUart := new LineBuffer(COMMBUFFERSIZE);
      rxI2c := new char[COMMBUFFERSIZE](_ => '\0');
      txUart, txI2c := [], [];
      serialOut, wireOut, invocations := [], [], [];
    }

    /** `addCommandCallback`: append while fewer than ten are registered; later registrations are dropped. */
    method AddCommandCallback(callback: Callback)
      requires Valid()
      modifies this, callbacks
      ensures Valid()
      ensures old(callbacksEnd) < COMMANDCALLBACKSMAXLENGTH ==> Registered() == old(Registered()) + [callback]
      ensures old(callbacksEnd) >= COMMANDCALLBACKSMAXLENGTH ==> Registered() == old(Registered())
      ensures txUart == old(txUart) && txI2c == old(txI2c) && invocations == old(invocations)
      ensures serialOut == old(serialOut) && wireOut == old(wireOut)
    {
      if callbacksEnd < COMMANDCALLBACKSMAXLENGTH {
        callbacks[callbacksEnd] := callback;
        callbacksEnd := callbacksEnd + 1;
      }
    }

    /** The default branch of every board's `interpretRXCommand`: call each registered callback once, in index order. */
    method InvokeCallbacks(line: SplitLine, protocol: int)
      requires Valid()
      modifies this
      ensures Valid()
      ensures invocations == old(invocations) + Calls(Registered(), line, protocol)
      ensures txUart == old(txUart) && txI2c == old(txI2c)
      ensures serialOut == old(serialOut) && wireOut == old(wireOut)
      ensures callbacksEnd == old(callbacksEnd)
    {
      var n := 0;
      while n < callbacksEnd
        invariant Valid() && callbacksEnd == old(callbacksEnd)
        invariant 0 <= n <= callbacksEnd
        invariant invocations == old(invocations) + Calls(callbacks[..n], line, protocol)
        invariant txUart == old(txUart) && txI2c == old(txI2c)
        invariant serialOut == old(serialOut) && wireOut == old(wireOut)
      {
        assert callbacks[..n + 1][..n] == callbacks[..n];
        invocations := invocations + [Invocation(callbacks[n], line.command, line.value, protocol)];
        n := n + 1;
      }
    }

    /** `sprintf(getTXBuffer(protocol), ...)`: the reply text replaces the transport's transmit buffer. */
    method WriteTX(protocol: int, text: string)
      requires Valid() && (protocol == UART_INDEX || protocol == I2C_INDEX)
      modifies this
      ensures Valid()
      ensures protocol == UART_INDEX ==> txUart == text && txI2c == old(txI2c)
      ensures protocol == I2C_INDEX ==> txI2c == text && txUart == old(txUart)
      ensures serialOut == old(serialOut) && wireOut == old(wireOut) && invocations == old(invocations)
      ensures callbacksEnd == old(callbacksEnd)
    {
      if protocol == UART_INDEX {
        txUart := text;
      } else {
        txI2c := text;
      }
    }

    /**
     * The effect of `sprintf(getTXBuffer(protocol), ...)` followed by
     * `respondToMaster(protocol)`, relative to the given earlier state: over
     * UART `text` is printed and the buffer left empty; over I2C `text` waits in
     * the I2C buffer for the master's request. No callback runs.
     */
    ghost predicate Answered(protocol: int, text: string, serialBefore: seq<string>, txUartBefore: string,
                             txI2cBefore: string, invocationsBefore: seq<Invocation>)
      reads this
    {
      && serialOut == serialBefore + (if protocol == UART_INDEX then [text] else [])
      && txUart == (if protocol == UART_INDEX then [] else txUartBefore)
      && txI2c == (if protocol == I2C_INDEX then text else txI2cBefore)
      && invocations == invocationsBefore
    }

    /** The effect of the default branch of `interpretRXCommand`: every callback runs, nothing is sent. */
    ghost predicate Forwarded(line: SplitLine, protocol: int, serialBefore: seq<string>, txUartBefore: string,
                              txI2cBefore: string, invocationsBefore: seq<Invocation>)
      reads this, callbacks
      requires 0 <= callbacksEnd <= callbacks.Length
    {
      && invocations == invocationsBefore + Calls(Registered(), line, protocol)
      && serialOut == serialBefore && txUart == txUartBefore && txI2c == txI2cBefore
    }

    /** A reply written to the transport's buffer and handed to `respondToMaster`. */
    method Reply(protocol: int, text: string)
      requires Valid() && (protocol == UART_INDEX || protocol == I2C_INDEX)
      modifies this
      ensures Valid()
      ensures Answered(protocol, text, old(serialOut), old(txUart), old(txI2c), old(invocations))
      ensures wireOut == old(wireOut) && callbacksEnd == old(callbacksEnd)
    {
      WriteTX(protocol, text);
      RespondToMaster(protocol);
    }

    /**
     * The tail every board's `interpretRXCommand` shares: a built-in command's
     * reply is written and sent; a command the board does not know goes to the
     * callbacks.
     */
    method Respond(reply: Option<string>, line: SplitLine, protocol: int)
      requires Valid() && (reply.Some? ==> protocol == UART_INDEX || protocol == I2C_INDEX)
      modifies this
      ensures Valid()
      ensures reply.Some? ==> Answered(protocol, reply.value, old(serialOut), old(txUart), old(txI2c), old(invocations))
      ensures reply.None? ==> Forwarded(line, protocol, old(serialOut), old(txUart), old(txI2c), old(invocations))
      ensures wireOut == old(wireOut) && callbacksEnd == old(callbacksEnd)
    {
      if reply.Some? {
        Reply(protocol, reply.value);
      } else {
        InvokeCallbacks(line, protocol);
      }
    }

    /**
     * `respondToMaster`: over UART the reply is printed and the buffer cleared; over
     * I2C it stays in the buffer until the master asks for it; any other transport
     * number does nothing.
     */
    method RespondToMaster(protocol: int)
      requires Valid()
      modifies this
      ensures Valid()
      ensures protocol == UART_INDEX ==> serialOut == old(serialOut) + [old(txUart)] && txUart == []
      ensures protocol != UART_INDEX ==> serialOut == old(serialOut) && txUart == old(txUart)
      ensures txI2c == old(txI2c) && wireOut == old(wireOut) && invocations == old(invocations)
      ensures callbacksEnd == old(callbacksEnd)
    {
      if protocol == UART_INDEX {
        serialOut := serialOut + [txUart];
        txUart := [];
      }
    }

    /**
     * `readUART` over the bytes available on the serial port: the completed lines
     * are the ones `parseRXLineUART` hands to `interpretRXCommand`, each as the C
     * string `CString(line)`.
     */
    method ReadUART(bytes: string) returns (lines: seq<string>)
      requires Valid()
      modifies rxUart, rxUart.buf
      ensures Valid()
      ensures (lines, rxUart.Pending()) == Split(old(rxUart.Pending()), bytes, COMMBUFFERSIZE)
    {
      lines := rxUart.ReadAll(bytes);
    }

    /**
     * `receiveEventI2C(howMany)`: the message lands in the I2C buffer without its
     * first (register) byte; the result is the text `parseRXLineI2C` parses.
     */
    method ReceiveEventI2C(message: string) returns (text: string)
      requires Valid() && |message| < COMMBUFFERSIZE
      modifies rxI2c
      ensures Valid()
      ensures text == CString(rxI2c[..])
      ensures message != [] && '\0' !in message[1..] ==> text == message[1..]
    {
      ReceiveShifted(rxI2c, message);
      text := CString(rxI2c[..]);
    }

    /** `requestEventI2C`: send the I2C transmit buffer and clear it, so a reply goes out at most once. */
    method RequestEventI2C()
      requires Valid()
      modifies this
      ensures Valid()
      ensures wireOut == old(wireOut) + [old(txI2c)] && txI2c == []
      ensures txUart == old(txUart) && serialOut == old(serialOut) && invocations == old(invocations)
      ensures callbacksEnd == old(callbacksEnd)
    {
      wireOut := wireOut + [txI2c];
      txI2c := [];
    }
  }
}
