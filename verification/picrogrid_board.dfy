/**
 * `PicrogridBoard`, the earlier copy of the communication base class that ships
 * with the first AtverterH library. It differs from `PicroBoard` in what it
 * echoes on Serial: every I2C receive and request prints a marker, and an I2C
 * reply is printed as well as kept for the master. Its header is not part of
 * this model, so the buffer size and the callback capacity are parameters.
 */
module LegacyBoardBase {
  import opened CText
  import opened SerialLine
  import PicroBoardBase

  const UART_INDEX := 0
  const I2C_INDEX := 1

  type Callback = PicroBoardBase.Callback
  type Invocation = PicroBoardBase.Invocation

  class PicrogridBoard {
    const maxCallbacks: nat
    const callbacks: array<Callback>
    var callbacksEnd: int
    const rxUart: LineBuffer
    const rxI2c: array<char>
    var txUart: string
    var txI2c: string
    var serialOut: seq<string>
    var wireOut: seq<string>
    var invocations: seq<Invocation>

    ghost predicate Valid()
      reads this, rxUart, rxUart.buf
    {
      callbacks.Length == maxCallbacks
      && 0 <= callbacksEnd <= maxCallbacks
      && rxUart.Valid() && rxI2c.Length == rxUart.buf.Length && rxI2c != rxUart.buf
    }

    ghost function Registered(): seq<Callback>
      reads this, callbacks
      requires 0 <= callbacksEnd <= callbacks.Length
    {
      callbacks[..callbacksEnd]
    }

    /** A board with receive buffers of `bufferSize` bytes and room for `maxCallbacks` callbacks. */
    constructor (bufferSize: nat, maxCallbacks: nat)
      requires bufferSize >= 2
      ensures Valid() && this.maxCallbacks == maxCallbacks && rxUart.buf.Length == bufferSize
      ensures fresh(callbacks) && fresh(rxUart) && fresh(rxUart.buf) && fresh(rxI2c)
      ensures Registered() == [] && rxUart.Pending() == []
      ensures txUart == txI2c == [] && serialOut == wireOut == [] && invocations == []
    {
      this.maxCallbacks := maxCallbacks;
      callbacks := new Callback[maxCallbacks](_ => PicroBoardBase.Callback(0));
      callbacksEnd := 0;
      rxUart := new LineBuffer(bufferSize);
      rxI2c := new char[bufferSize](_ => '\0');
      txUart, txI2c := [], [];
      serialOut, wireOut, invocations := [], [], [];
    }

    /** `addCommandCallback`: a bounded append; registrations beyond the capacity are dropped. */
    method AddCommandCallback(callback: Callback)
      requires Valid()
      modifies this, callbacks
      ensures Valid()
      ensures old(callbacksEnd) < maxCallbacks ==> Registered() == old(Registered()) + [callback]
      ensures old(callbacksEnd) >= maxCallbacks ==> Registered() == old(Registered())
      ensures txUart == old(txUart) && txI2c == old(txI2c) && invocations == old(invocations)
      ensures serialOut == old(serialOut) && wireOut == old(wireOut)
    {
      if callbacksEnd < maxCallbacks {
        callbacks[callbacksEnd] := callback;
        callbacksEnd := callbacksEnd + 1;
      }
    }

    /** `respondToMaster`: UART prints and clears; I2C only prints, keeping the reply for the master. */
    method RespondToMaster(protocol: int)
      requires Valid()
      modifies this
      ensures Valid()
      ensures protocol == UART_INDEX ==> serialOut == old(serialOut) + [old(txUart)] && txUart == [] && txI2c == old(txI2c)
      ensures protocol == I2C_INDEX ==> serialOut == old(serialOut) + [old(txI2c)] && txI2c == old(txI2c) && txUart == old(txUart)
      ensures protocol != UART_INDEX && protocol != I2C_INDEX ==>
        serialOut == old(serialOut) && txUart == old(txUart) && txI2c == old(txI2c)
      ensures wireOut == old(wireOut) && invocations == old(invocations) && callbacksEnd == old(callbacksEnd)
    {
      if protocol == UART_INDEX {
        serialOut := serialOut + [txUart];
        txUart := [];
      } else if protocol == I2C_INDEX {
        serialOut := serialOut + [txI2c];
      }
    }

    /** `readUART`: the lines closed on '\n' or on reaching `sizeof(_rxBufferUART) - 1` bytes. */
    method ReadUART(bytes: string) returns (lines: seq<string>)
      requires Valid()
      modifies rxUart, rxUart.buf
      ensures Valid()
      ensures (lines, rxUart.Pending()) == Split(old(rxUart.Pending()), bytes, rxUart.buf.Length)
    {
      lines := rxUart.ReadAll(bytes);
    }

    /** `receiveEventI2C`: prints "received", then copies and shifts the message as the newer base does. */
    method ReceiveEventI2C(message: string) returns (text: string)
      requires Valid() && |message| < rxI2c.Length
      modifies this, rxI2c
      ensures Valid()
      ensures serialOut == old(serialOut) + ["received"]
      ensures text == CString(rxI2c[..])
      ensures message != [] && '\0' !in message[1..] ==> text == message[1..]
      ensures txUart == old(txUart) && txI2c == old(txI2c) && wireOut == old(wireOut)
      ensures invocations == old(invocations) && callbacksEnd == old(callbacksEnd)
    {
      serialOut := serialOut + ["received"];
      ReceiveShifted(rxI2c, message);
      text := CString(rxI2c[..]);
    }

    /** `requestEventI2C`: prints "requested", sends the I2C transmit buffer and clears it. */
    method RequestEventI2C()
      requires Valid()
      modifies this
      ensures Valid()
      ensures serialOut == old(serialOut) + ["requested"]
      ensures wireOut == old(wireOut) + [old(txI2c)] && txI2c == []
      ensures txUart == old(txUart) && invocations == old(invocations) && callbacksEnd == old(callbacksEnd)
    {
      serialOut := serialOut + ["requested"];
      wireOut := wireOut + [txI2c];
      txI2c := [];
    }
  }
}
