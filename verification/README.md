# Picrogrid board firmware and host scripts, modelled in Dafny

Picrogrid is a kit of small power-electronics boards on a DC bus. Each board is
driven by an Arduino-class microcontroller, and a Raspberry Pi supervises them
over UART or I2C with short text commands (`RVB:\n`, `WIS1:3000\n`). This
project models the core of that firmware and two of the Pi's scripts:

- **Atverter** (`AtverterBoard`, `AtverterControl`): a bidirectional DC-DC converter.
  - moving averages of its six sensors;
  - the VCC measurement and its USB correction;
  - the duty-cycle clamp and the bootstrap-refresh counter;
  - the protection latch with its shutdown codes;
  - current and thermal limits;
  - droop resistance;
  - the compensator history arrays and its difference equation;
  - the gradient-descent duty-cycle stepper;
  - the command dispatcher.
- **MicroPanel** (`MicroPanelBoard`): four switched output channels.
  - per-channel and total current limits;
  - the trip rules;
  - inrush hold times and hardware-shutoff flags;
  - its dispatcher.
- **PiSupply** (`PiSupplyBoard`): the Pi's own power supply.
  - four output channels, three of them switched by an active-low pin;
  - the 48 V and 12 V buses and the four analog pins;
  - its dispatcher.
- **The first Atverter library** (`LegacyAtverter`): its copy-forward averaging loop, its midpoint-centred current limits and its bootstrap counter.
- **The two communication bases** (`PicroBoardBase`, `LegacyBoardBase`), shared by every board.
  - the UART line accumulator, modelled in `SerialLine`;
  - the `strtok` split of `COMMAND:VALUE`;
  - the I2C receive shift;
  - the transmit buffers, `respondToMaster` and the callback list.
- **PicroComm** (`PicroCommLib`): the board-side Arduino communication library, whose Serial reader stops at the first complete line.
- **Conversions** (`Conversions`, `CArith`, `CText`): raw ADC counts to and from mV and mA, the thermistor table, C's truncating division, `atoi` and `%d`.
- **The host scripts**:
  - `HostReply`: `parseValueStr`, `tryValueInt` and `StringToBytes` of the battery-curve script;
  - `CsvCleanup`: the row loop of `cleanup.py`, which fills failed readings forward and writes one line of per-minute means per minute.

Integers are mathematical. The firmware's 16-bit widths are written out only
for the `unsigned int` and `int` casts of `raw2mV` and `getV12` (`U16`,
`Int16`); other overflow is not modelled.

## Model

| member | source | states |
|---|---|---|
| CArith.TruncDivRemainder | PicroBoards/Library/PicroBoards/AtverterH.cpp:165 | C division truncates toward zero. Its remainder is smaller than the divisor in magnitude and has the dividend's sign. |
| CArith.TruncDivOdd | PicroBoards/Library/PicroBoards/AtverterH.cpp:308-312 | Negating the dividend negates a C quotient. |
| CArith.TruncDivNonNegative | PicroBoards/Library/PicroBoards/AtverterH.cpp:165 | For a non-negative dividend, C division agrees with Euclidean division. |
| CArith.TruncDivMonotone | PicroBoards/Library/PicroBoards/AtverterH.cpp:165 | With a positive divisor, the quotient grows with the dividend. |
| CArith.Constrain | PicroBoards/Library/PicroBoards/AtverterH.cpp:94-99 | `constrain(x, lo, hi)` lies in [lo, hi]. It is x inside the range and the nearer bound outside it. |
| CText.IndexOf | PicroBoards/Library/PicroBoards/PicroBoard.cpp:24 | The result is the first position of the character, or the length when the character is absent. |
| CText.CString | PicroBoards/Library/PicroBoards/PicroBoard.cpp:76 | A `char*` reads the buffer up to its first NUL. The result is a NUL-free prefix followed by a NUL or the end of the buffer. |
| CText.CStringOfTerminated | PicroBoards/Library/PicroBoards/PicroBoard.cpp:76 | Text followed by a NUL reads back as that text, whatever comes after. |
| CText.SkipLeading | PicroBoards/Library/PicroBoards/PicroBoard.cpp:24-25 | `strtok` skips leading delimiters. The result is a suffix that does not start with the delimiter. |
| CText.Strtok | PicroBoards/Library/PicroBoards/PicroBoard.cpp:24-25 | `strtok` returns a null token exactly when only delimiters remain. A token is non-empty and free of the delimiter. |
| CText.ParseRXLine | PicroBoards/Library/PicroBoards/PicroBoard.cpp:23-27 | The command is null exactly when the line is all colons. A command is non-empty and colon-free. A value exists only with a command, and it is non-empty and newline-free. |
| CText.ParseLineWithoutColon | PicroBoards/Library/PicroBoards/PicroBoard.cpp:23-27 | A line without ':' becomes the command whole, newline included, with no value. |
| CText.ParseReadRequest | PicroBoards/Library/PicroBoards/PicroBoard.cpp:23-27 | `KEY:\n` splits into KEY and no value. |
| CText.ParseWriteRequest | PicroBoards/Library/PicroBoards/PicroBoard.cpp:23-27 | `KEY:VALUE\n` splits into KEY and VALUE, for a colon-free KEY and a newline-free VALUE. |
| CText.StrtokToken | PicroBoards/Library/PicroBoards/PicroBoard.cpp:24-25 | A token followed by its delimiter is returned, and the scan resumes after the delimiter. |
| CText.StrtokWhole | PicroBoards/Library/PicroBoards/PicroBoard.cpp:24-25 | Delimiter-free text is one token, and nothing remains after it. |
| CText.Decimal | PicroBoards/Library/PicroBoards/AtverterH.cpp:585-587 | `%d` text starts with a digit exactly for non-negative numbers, and with '-' exactly for negative ones. |
| CText.NatDigitsValue | PicroBoards/Library/PicroBoards/AtverterH.cpp:585-587 | The digits written for n read back as n. |
| CText.AtoiDecimal | PicroBoards/Library/PicroBoards/AtverterH.cpp:606-610 | `atoi` reads back exactly the number that `%d` printed. |
| CText.AtoiDecimalThen | PicroBoards/Library/PicroBoards/AtverterH.cpp:606-610 | `atoi` stops at the first non-digit, so trailing text does not change the value. |
| CText.AtoiDigits | PicroBoards/Library/PicroBoards/AtverterH.cpp:607 | Text starting with a digit converts to its leading number. |
| CText.AtoiMinus | PicroBoards/Library/PicroBoards/AtverterH.cpp:607 | A leading '-' negates the number after it. |
| CText.DigitRun | PicroBoards/Library/PicroBoards/AtverterH.cpp:607 | The result is the length of the maximal leading digit run. |
| CText.SkipSpace | PicroBoards/Library/PicroBoards/AtverterH.cpp:607 | `atoi` skips leading white space. The result is a suffix that does not start with a space. |
| CText.FormatReply | PicroBoards/Library/PicroBoards/AtverterH.cpp:606-610 | A reply starts with the key and ':'. The next character is '=' exactly for a write acknowledgement. |
| MovingAverage.SumUpdate | PicroBoards/Library/PicroBoards/AtverterH.cpp:211-213 | Replacing one sample changes the accumulator by the difference. |
| MovingAverage.SumRotate | PicroBoards/Library/PicroBoards/AtverterH.cpp:211-219 | Reading the ring from any slot does not change its sum. |
| MovingAverage.Advance | PicroBoards/Library/PicroBoards/AtverterH.cpp:217-219 | The advanced cursor stays inside the window. |
| MovingAverage.AdvanceIsModular | PicroBoards/Library/PicroBoards/AtverterH.cpp:217-219 | Advancing the cursor is +1 modulo the window length. |
| MovingAverage.OrderedAdvance | PicroBoards/Library/PicroBoards/AtverterH.cpp:211-219 | Storing at the cursor and then advancing drops the oldest sample of the ordered window and appends the new one. |
| MovingAverage.Feed | PicroBoards/Library/PicroBoards/AtverterH.cpp:185-220 | Feeding samples keeps the window length. |
| MovingAverage.FeedSnoc | PicroBoards/Library/PicroBoards/AtverterH.cpp:185-220 | One more sample drops the oldest and appends the new one. |
| MovingAverage.FeedLatest | PicroBoards/Library/PicroBoards/AtverterH.cpp:185-220 | After at least a window's worth of samples, the window holds exactly the latest ones. Otherwise it holds the tail of the old window followed by the new samples. |
| MovingAverage.Pushed | PicroBoards/Library/PicroBoards/AtverterH.cpp:185-220 | One update leaves the number of windows unchanged. |
| MovingAverage.LongestWindow | PicroBoards/Library/PicroBoards/MicroPanelH.cpp:42-45 | The result is one of the window lengths and is at least every other one. |
| MovingAverage.SensorBank.constructor | PicroBoards/Library/PicroBoards/AtverterH.h:215-245 | The rings are zeroed, and the accumulators, averages and cursors are zero. |
| MovingAverage.SensorBank.Update | PicroBoards/Library/PicroBoards/AtverterH.cpp:185-220 | A sensor's ordered window drops its oldest sample and gains the new one. Its average is the truncated window mean. An unknown index changes nothing, and no other sensor changes. |
| MovingAverage.SensorBank.AverageIsWindowMean | PicroBoards/Library/PicroBoards/AtverterH.cpp:215 | Every stored average is the truncated mean of its window. |
| Conversions.U16 | PicroBoards/Library/PicroBoards/AtverterH.cpp:294-297 | The `unsigned int` cast is reduction mod 2^16, and it is the identity in range. |
| Conversions.Raw2mVInRange | PicroBoards/Library/PicroBoards/AtverterH.cpp:294-297 | For 10-bit readings and VCC up to 5046 mV the cast does not wrap. Up to 5000 mV the result is within 0..65000 mV. |
| Conversions.MV2RawRoundTrip | PicroBoards/Library/PicroBoards/AtverterH.cpp:333-336 | Converting counts to mV and back is within -1..+3 counts. |
| Conversions.CurrentConversionsOdd | PicroBoards/Library/PicroBoards/AtverterH.cpp:308-312 | `raw2mA` and `mA2raw` are odd functions. |
| Conversions.MA2RawRoundTrip | PicroBoards/Library/PicroBoards/AtverterH.cpp:339-343 | Converting counts to mA and back loses at most two counts, toward zero. |
| Conversions.LegacyRaw2mA | AtverterH/Library/AtverterH/AtverterH.cpp:256-261 | The first library's conversion is the newer one applied to the reading minus 512. |
| Conversions.LegacyMA2Raw | AtverterH/Library/AtverterH/AtverterH.cpp:288-292 | The first library's inverse is the newer one plus 512. |
| Conversions.CurrentLimitTrips | PicroBoards/Library/PicroBoards/AtverterH.cpp:447-450 | A centred reading exceeds the raw limit of mA exactly when avg·1875 > mA·128, i.e. when the current at 5000 mV exceeds mA. The negative side is symmetric. |
| Conversions.CurrentLimitAgreesWithRaw2mA | PicroBoards/Library/PicroBoards/AtverterH.cpp:447-450 | A reading above the raw limit reads, through `raw2mA`, as a current at or above the limit. |
| Conversions.CurrentLimitMonotone | PicroBoards/Library/PicroBoards/AtverterH.cpp:447-450 | A larger current gives a limit at least as large. |
| Conversions.RDroopReadBack | PicroBoards/Library/PicroBoards/AtverterH.cpp:348-359 | `getRDroop` after `setRDroop(m)` returns m, rounded down by less than 5 mΩ. |
| Conversions.VDroopProperties | PicroBoards/Library/PicroBoards/AtverterH.cpp:367-369 | The droop voltage is 0 without droop, monotone in the current and odd. |
| Conversions.MeanOf | PicroBoards/Library/PicroBoards/AtverterH.cpp:161-165 | The accumulate-and-divide loop computes the truncated mean of the readings. |
| Conversions.MeanBounds | PicroBoards/Library/PicroBoards/AtverterH.cpp:161-165 | Non-negative readings in [lo, hi] have their mean in [lo, hi]. |
| Conversions.UsbCorrected | PicroBoards/Library/PicroBoards/AtverterH.cpp:166-168 | The result is at least 4950. A VCC at or above 4950 mV is kept, and anything lower becomes 5000. |
| Conversions.TableIncreasing | PicroBoards/Library/PicroBoards/AtverterH.h:110-125 | The thermistor table rises strictly in both columns. |
| Conversions.SegmentFrom | PicroBoards/Library/PicroBoards/AtverterH.cpp:320-328 | The search finds the first entry above the reading, or the last segment. |
| Conversions.SearchAsWrittenFails | PicroBoards/Library/PicroBoards/AtverterH.cpp:315-330 | As written, a reading of 880 or more leaves x0 = x1 = 0, which is a division by zero. |
| Conversions.SearchAsWrittenAgrees | PicroBoards/Library/PicroBoards/AtverterH.cpp:315-330 | Below 880, the search as written finds the segment the corrected conversion uses. |
| Conversions.Raw2DegC | PicroBoards/Library/PicroBoards/AtverterH.cpp:315-330 | The search loop and interpolation compute `DegC` for every reading below 880, where the search finds a segment; from 880 on the source divides by zero, so the method requires less. |
| Conversions.DegCAtTable | PicroBoards/Library/PicroBoards/AtverterH.h:110-125 | Each table reading converts to its table temperature. |
| Conversions.DegCBetween | PicroBoards/Library/PicroBoards/AtverterH.cpp:315-330 | Between two entries the temperature stays between theirs. Inside the table it is within 10..100 °C. |
| Conversions.DegCMonotone | PicroBoards/Library/PicroBoards/AtverterH.cpp:315-330 | A larger reading never gives a lower temperature. |
| Conversions.DegCAboveTable | PicroBoards/Library/PicroBoards/AtverterH.cpp:315-330 | From the last table reading on, the temperature is at least 100 °C. |
| SerialLine.SplitPreserves | PicroBoards/Library/PicroBoards/PicroBoard.cpp:66-81 | Completed lines plus pending text equal the old pending text plus the bytes. Each line ends in '\n' or fills the buffer, and the pending text fits. |
| SerialLine.SplitPartial | PicroBoards/Library/PicroBoards/PicroBoard.cpp:66-81 | Short text without a newline stays pending. |
| SerialLine.SplitOneLine | PicroBoards/Library/PicroBoards/PicroBoard.cpp:66-81 | A short command and its newline arrive as exactly one line. |
| SerialLine.SplitAppend | PicroBoards/Library/PicroBoards/PicroBoard.cpp:66-81 | Reading a+b equals reading a and then b. |
| SerialLine.LineBuffer.constructor | PicroBoards/Library/PicroBoards/PicroBoard.cpp:11-12 | The buffer is empty with the given capacity. |
| SerialLine.LineBuffer.Push | PicroBoards/Library/PicroBoards/PicroBoard.cpp:69-79 | One byte follows the line step. A completed line is what the buffer then holds as a C string. |
| SerialLine.LineBuffer.ReadAll | PicroBoards/Library/PicroBoards/PicroBoard.cpp:66-81 | The loop over the bytes returns exactly `Split` of the old pending text and the bytes. |
| SerialLine.ReceiveShifted | PicroBoards/Library/PicroBoards/PicroBoard.cpp:103-113 | After the copy and shift, the buffer holds the message without its first byte. An empty message changes nothing. |
| PicroBoardBase.Calls | PicroBoards/Library/PicroBoards/AtverterH.cpp:626-630 | Every registered callback is called once, in order, with the command, value and protocol. |
| PicroBoardBase.PicroBoard.constructor | PicroBoards/Library/PicroBoards/PicroBoard.cpp:11-12 | No callbacks, and empty buffers and outputs. |
| PicroBoardBase.PicroBoard.AddCommandCallback | PicroBoards/Library/PicroBoards/PicroBoard.cpp:15-20 | A callback is appended while fewer than 10 are registered and dropped otherwise. Nothing else changes. |
| PicroBoardBase.PicroBoard.InvokeCallbacks | PicroBoards/Library/PicroBoards/AtverterH.cpp:626-630 | The invocation log grows by exactly `Calls`. Buffers and outputs are unchanged. |
| PicroBoardBase.PicroBoard.WriteTX | PicroBoards/Library/PicroBoards/PicroBoard.cpp:51-53 | `sprintf(getTXBuffer(p))` replaces that transport's buffer only. |
| PicroBoardBase.PicroBoard.Reply | PicroBoards/Library/PicroBoards/AtverterH.cpp:606-610 | A reply is written and handed to `respondToMaster`. Over UART it is printed and the buffer cleared; over I2C it stays buffered. |
| PicroBoardBase.PicroBoard.Respond | PicroBoards/Library/PicroBoards/AtverterH.cpp:578-631 | A built-in key's reply is answered. Any other command goes to the callbacks. |
| PicroBoardBase.PicroBoard.RespondToMaster | PicroBoards/Library/PicroBoards/PicroBoard.cpp:34-48 | UART prints the buffer and clears it. I2C and other protocols change nothing. |
| PicroBoardBase.PicroBoard.ReadUART | PicroBoards/Library/PicroBoards/PicroBoard.cpp:66-81 | The lines handed to the parser are exactly `Split` of the pending text and the bytes, at the 16-byte capacity `COMMBUFFERSIZE`. |
| PicroBoardBase.PicroBoard.ReceiveEventI2C | PicroBoards/Library/PicroBoards/PicroBoard.cpp:103-113 | For messages shorter than the 16-byte buffer, the parsed text is the message without its register byte; longer ones overflow the buffer at PicroBoard.cpp:106, so they are required away. |
| PicroBoardBase.PicroBoard.RequestEventI2C | PicroBoards/Library/PicroBoards/PicroBoard.cpp:115-119 | The I2C buffer is sent once and cleared. |
| LegacyBoardBase.PicrogridBoard.constructor | AtverterH/Library/PicrogridBoards/PicrogridBoard.cpp:11-12 | Empty board with the given buffer size and callback capacity. |
| LegacyBoardBase.PicrogridBoard.AddCommandCallback | AtverterH/Library/PicrogridBoards/PicrogridBoard.cpp:15-20 | Bounded append. Later registrations are dropped. |
| LegacyBoardBase.PicrogridBoard.RespondToMaster | AtverterH/Library/PicrogridBoards/PicrogridBoard.cpp:34-48 | UART prints and clears. I2C prints but keeps the reply. |
| LegacyBoardBase.PicrogridBoard.ReadUART | AtverterH/Library/PicrogridBoards/PicrogridBoard.cpp:66-78 | Lines close on '\n' or at capacity − 1 bytes, as `Split`. |
| LegacyBoardBase.PicrogridBoard.ReceiveEventI2C | AtverterH/Library/PicrogridBoards/PicrogridBoard.cpp:100-110 | Prints "received". For messages shorter than the buffer, the parsed text is the message without its first byte; longer ones overflow it, so they are required away. |
| LegacyBoardBase.PicrogridBoard.RequestEventI2C | AtverterH/Library/PicrogridBoards/PicrogridBoard.cpp:112-116 | Prints "requested", then sends the I2C buffer once and clears it. |
| PicroCommLib.FirstLineSplit | PicroComm/PicroComm.cpp:25-38 | Stopping at the first line agrees with the line accumulator on the bytes taken. With no line, every byte is taken. |
| PicroCommLib.PicroComm.constructor | PicroComm/PicroComm.cpp:11-12 | An empty receive buffer. |
| PicroCommLib.PicroComm.ReadUART | PicroComm/PicroComm.cpp:25-38 | `done` is true exactly when a line completed, and then it is in the buffer as a C string. The bytes after it stay unread. |
| PicroCommLib.PicroComm.GetUARTBuffer | PicroComm/PicroComm.cpp:41-43 | The buffer's C string. |
| AtverterControl.Shifted | PicroBoards/Library/PicroBoards/AtverterH.cpp:493-503 | The shifted history keeps its length and has the new value at index 0. |
| AtverterControl.ShiftedHistory | PicroBoards/Library/PicroBoards/AtverterH.cpp:493-503 | The first `size` entries are the new value followed by the newest `size − 1` old ones. Entries past `size` are unchanged. |
| AtverterControl.Filled | PicroBoards/Library/PicroBoards/AtverterH.cpp:525-534 | The first `size` entries become v and the rest are kept. |
| AtverterControl.DifferenceEquation | PicroBoards/Library/PicroBoards/AtverterH.cpp:509-522 | The output solves den·y = num·x up to a truncation error smaller than \|den[0]\|, with the sign of the right-hand side. |
| AtverterControl.UnitCompensator | PicroBoards/Library/PicroBoards/AtverterH.cpp:509-522 | With num = den = {1}, the output is the newest input. |
| AtverterControl.NudgeBounded | PicroBoards/Library/PicroBoards/AtverterH.cpp:563-569 | A step moves the duty cycle by at most 1 within [1, 99]: up for a positive average error, down for a non-positive average with a negative newest error, otherwise not at all. |
| AtverterControl.GradDescQuiet | PicroBoards/Library/PicroBoards/AtverterH.cpp:552-571 | From a reset counter, the first settle+average calls never step. Errors are accumulated from call `settle` on. |
| AtverterControl.GradDescFires | PicroBoards/Library/PicroBoards/AtverterH.cpp:552-571 | The next call steps on the accumulated avg+2 errors and then resets. |
| AtverterControl.TriggeredStep | PicroBoards/Library/PicroBoards/AtverterH.cpp:546-549 | After a trigger, the next call steps on its own error alone. |
| AtverterControl.GradStepBounded | PicroBoards/Library/PicroBoards/AtverterH.cpp:552-571 | Every call keeps the duty cycle in [1, 99], moves it by at most one, and moves it only when it steps. |
| AtverterControl.TicksAppend | PicroBoards/Library/PicroBoards/AtverterH.cpp:120-125 | Running a calls and then b calls is running a+b calls. |
| AtverterControl.TicksCountDown | PicroBoards/Library/PicroBoards/AtverterH.cpp:120-125 | Above the threshold, calls only count down. |
| AtverterControl.BootstrapPeriod | PicroBoards/Library/PicroBoards/AtverterH.cpp:120-125 | From a reload there is exactly one refresh per max calls in the newer board (max+1 in the first), and the counter is back at max. |
| AtverterControl.BootstrapEvery | AtverterH/Library/AtverterH/AtverterH.cpp:100-105 | n periods give exactly n refreshes. |
| AtverterBoard.OverCurrentInMilliamps | PicroBoards/Library/PicroBoards/AtverterH.cpp:460-467 | A trip means some terminal current beyond its mA limit, in either direction. A current exactly at the limit does not trip. |
| AtverterBoard.OverTemperatureMonotone | PicroBoards/Library/PicroBoards/AtverterH.cpp:475-478 | Under the corrected conversion `DegC`, hotter readings never clear a thermal trip, and a reading of 880 or more trips any limit below 100 °C. |
| AtverterBoard.KeyClasses | PicroBoards/Library/PicroBoards/AtverterH.cpp:578-625 | Read keys start with 'R' and write keys with 'W'. |
| AtverterBoard.ReplyAnswersKeys | PicroBoards/Library/PicroBoards/AtverterH.cpp:578-631 | A reply is produced exactly for the built-in keys. |
| AtverterBoard.ReadReplyText | PicroBoards/Library/PicroBoards/AtverterH.cpp:579-605 | `Rxxx` is answered with `Wxxx:<getter>`. |
| AtverterBoard.WriteReplyText | PicroBoards/Library/PicroBoards/AtverterH.cpp:606-625 | `Wxxx` is answered with `Wxxx:=<atoi(value)>`. |
| AtverterBoard.TemperatureOneReply | PicroBoards/Library/PicroBoards/AtverterH.cpp:591-593 | `RT1` reports the side-2 temperature. |
| AtverterBoard.WriteThenRead | PicroBoards/Library/PicroBoards/AtverterH.cpp:606-625 | A WDRP write reads back within 5 mΩ. WTSD stores the limit. A WIS1 limit trips exactly the currents beyond it. WIS1 and WIS2 do not affect each other. |
| AtverterBoard.ShiftRight | PicroBoards/Library/PicroBoards/AtverterH.cpp:495-502 | The shift loop computes `Shifted`. |
| AtverterBoard.Fill | PicroBoards/Library/PicroBoards/AtverterH.cpp:526-533 | The reset loop computes `Filled`. |
| AtverterBoard.Atverter.constructor | PicroBoards/Library/PicroBoards/AtverterH.h:215-245 | The declared defaults: duty 50, limits 444/444/80 °C, droop 0, grad-descent 4/4, code 0, and zeroed histories. |
| AtverterBoard.Atverter.UpdateSensorRaw | PicroBoards/Library/PicroBoards/AtverterH.cpp:185-220 | That sensor's window drops its oldest sample and gains the new one. The others are unchanged. |
| AtverterBoard.Atverter.UpdateVISensors | PicroBoards/Library/PicroBoards/AtverterH.cpp:176-183 | V1 and V2 gain their readings, and I1 and I2 gain theirs minus 512. The thermistors are unchanged. |
| AtverterBoard.Atverter.UpdateTSensors | PicroBoards/Library/PicroBoards/AtverterH.cpp:171-174 | The two thermistor windows gain their readings, and the others are unchanged. |
| AtverterBoard.Atverter.UpdateVCC | PicroBoards/Library/PicroBoards/AtverterH.cpp:160-169 | VCC becomes the USB-corrected truncated mean, so it is at least 4950. Nothing else changes. |
| AtverterBoard.Atverter.SetDutyCycle | PicroBoards/Library/PicroBoards/AtverterH.cpp:94-99 | The duty cycle becomes the value clamped to [1, 99]. |
| AtverterBoard.Atverter.InitializeInterruptTimer | PicroBoards/Library/PicroBoards/AtverterH.cpp:56-64 | The refresh period is max(1, 1000/periodus) control periods, so at most 1 ms for control periods up to 1 ms; a longer period refreshes every period. |
| AtverterBoard.Atverter.CheckBootstrapRefresh | PicroBoards/Library/PicroBoards/AtverterH.cpp:120-125 | One countdown step. It refreshes and reloads exactly when the counter reaches 0. |
| AtverterBoard.Atverter.ApplyHoldHigh | PicroBoards/Library/PicroBoards/AtverterH.cpp:134-148 | Switching a gate driver to the always-high signal reloads the bootstrap counter to its maximum and changes nothing else the model keeps. |
| AtverterBoard.Atverter.ShutdownGates | PicroBoards/Library/PicroBoards/AtverterH.cpp:423-430 | The latch is set and the code recorded. |
| AtverterBoard.Atverter.ShutdownGatesUnlabeled | PicroBoards/Library/PicroBoards/AtverterH.cpp:418-420 | A shutdown with the SOFTWAREUNLABELED code. |
| AtverterBoard.Atverter.EnableGateDrivers | PicroBoards/Library/PicroBoards/AtverterH.cpp:67-77 | The latch is cleared and the code set to HARDWARE. |
| AtverterBoard.Atverter.HardwareTrip | PicroBoards/Library/PicroBoards/AtverterH.cpp:438-443 | The circuit latching by itself leaves the code untouched. |
| AtverterBoard.Atverter.GetShutdownCode | PicroBoards/Library/PicroBoards/AtverterH.cpp:438-443 | -1 while running, otherwise the stored code. |
| AtverterBoard.Atverter.SetCurrentShutdown1 | PicroBoards/Library/PicroBoards/AtverterH.cpp:447-450 | Only limit 1 changes, to the raw limit of the current. |
| AtverterBoard.Atverter.SetCurrentShutdown2 | PicroBoards/Library/PicroBoards/AtverterH.cpp:454-457 | Only limit 2 changes, to the raw limit of the current. |
| AtverterBoard.Atverter.SetThermalShutdown | PicroBoards/Library/PicroBoards/AtverterH.cpp:470-472 | Only the thermal limit changes. |
| AtverterBoard.Atverter.SetRDroop | PicroBoards/Library/PicroBoards/AtverterH.cpp:348-354 | Only the droop changes, to its raw form. |
| AtverterBoard.Atverter.CheckCurrentShutdown | PicroBoards/Library/PicroBoards/AtverterH.cpp:460-467 | An over-current shuts the gates down with OVERCURRENT. Otherwise nothing changes. |
| AtverterBoard.Atverter.CheckThermalShutdown | PicroBoards/Library/PicroBoards/AtverterH.cpp:475-478 | For thermistor averages below 880, an over-temperature shuts the gates down with OVERTEMPERATURE. Otherwise nothing changes. |
| AtverterBoard.Atverter.SetComp | PicroBoards/Library/PicroBoards/AtverterH.cpp:484-489 | The coefficients and sizes are replaced. |
| AtverterBoard.Atverter.UpdateCompPast | PicroBoards/Library/PicroBoards/AtverterH.cpp:493-503 | The inputs shift in x. The outputs shift, keeping the newest in place. |
| AtverterBoard.Atverter.CalculateCompOut | PicroBoards/Library/PicroBoards/AtverterH.cpp:509-522 | Returns and stores at index 0 the difference-equation output. |
| AtverterBoard.Atverter.ResetComp | PicroBoards/Library/PicroBoards/AtverterH.cpp:525-534 | Inputs are cleared, and outputs are set to duty·10. |
| AtverterBoard.Atverter.SetGradDescCountMax | PicroBoards/Library/PicroBoards/AtverterH.cpp:539-543 | New settle and average counts, and a reset counter. |
| AtverterBoard.Atverter.TriggerGradDescStep | PicroBoards/Library/PicroBoards/AtverterH.cpp:546-549 | The counter is set to settle+average and the accumulator to 0. |
| AtverterBoard.Atverter.GradDescStep | PicroBoards/Library/PicroBoards/AtverterH.cpp:552-571 | The stepper state advances by `GradStep`. On a step, the starting duty is stored as the newest compensator output in raw form. |
| AtverterBoard.Atverter.InterpretRXCommand | PicroBoards/Library/PicroBoards/AtverterH.cpp:578-631 | A built-in key is answered on its transport, after a write key has applied its setter. Any other command goes to every callback. RT1 and RT2 require the T2 average below 880. |
| AtverterBoard.Atverter.WriteSetting | PicroBoards/Library/PicroBoards/AtverterH.cpp:606-625 | The write key's setter, as `ApplyWrite`. |
| MicroPanelBoard.ITotalRounding | PicroBoards/Library/PicroBoards/MicroPanelH.cpp:291-293 | Summing converted channel currents differs from converting the raw sum by less than 5 mA. |
| MicroPanelBoard.TripRules | PicroBoards/Library/PicroBoards/MicroPanelH.cpp:460-477 | A total over its limit trips every channel. Under a non-negative limit, a channel at or below zero trips only through the total. More current never clears a trip. |
| MicroPanelBoard.ShutdownRule | PicroBoards/Library/PicroBoards/MicroPanelH.cpp:460-477 | The four per-channel updates follow `Trips`. |
| MicroPanelBoard.ApplyLimitThenTrip | PicroBoards/Library/PicroBoards/MicroPanelH.cpp:427-451 | Writing a channel limit changes only that limit. It trips exactly the currents above the value in mA. |
| MicroPanelBoard.KeyClasses | PicroBoards/Library/PicroBoards/MicroPanelH.cpp:508-586 | Read, channel and limit keys are told apart by their first two letters. |
| MicroPanelBoard.ChannelOfKey | PicroBoards/Library/PicroBoards/MicroPanelH.cpp:542-561 | `WCHn` names channel n−1, in 0..3. |
| MicroPanelBoard.ReplyAnswersKeys | PicroBoards/Library/PicroBoards/MicroPanelH.cpp:508-592 | A reply is produced exactly for the built-in keys. |
| MicroPanelBoard.BusVoltageReply | PicroBoards/Library/PicroBoards/MicroPanelH.cpp:509-511 | `RVB` is answered `WVB:<mV>`. |
| MicroPanelBoard.ChannelReplyText | PicroBoards/Library/PicroBoards/MicroPanelH.cpp:542-561 | `WCHn` is answered `:=1` or `:=0` as its value parses non-zero or not. |
| MicroPanelBoard.LimitReplyText | PicroBoards/Library/PicroBoards/MicroPanelH.cpp:562-586 | A limit key is answered with its parsed value. |
| MicroPanelBoard.RoundOfUpdates | PicroBoards/Library/PicroBoards/MicroPanelH.cpp:182-190 | One round feeds each window its reading, with the currents centred. |
| MicroPanelBoard.FeedRound | PicroBoards/Library/PicroBoards/MicroPanelH.cpp:46-48 | One more round extends each window's feed. |
| MicroPanelBoard.LongestIsSixteen | PicroBoards/Library/PicroBoards/MicroPanelH.h:48-59 | The longest window is 16. |
| MicroPanelBoard.LatestRounds | PicroBoards/Library/PicroBoards/MicroPanelH.cpp:40-49 | After the longest window's number of rounds, every window holds its sensor's latest readings. |
| MicroPanelBoard.MicroPanel.constructor | PicroBoards/Library/PicroBoards/MicroPanelH.h:125-135 | Zeroed sensors and channel limits of 444, from the header's initialisers. The header's one hold time of 20 µs becomes four, one per channel, as MicroPanelH.cpp:63-78 and 105 index it. The hardware-shutoff flags (MicroPanelH.cpp:112-146), the total limit (MicroPanelH.cpp:456) and the droop resistance are declared nowhere in the header, so the model starts them clear and at zero by choice. |
| MicroPanelBoard.MicroPanel.UpdateSensorRaw | PicroBoards/Library/PicroBoards/MicroPanelH.cpp:192-224 | That sensor's window drops its oldest sample and gains the new one. The others are unchanged. |
| MicroPanelBoard.MicroPanel.UpdateVISensors | PicroBoards/Library/PicroBoards/MicroPanelH.cpp:182-190 | Each window gains its reading, with the currents minus 512. |
| MicroPanelBoard.MicroPanel.UpdateVCC | PicroBoards/Library/PicroBoards/MicroPanelH.cpp:171-180 | The USB-corrected truncated mean. |
| MicroPanelBoard.MicroPanel.InitializeSensors | PicroBoards/Library/PicroBoards/MicroPanelH.cpp:40-49 | VCC is measured, then 16 rounds leave every window holding its latest readings. |
| MicroPanelBoard.MicroPanel.UpdateRounds | PicroBoards/Library/PicroBoards/MicroPanelH.cpp:46-48 | Each round is fed in order. |
| MicroPanelBoard.MicroPanel.SetChannel | PicroBoards/Library/PicroBoards/MicroPanelH.cpp:62-79 | The channel is on exactly for a non-zero state. The others are unchanged. |
| MicroPanelBoard.MicroPanel.GetChannel | PicroBoards/Library/PicroBoards/MicroPanelH.cpp:152-166 | 1 when on, otherwise 0. |
| MicroPanelBoard.MicroPanel.ShutdownChannels | PicroBoards/Library/PicroBoards/MicroPanelH.cpp:404-418 | Every channel is off. |
| MicroPanelBoard.MicroPanel.IsSomeChannelsActive | PicroBoards/Library/PicroBoards/MicroPanelH.cpp:421-423 | True exactly when some channel is on. |
| MicroPanelBoard.MicroPanel.SetDefaultInrushOverride | PicroBoards/Library/PicroBoards/MicroPanelH.cpp:102-106 | Only channels 1..4 are set, and other numbers are ignored. |
| MicroPanelBoard.MicroPanel.SetDefaultInrushOverrideAll | PicroBoards/Library/PicroBoards/MicroPanelH.cpp:95-100 | All four hold times are set. |
| MicroPanelBoard.MicroPanel.SetHardwareShutoff | PicroBoards/Library/PicroBoards/MicroPanelH.cpp:109-150 | Only channels 1..4 have a flag, and it is set as requested. |
| MicroPanelBoard.MicroPanel.SetCurrentLimit | PicroBoards/Library/PicroBoards/MicroPanelH.cpp:427-451 | Only that channel's limit changes, to the raw limit. |
| MicroPanelBoard.MicroPanel.SetCurrentLimitTotal | PicroBoards/Library/PicroBoards/MicroPanelH.cpp:454-457 | Only the total limit changes. |
| MicroPanelBoard.MicroPanel.CheckCurrentShutdown | PicroBoards/Library/PicroBoards/MicroPanelH.cpp:460-477 | Exactly the tripping channels are switched off. None is switched on, and nothing else changes. |
| MicroPanelBoard.MicroPanel.Initialize | PicroBoards/Library/PicroBoards/MicroPanelH.cpp:13-22 | All channels off, sensors initialised, and limits of 6500 mA per channel and 22000 mA in total. |
| MicroPanelBoard.MicroPanel.SetRDroop | PicroBoards/Library/PicroBoards/MicroPanelH.cpp:334-340 | The droop is stored in raw form. |
| MicroPanelBoard.MicroPanel.GetRDroop | PicroBoards/Library/PicroBoards/MicroPanelH.cpp:343-345 | Returns the stored droop in mΩ. |
| MicroPanelBoard.MicroPanel.GetVDroopRaw | PicroBoards/Library/PicroBoards/MicroPanelH.cpp:353-355 | The droop voltage, which is 0 without droop. |
| MicroPanelBoard.MicroPanel.InterpretRXCommand | PicroBoards/Library/PicroBoards/MicroPanelH.cpp:508-592 | A built-in key is answered on its transport, after its channel or limit has been applied. Any other command goes to the callbacks. |
| MicroPanelBoard.MicroPanel.ApplyCommand | PicroBoards/Library/PicroBoards/MicroPanelH.cpp:542-586 | A channel key sets its channel, and a limit key sets its limit. |
| MicroPanelBoard.MicroPanel.WriteLimit | PicroBoards/Library/PicroBoards/MicroPanelH.cpp:562-586 | The limit key's setter. |
| PiSupplyBoard.SetThenGet | PicroBoards/Library/PicroBoards/PiSupplyH.cpp:60-93 | Setting a channel turns it on exactly for a non-zero state, whatever the pin level. The other channels are unchanged. |
| PiSupplyBoard.ShutdownLevels | PicroBoards/Library/PicroBoards/PiSupplyH.cpp:321-333 | Shutting down the outputs keeps the Pi's level. Shutting down everything turns all of them off. |
| PiSupplyBoard.AnalogIndex | PicroBoards/Library/PicroBoards/PiSupplyH.cpp:198-213 | Only pins 0, 1, 6 and 7 have a sensor. |
| PiSupplyBoard.AnalogIndexInjective | PicroBoards/Library/PicroBoards/PiSupplyH.cpp:198-213 | The four pins have four distinct sensors, in pin order. |
| PiSupplyBoard.Int16 | PicroBoards/Library/PicroBoards/PiSupplyH.cpp:228-230 | The `unsigned int` to `int` cast: values of 32768 and up come out negative. |
| PiSupplyBoard.RoundOfUpdates | PicroBoards/Library/PicroBoards/PiSupplyH.cpp:143-146 | One `updateSensors` round feeds each window its reading. |
| PiSupplyBoard.FeedRound | PicroBoards/Library/PicroBoards/PiSupplyH.cpp:38-47 | One more round extends each window's feed. |
| PiSupplyBoard.LongestIsThirtyTwo | PicroBoards/Library/PicroBoards/PiSupplyH.h:57-69 | The longest window is 32. |
| PiSupplyBoard.AllRounds | PicroBoards/Library/PicroBoards/PiSupplyH.cpp:38-47 | After 32 rounds, each window holds exactly those rounds' readings. |
| PiSupplyBoard.KeyClasses | PicroBoards/Library/PicroBoards/PiSupplyH.cpp:341-377 | Read keys start with 'R' and write keys with "WC". |
| PiSupplyBoard.ChannelOfKey | PicroBoards/Library/PicroBoards/PiSupplyH.cpp:362-381 | Each write key names its channel. |
| PiSupplyBoard.ReplyAnswersKeys | PicroBoards/Library/PicroBoards/PiSupplyH.cpp:340-387 | A reply is produced exactly for the built-in keys. |
| PiSupplyBoard.ReadReplyText | PicroBoards/Library/PicroBoards/PiSupplyH.cpp:341-361 | `RV48` and `RC12V` are answered with their getters. |
| PiSupplyBoard.WriteReplyText | PicroBoards/Library/PicroBoards/PiSupplyH.cpp:362-381 | A write key is answered `:=1` or `:=0`. |
| PiSupplyBoard.PiSupply.constructor | PicroBoards/Library/PicroBoards/PiSupplyH.h:122-127 | Zeroed sensors and the given output levels. |
| PiSupplyBoard.PiSupply.SetChannel | PicroBoards/Library/PicroBoards/PiSupplyH.cpp:60-77 | The pin is written so that the channel is on exactly for a non-zero state. |
| PiSupplyBoard.PiSupply.GetChannel | PicroBoards/Library/PicroBoards/PiSupplyH.cpp:79-93 | 1 when the channel is on. |
| PiSupplyBoard.PiSupply.ShutdownOutputChannels | PicroBoards/Library/PicroBoards/PiSupplyH.cpp:321-325 | Outputs other than the Pi are off, and the Pi keeps its level. |
| PiSupplyBoard.PiSupply.ShutdownAllChannels | PicroBoards/Library/PicroBoards/PiSupplyH.cpp:328-333 | Every output is off. |
| PiSupplyBoard.PiSupply.UpdateVCC | PicroBoards/Library/PicroBoards/PiSupplyH.cpp:98-107 | The truncated mean, with no USB correction. |
| PiSupplyBoard.PiSupply.UpdateSensorRaw | PicroBoards/Library/PicroBoards/PiSupplyH.cpp:148-183 | That sensor's window drops its oldest sample and gains the new one. The others are unchanged. |
| PiSupplyBoard.PiSupply.UpdateVSensors | PicroBoards/Library/PicroBoards/PiSupplyH.cpp:110-114 | The two bus windows gain their readings. |
| PiSupplyBoard.PiSupply.UpdateASensor | PicroBoards/Library/PicroBoards/PiSupplyH.cpp:117-133 | An analog pin's reading goes to its sensor. Other pins are ignored. |
| PiSupplyBoard.PiSupply.UpdateASensors | PicroBoards/Library/PicroBoards/PiSupplyH.cpp:136-141 | The four pins' windows gain their readings. |
| PiSupplyBoard.PiSupply.UpdateSensors | PicroBoards/Library/PicroBoards/PiSupplyH.cpp:143-146 | Every window gains its own reading. |
| PiSupplyBoard.PiSupply.UpdateRounds | PicroBoards/Library/PicroBoards/PiSupplyH.cpp:44-46 | The rounds are fed in order. |
| PiSupplyBoard.PiSupply.InitializeSensors | PicroBoards/Library/PicroBoards/PiSupplyH.cpp:38-47 | After 32 rounds, each window holds exactly this call's readings, and each average is their mean. |
| PiSupplyBoard.PiSupply.Initialize | PicroBoards/Library/PicroBoards/PiSupplyH.cpp:13-17 | Outputs other than the Pi are off, then the sensors are initialised. |
| PiSupplyBoard.PiSupply.Analog | PicroBoards/Library/PicroBoards/PiSupplyH.cpp:233-235 | The averaged pin voltage raw·VCC/1024, within 0..VCC. |
| PiSupplyBoard.PiSupply.InterpretRXCommand | PicroBoards/Library/PicroBoards/PiSupplyH.cpp:340-387 | A built-in key is answered, after a write key has switched its channel. Any other command goes to the callbacks. |
| PiSupplyBoard.AdcBounds | PicroBoards/Library/PicroBoards/PiSupplyH.cpp:246-249 | raw·VCC/1024 for a 10-bit reading lies below VCC, or is 0. |
| LegacyAtverter.CopyLoop | AtverterH/Library/AtverterH/AtverterH.cpp:160-168 | The copy loop keeps the column length and sets row 0 to the sample. Rows 1..w−1 all take the previous row-0 sample. |
| LegacyAtverter.CopyLoopWindowSum | AtverterH/Library/AtverterH/AtverterH.cpp:160-168 | The accumulator is the sum of the window left behind. |
| LegacyAtverter.CopyLoopForgets | AtverterH/Library/AtverterH/AtverterH.cpp:160-168 | After two updates, the window holds only the last two samples. |
| LegacyAtverter.SteadyAverage | AtverterH/Library/AtverterH/AtverterH.cpp:160-168 | A steady reading averages to itself. |
| LegacyAtverter.CopyLoopIsNotAShift | AtverterH/Library/AtverterH/AtverterH.cpp:160-168 | A concrete column on which the loop's average differs from the moving average's. |
| LegacyAtverter.InitializedWindow | AtverterH/Library/AtverterH/AtverterH.cpp:33-39 | After initialisation, the average is the last reading plus w−1 copies of the one before it, over w. |
| LegacyAtverter.FedRound | AtverterH/Library/AtverterH/AtverterH.cpp:33-39 | One more round feeds each column one sample. |
| LegacyAtverter.MidpointOverCurrentInMilliamps | AtverterH/Library/AtverterH/AtverterH.cpp:361-368 | The midpoint check is the newer check on readings centred by 512, with one shared limit. |
| LegacyAtverter.LegacyMA2RawRoundTrip | AtverterH/Library/AtverterH/AtverterH.cpp:288-292 | Converting counts to mA and back moves at most two counts toward 512. |
| LegacyAtverter.Atverter.constructor | AtverterH/Library/AtverterH/AtverterH.h:86 | Duty cycle 50, the header's one initialiser. The header declares only `_dutyCycle` and `bootstrapCounter`; the AVGWIN×6 sample array, the zero starting values of every other field and the thermistor table that `CheckThermalShutdown` uses (the newer library's `TTABLE`, since the first library's is not part of this model) are the model's own choices. |
| LegacyAtverter.Atverter.UpdateSensorRaw | AtverterH/Library/AtverterH/AtverterH.cpp:160-168 | The sensor's column becomes `CopyLoop` and its average the truncated window mean. |
| LegacyAtverter.Atverter.UpdateVISensors | AtverterH/Library/AtverterH/AtverterH.cpp:151-158 | Each of the four columns is fed its reading. |
| LegacyAtverter.Atverter.UpdateTSensors | AtverterH/Library/AtverterH/AtverterH.cpp:146-149 | Both thermistor columns are fed their readings. |
| LegacyAtverter.Atverter.UpdateRound | AtverterH/Library/AtverterH/AtverterH.cpp:36-38 | One round feeds every column. |
| LegacyAtverter.Atverter.InitializeSensors | AtverterH/Library/AtverterH/AtverterH.cpp:33-39 | The window becomes w, and each column is `Fed` its w readings. |
| LegacyAtverter.Atverter.InitializeSensorsDefault | AtverterH/Library/AtverterH/AtverterH.cpp:42-44 | The same, with window 4. |
| LegacyAtverter.Atverter.UpdateVCC | AtverterH/Library/AtverterH/AtverterH.cpp:138-144 | The truncated mean, with no USB correction. |
| LegacyAtverter.Atverter.SetDutyCycle | AtverterH/Library/AtverterH/AtverterH.cpp:75-80 | Clamped to [1, 99]. |
| LegacyAtverter.Atverter.GetDutyCycle | AtverterH/Library/AtverterH/AtverterH.cpp:88-90 | Always within [1, 99]. |
| LegacyAtverter.Atverter.InitializeInterruptTimer | AtverterH/Library/AtverterH/AtverterH.cpp:49-54 | The refresh period is 10000/periodus, with no lower bound. |
| LegacyAtverter.Atverter.CheckBootstrapRefresh | AtverterH/Library/AtverterH/AtverterH.cpp:100-105 | Counts down, refreshing once the counter drops below 0. |
| LegacyAtverter.Atverter.ShutdownGates | AtverterH/Library/AtverterH/AtverterH.cpp:341-347 | The latch is set. |
| LegacyAtverter.Atverter.EnableGateDrivers | AtverterH/Library/AtverterH/AtverterH.cpp:57-61 | The latch is cleared. |
| LegacyAtverter.Atverter.IsGateShutdown | AtverterH/Library/AtverterH/AtverterH.cpp:350-352 | Returns the latch level (the source reads the pin with `analogRead`; see Left out). |
| LegacyAtverter.Atverter.SetCurrentShutdown | AtverterH/Library/AtverterH/AtverterH.cpp:355-358 | One shared limit, in raw counts. |
| LegacyAtverter.Atverter.CheckCurrentShutdown | AtverterH/Library/AtverterH/AtverterH.cpp:361-368 | The gates shut when a current average leaves [512 − limit, 512 + limit]. |
| LegacyAtverter.Atverter.SetThermalShutdown | AtverterH/Library/AtverterH/AtverterH.cpp:371-373 | Only the thermal limit changes. |
| LegacyAtverter.Atverter.CheckThermalShutdown | AtverterH/Library/AtverterH/AtverterH.cpp:376-379 | For thermistor averages below 880, the gates shut when a thermistor reads strictly above the limit. Otherwise nothing changes. |
| HostReply.Split | RaspberryPi/CoreExamples/BatteryCurve/BatteryCurve.py:56 | `split` gives at least one piece, and no piece holds the separator. |
| HostReply.JoinSplit | RaspberryPi/CoreExamples/BatteryCurve/BatteryCurve.py:56 | Joining the pieces gives back the text. |
| HostReply.SplitFirst | RaspberryPi/CoreExamples/BatteryCurve/BatteryCurve.py:56 | The first piece ends at the first separator. |
| HostReply.Without | RaspberryPi/CoreExamples/BatteryCurve/BatteryCurve.py:62-63 | `replace(c, '')` leaves no c, keeps the other characters, and is the identity when c is absent. |
| HostReply.WithoutConcat | RaspberryPi/CoreExamples/BatteryCurve/BatteryCurve.py:62-63 | Removal distributes over concatenation. |
| HostReply.ParseValueStr | RaspberryPi/CoreExamples/BatteryCurve/BatteryCurve.py:55-65 | Success gives a colon-free, line-end-free value. Failure is exactly ("Error", False). |
| HostReply.ParseNoSeparator | RaspberryPi/CoreExamples/BatteryCurve/BatteryCurve.py:57-58 | A message without ':' is an error. |
| HostReply.ParseErrorKey | RaspberryPi/CoreExamples/BatteryCurve/BatteryCurve.py:57-58 | A message with key `Error` is an error. |
| HostReply.ParseWriteAck | RaspberryPi/CoreExamples/BatteryCurve/BatteryCurve.py:60-61 | A firmware write acknowledgement `KEY:=n` is an error. |
| HostReply.ParseReadReply | RaspberryPi/CoreExamples/BatteryCurve/BatteryCurve.py:55-65 | A read reply with trailing line ends parses to the value's `%d` text. |
| HostReply.TryValueInt | RaspberryPi/CoreExamples/BatteryCurve/BatteryCurve.py:67-72 | Success holds exactly for signed decimal text. Failure is (-1, False). |
| HostReply.TryValueIntDecimal | RaspberryPi/CoreExamples/BatteryCurve/BatteryCurve.py:67-72 | `int` reads back what `%d` printed. |
| HostReply.TryValueIntIsAtoi | RaspberryPi/CoreExamples/BatteryCurve/BatteryCurve.py:67-72 | On signed decimal text, Python's `int` agrees with C's `atoi`. |
| HostReply.ReplyRoundTrip | RaspberryPi/CoreExamples/BatteryCurve/BatteryCurve.py:55-72 | A firmware read reply, parsed and then converted, gives back the number sent. |
| HostReply.BusVoltageRoundTrip | RaspberryPi/CoreExamples/BatteryCurve/BatteryCurve.py:55-72 | `WVB:<n>` reads back as n. |
| HostReply.StringToBytes | RaspberryPi/CoreExamples/BatteryCurve/BatteryCurve.py:49-53 | One code per character, in order. |
| CsvCleanup.SourceRow | RaspberryPi/CoreExamples/processOutput/cleanup.py:36-37 | A placeholder cell is filled from the nearest real cell above it, or from the header. |
| CsvCleanup.RealCellIsOwnSource | RaspberryPi/CoreExamples/processOutput/cleanup.py:38-40 | A real cell is kept. |
| CsvCleanup.StartsBefore | RaspberryPi/CoreExamples/processOutput/cleanup.py:24 | Group starts are increasing rows within 1..k−1, and row 1 is always one of them. |
| CsvCleanup.StartsBeforeExact | RaspberryPi/CoreExamples/processOutput/cleanup.py:24 | The rows listed are exactly those whose minute differs from the row above. |
| CsvCleanup.ColumnCount | RaspberryPi/CoreExamples/processOutput/cleanup.py:40 | The count of numbers is at most the number of rows. |
| CsvCleanup.EmptyColumnSumsToZero | RaspberryPi/CoreExamples/processOutput/cleanup.py:28-31 | A column without numbers sums to 0, which is the value written for it. |
| CsvCleanup.GroupMeans | RaspberryPi/CoreExamples/processOutput/cleanup.py:27-31 | One mean per header column. |
| CsvCleanup.EmptyMeans | RaspberryPi/CoreExamples/processOutput/cleanup.py:20-21 | The first flush writes zeros. |
| CsvCleanup.LastStart | RaspberryPi/CoreExamples/processOutput/cleanup.py:24-25 | The current group's start is a start, and no start lies after it. |
| CsvCleanup.LastStartIsLast | RaspberryPi/CoreExamples/processOutput/cleanup.py:24-25 | That start is the last one listed. |
| CsvCleanup.Emitted | RaspberryPi/CoreExamples/processOutput/cleanup.py:32 | Fewer lines than rows, and at least one once a data row is seen. |
| CsvCleanup.EmittedGroups | RaspberryPi/CoreExamples/processOutput/cleanup.py:24-34 | One line per group start. The first line is zeros, and line j holds the means of the group that ended at start j. |
| CsvCleanup.FillRow | RaspberryPi/CoreExamples/processOutput/cleanup.py:35-40 | Placeholders are copied from above, numbers accumulated and counted, and cells right of the header kept. |
| CsvCleanup.MeanLine | RaspberryPi/CoreExamples/processOutput/cleanup.py:27-31 | One (sum, count) pair per column. |
| CsvCleanup.StartGroup | RaspberryPi/CoreExamples/processOutput/cleanup.py:24-34 | Remembers the row's minute. At a group start it emits the next predicted line and resets the accumulators. |
| CsvCleanup.CleanRow | RaspberryPi/CoreExamples/processOutput/cleanup.py:23-40 | One pass keeps the cleaned prefix and the group invariant. |
| CsvCleanup.RowLoop | RaspberryPi/CoreExamples/processOutput/cleanup.py:23-40 | Every row is cleaned, and the summary is `Emitted`. |
| CsvCleanup.Cleanup | RaspberryPi/CoreExamples/processOutput/cleanup.py:23-42 | Every cleaned cell is its source row's cell, and the header is kept. The summary is the header followed by the means of each completed minute group. |
| CsvCleanup.GroupLine | RaspberryPi/CoreExamples/processOutput/cleanup.py:27-32 | The line appended at a start is the next one `Emitted` predicts. |

## Left out

- Integer widths: `int`/`long` overflow is not modelled. The one exception is the `unsigned int` and `int` casts of `raw2mV` and `getV12` (`U16`, `Int16`). `%u` replies print the same text as `%d` for the non-negative values involved.
- Pins, timers, delays, PWM set-up and LEDs are not modelled. This covers `setupPinMode`, `startPWM`, `initializePWMTimer`, the pin writes of `applyHoldHigh1`/`applyHoldHigh2` (their reload of the bootstrap counter is modelled by `ApplyHoldHigh`), `removeHold`, the inrush hold delay of `setChannel` and the interrupt timer registers. A channel's state is the level written to its pin.
- `readVCC`, the ADC and Serial/Wire I/O are not modelled: readings and received bytes are parameters, and transmitted text is a log.
- `setDutyCycleFloat` and `getDutyCycleFloat` are not modelled, because they use floating point.
- Callbacks are opaque identifiers: each invocation is logged, and its effect is not modelled.
- `setComp` stores the caller's coefficient arrays by pointer, so later changes to them show through. The model copies them instead.
- The PiSupply header declares `initializeSensors(int)`, but no definition of it is part of this model.
- `sendI2CCommand` and the rest of the battery-curve script's bus traffic are not modelled.
- `TryValueInt` covers only optional-sign-plus-digits text. Python's `int` also accepts surrounding white space and underscores, and those are not modelled.
- `AtverterBoard.Atverter.CheckThermalShutdown`, `LegacyAtverter.Atverter.CheckThermalShutdown` and `AtverterBoard.Atverter.InterpretRXCommand` (for RT1 and RT2) require the thermistor averages they convert to lie below 880. From 880 on, `raw2degC` divides by zero, which is undefined, so the model promises nothing there.
- `AtverterBoard.Atverter.InterpretRXCommand`, `MicroPanelBoard.MicroPanel.InterpretRXCommand` and `PiSupplyBoard.PiSupply.InterpretRXCommand` require a command, and a value for a write key. A null command and a write key without a value are required away, because `strcmp` and `atoi` on NULL are undefined. Every host read produces the null command: `read_i2c_block_data(addr, 0x00, 32)` sends only the register byte, `receiveEventI2C(1)` leaves an empty line, and `strtok` returns NULL for it. The model says nothing about what the boards then do.
- `PicroBoardBase.PicroBoard.ReceiveEventI2C`, `LegacyBoardBase.PicrogridBoard.ReceiveEventI2C` and `CText.ParseRXLine`: `strtok` writes NULs into the I2C buffer it parses (over the ':' and the '\n'), and the model's parse is pure, so the buffer keeps the whole line. The two differ on a later zero-byte receive, such as a bus probe: after `WIS1:3000`, the firmware re-parses `WIS1` with a NULL value, while the model's `ReceiveEventI2C([])` parses `WIS1:3000` again and would apply the write a second time.
- `AtverterBoard.OverTemperatureMonotone` speaks of the corrected conversion `DegC`, which extrapolates past the table. Its clause for readings of 880 or more says what the corrected firmware would do; the board methods above never reach it.
- `LegacyAtverter.Atverter.IsGateShutdown` returns the GATESD latch. The first library reads `analogRead(GATESD_PIN)` with `GATESD_PIN` = 6, which on the ATmega328 samples analog channel 6, the terminal-2 current sensor (`I2_PIN` = A6). Its result is therefore whether that current reading is non-zero, not the latch. The newer library reads `!digitalRead(GATESD_PIN)`, which the model follows.
- `ParseValueStr`: a message whose second field is empty (`KEY:`) makes Python raise IndexError. The model requires that field to be non-empty (`HasValueField`).
- `Cleanup` has these limits:
  - It requires every non-placeholder cell under the header to be an integer in the `TryValueInt` subset.
  - It requires at least one data row: for a header-only file, `data1min[0] = data[0]` at cleanup.py:42 raises IndexError.
  - It requires every data row to be at least as wide as the header; a narrower row raises IndexError at cleanup.py:35.
  - It requires every data row to hold the minute column; a row without one raises IndexError at cleanup.py:24.
  - Python's `round` (which rounds half to even) is not applied: each mean is kept as its (sum, count) pair.
  - The accumulators have the header's width; Python re-creates them with `len(data[n])`, but only the first `len(data[0])` entries are ever read.
  - CSV file reading and writing are not modelled.
  - The last minute group never gets a summary line, as in the script.

## Findings

| source | as written | input that shows it | evidently intended | confidence | as-written member | corrected member |
|---|---|---|---|---|---|---|
| PicroBoards/Library/PicroBoards/AtverterH.cpp:315-330 | when no table entry lies above the reading, x0 = x1 = 0 and the interpolation divides by x1 − x0 | raw = 880 (100 °C) or more | extrapolate on the last segment, giving at least 100 °C | not executed | Conversions.SearchAsWrittenFails | Conversions.DegCAboveTable |
| AtverterH/Library/AtverterH/AtverterH.cpp:160-168 | the copy loop runs n upward, so every row takes the previous row-0 sample instead of shifting | window 4, column 0, 8, 8, 8 (newest first), new sample 0: the average becomes 0 instead of 4 | shift the window by one, keeping the last w samples, as the newer library's ring buffer does | not executed | LegacyAtverter.CopyLoopIsNotAShift | MovingAverage.SensorBank.Update |
