# Buoy power module and wireless module: a Dafny model

The buoy's Power Module (PM) and Wireless Communication Module (WCM) are
SAM-based boards. Each one runs a C firmware loop. The loop serves an SPI
slave channel, which carries 8-byte frames from the main controller, and a
serial console, which carries CR/LF-terminated command lines from a PC.

On both channels a command is recognised by its first keyword, through an
if / else-if chain of `strstr` tests. A command either reads a sensor or
switches one of the board's output pins. The sensors are an LTC2944 battery
gauge (PM only), an MS5637 pressure sensor, and an MC3416 accelerometer
(PM and WCM). They sit behind a small I2C layer. The accelerometer's
offsets are kept in an emulated EEPROM. A Qt test GUI talks to the PM
console: it applies every reply line to its widgets and sends a setter
command when a radio button is clicked.

The model follows that structure, one module per source file or pair of
twin files:

- `Common`, `Text`: C's integer conversions, `(b) ? 1 : 0`, `strstr`,
  `strtok`, `atoi` and `sprintf("%d")`. `FirstMatch` gives the branch an
  if / else-if chain of `strstr` tests takes.
- `Hal`: the vendor services as oracles. The I2C master, the EEPROM
  emulator and the serial port answer from scripts, and every transfer,
  service call and console line is recorded in order.
- `I2c`: the I2C layer of `pm_i2c.c`. `wcm_i2c.c` is the same code with
  other message prefixes, which are selected by `Unit`.
- `Eeprom`: `pm_eeprom.c`, the 6-byte offset block.
- `Ltc2944`: `pm_ltc2944.c`.
- `Ms5637`: `pm_ms5637.c`, with its reads and its first- and second-order
  compensation.
- `Mc3416`: `wcm_mc3416.c`. The PM's MC3416 results are a supplied record
  with the same line format.
- `Usart`: the line assembler of `pm_usart.c` and its three copies in
  `wcm_usart.c`.
- `Pm`, `PmFacts`: `pm.c`, its console and SPI dispatchers, `pm_init` and
  `pm_run`.
- `Wcm`, `WcmFacts`: `wcm.c`, the same parts for the WCM.
- `Gui`, `GuiFacts`: `slotDataRead` and `slotSetPower` of `pm_gui.cpp`.

Drivers that change static variables step by step are classes with
methods. `Ms5637.Sensor`, `Mc3416.Accelerometer`, `Eeprom.Settings`,
`Pm.Board`, `Wcm.Board` and `Gui.Widget` hold the source's statics as
fields. Each method of `Pm.Board`, `Wcm.Board` and `Gui.Widget` is proved
against a pure function of the old state: `UartCommand`, `SpiCommand`,
`Pass`, `Ran`, `Frames` and `ApplyAll`. The properties are lemmas about
those functions.

The dispatchers take the sensor results as a supplied record, so the
drivers and the dispatchers are proved separately. Output pins are a
`map<Rail, bool>` of electrical levels. The PM's DRIVER_EN pin is an
active-high disable: a high level means the driver is off.

Some behaviours of the code are easy to misread. The model follows the
code; the examples below are cited by file and line.

- The MS5637 extra low-temperature term applies only below -15 degrees,
  strictly: `TEMP < -1500` at `pm_ms5637.c:359`. At -1500 the term is
  zero anyway (`Ms5637.NoStepAtVeryLowThreshold`).
- The PM's SPI LEAK test stands before the chain (`pm.c:590-603`). A LEAK
  frame is therefore answered and then also logged as an unknown command
  (`PmFacts.LeakFrameAlsoUnknown`).
- On the WCM the SPI setters sit inside the RESP branch (`wcm.c:596-700`),
  so they need a frame holding both RESP and a setter name. No such frame
  fits in 8 bytes, so no SPI setter can ever run
  (`Wcm.SpiSettersUnreachable`). The model therefore asks no argument of
  an SPI frame on the WCM (`Wcm.FramesParse`).
- On the WCM a failed MS5637 read does not reset the read-out count. A RESP
  that follows can therefore send the temperature kept from an earlier read
  (`WcmFacts.FailedMsReadOut`).
- The console's DRIVER_EN and the SPI DRIVER frame drive the same pin with
  opposite polarity (`PmFacts.DriverPolarity`). The same holds for the
  WCM's CELL_PWR_EN (`WcmFacts.CellPolarity`).

## Model

| member | source | states |
|---|---|---|
| Text.ContainsIff | pm_firmware/src/pm.c:120 | the `strstr` scan finds a keyword exactly when the keyword occurs at some position of the command |
| Text.FirstMatch | pm_firmware/src/pm.c:120-535 | the branch an else-if chain of `strstr` tests takes: the first listed keyword the string contains; none exactly when it contains no keyword |
| Text.FirstMatchFrom | pm_firmware/src/pm.c:120-535 | the same from keyword i on: the index found contains its keyword and no keyword between i and it does |
| Text.RunLength | pm_firmware/src/pm.c:328 | the first token of `strtok(command, " ")` ends at the first space, or at the end of the string |
| Text.Tokens | pm_firmware/src/pm.c:328-329 | the tokens `strtok` returns are non-empty and contain no delimiter |
| Text.TokensOfCommand | pm_firmware/src/pm.c:328-331 | a command "NAME value" of two words gives exactly the tokens NAME and value |
| Text.TokensOfLastWord | pm_firmware/src/pm.c:328-329 | a single word is the only token, so the second `strtok` call returns NULL |
| Text.SkipSpace | pm_firmware/src/pm.c:330 | `atoi` skips exactly the leading white space |
| Text.DigitRun | pm_firmware/src/pm.c:330 | `atoi` reads the longest leading run of digits |
| Text.DigitChar | pm_firmware/src/pm.c:331 | `%d` writes each decimal digit as the character of that value |
| Text.NatToString | pm_firmware/src/pm.c:331 | `%d` of a non-negative value is a non-empty run of digits |
| Text.IntToString | pm_firmware/src/pm.c:331 | `%d` output is non-empty and contains no space, so it stays one `strtok` token |
| Text.DigitsValueOfNatToString | pm_firmware/src/pm.c:331 | the digits `%d` writes have the value written |
| Text.AtoiIntToString | pm_firmware/src/pm.c:330-331 | `atoi` reads back every value `%d` wrote: the setter's rewrite "NAME %d" is lossless |
| Text.CString | pm_firmware/src/pm_usart.c:159 | the string a NUL-terminated buffer holds is its prefix up to the first NUL, which has no NUL in it |
| I2c.BigEndianBound | pm_firmware/src/pm_i2c.c:119-125 | n bytes pack to a value below 256^n, so up to four bytes fit the `uint32_t` result |
| I2c.BigEndianWord | pm_firmware/src/pm_i2c.c:119-125 | two bytes pack to high byte times 256 plus low byte |
| I2c.PackBigEndian | pm_firmware/src/pm_i2c.c:119-125 | the shift-and-or packing loop computes the big-endian value of the bytes read |
| I2c.ReadResponsePacket | pm_firmware/src/pm_i2c.c:81-129 | one read of n bytes: on success `*data` becomes their big-endian value; on failure the status is logged and `*data` keeps its value; exactly one read is put on the bus |
| I2c.WriteCommandPacket | pm_firmware/src/pm_i2c.c:135-179 | one write of the command bytes, with a stop condition exactly when `repeated_start` is 0; a failure is logged |
| I2c.WriteCommandReadResponse | pm_firmware/src/pm_i2c.c:185-223 | a write and then a read; a failed write skips the read; `*data` changes only when both succeed |
| I2c.CommandReadReg | pm_firmware/src/pm_i2c.c:232-272 | the register address written without a stop, then n raw bytes read into the buffer; the buffer keeps its contents unless both succeed |
| I2c.CommandWriteReg | pm_firmware/src/pm_i2c.c:280-318 | the packet [register, value] cut to `num_bytes`, written once with a stop |
| Eeprom.Encode | firmware/pm_firmware/src/pm_eeprom.c:134-146 | the block is 6 bytes: each value low byte first at offsets 0, 2 and 4 |
| Eeprom.DecodeEncode | firmware/pm_firmware/src/pm_eeprom.c:105-146 | the values read back from a written block are the values written |
| Eeprom.EncodeDecode | firmware/pm_firmware/src/pm_eeprom.c:105-146 | every 6-byte block is the encoding of the values it decodes to |
| Eeprom.LowHigh | firmware/pm_firmware/src/pm_eeprom.c:105-115 | `lo \| hi << 8` recovers the low and the high byte |
| Eeprom.Settings.ReadSettings | firmware/pm_firmware/src/pm_eeprom.c:100-123 | a successful read decodes the stored block; a failed one is logged and the caller's values stay |
| Eeprom.Settings.Clear | firmware/pm_firmware/src/pm_eeprom.c:134-137 | the clearing loop zeroes every byte of the buffer |
| Eeprom.Settings.WriteSettings | firmware/pm_firmware/src/pm_eeprom.c:130-162 | the buffer holds the encoded values, they are written and committed, each failure is logged, and the commit is attempted whatever the write returned |
| Eeprom.Settings.Recover | firmware/pm_firmware/src/pm_eeprom.c:77-92 | erase, re-initialise and, if that works, store the caller's values; the status answers used and the console lines in order |
| Eeprom.Settings.Configure | firmware/pm_firmware/src/pm_eeprom.c:54-94 | OK reads the stored values; NO_MEMORY is only reported; any other answer runs the recovery; the values, the emulator calls, the stored bytes, the answers used and the console lines are those of `ConfigureEffect` |
| Ltc2944.FullChargeRegister | pm_firmware/src/pm_ltc2944.c:101-109 | the full-charge level written at start-up is 0x11EC, the 5200 mAh capacity rounded to the nearest register level |
| Ltc2944.Voltage | pm_firmware/src/pm_ltc2944.c:188 | the voltage lies in [0, 70.8] V, full scale at code 0xFFFF |
| Ltc2944.Current | pm_firmware/src/pm_ltc2944.c:201 | the current is zero at mid-scale 32767 and positive exactly above it |
| Ltc2944.Temperature | pm_firmware/src/pm_ltc2944.c:213 | the temperature lies in [-273.15, 236.85] degrees Celsius |
| Ltc2944.Charge | pm_firmware/src/pm_ltc2944.c:226 | the charge lies between 0 and the full-scale charge, reached at code 0xFFFF |
| Ltc2944.ChargeMonotone | pm_firmware/src/pm_ltc2944.c:226 | a larger register value stands for more charge |
| Ltc2944.WithShutdown | pm_firmware/src/pm_ltc2944.c:90-93 | the control byte written back has B[0] set and every other bit as read |
| Ltc2944.ReadControl | pm_firmware/src/pm_ltc2944.c:72-88 | the control-register read, retried once after a failure; the status is the last attempt's |
| Ltc2944.Init | pm_firmware/src/pm_ltc2944.c:60-119 | control read with retry, write-back with the shutdown bit, then the full-charge level; the first failure ends init before any later transfer |
| Ltc2944.FirstFailedRegister | pm_firmware/src/pm_ltc2944.c:180-238 | the index of the first failing register read, or 5 when all succeed |
| Ltc2944.FirstFailedRegisterIsFirst | pm_firmware/src/pm_ltc2944.c:180-238 | every read before that index succeeded, and the one at it failed |
| Ltc2944.AssignedFields | pm_firmware/src/pm_ltc2944.c:180-238 | the outputs the reads reach hold their scaled values, and the others keep the caller's values |
| Ltc2944.Advance | pm_firmware/src/pm_ltc2944.c:180-238 | a successful register read moves the read on to the next register |
| Ltc2944.Stop | pm_firmware/src/pm_ltc2944.c:180-238 | a failed register read ends the read with that read's status |
| Ltc2944.Completed | pm_firmware/src/pm_ltc2944.c:238-243 | after all five reads the read is complete with status OK |
| Ltc2944.ReadRegister | pm_firmware/src/pm_ltc2944.c:182-186 | one register read: a command write without a stop, then the response |
| Ltc2944.ReadFrom | pm_firmware/src/pm_ltc2944.c:180-243 | register reads k to 4 in order; each success stores its value; the first failure ends the read |
| Ltc2944.Read | pm_firmware/src/pm_ltc2944.c:125-245 | conversion command, then voltage, current, temperature, charge and status; the status is the first failure's, and only the outputs before it are stored |
| Ms5637.CrcIsHighNibble | firmware/pm_firmware/src/pm_ms5637.c:144 | the CRC entry kept of PROM word 0 is the high nibble of its first byte |
| Ms5637.SecondOrder | firmware/pm_firmware/src/pm_ms5637.c:347-379 | the corrections are non-negative, and offset and sensitivity corrections are zero from 20 degrees up |
| Ms5637.Compensate | firmware/pm_firmware/src/pm_ms5637.c:333-388 | the compensated temperature is never above the first-order temperature |
| Ms5637.CorrectionGrowsWhenColder | firmware/pm_firmware/src/pm_ms5637.c:347-370 | below 20 degrees a colder reading has larger offset and sensitivity corrections |
| Ms5637.NoStepAtVeryLowThreshold | firmware/pm_firmware/src/pm_ms5637.c:359-369 | below -15 degrees the offset correction exceeds its value at -15 degrees by the growth of the plain term plus 17 (TEMP + 1500)^2, a term that vanishes at the threshold, so the strict test makes no step |
| Ms5637.DataSheetExample | firmware/pm_firmware/src/pm_ms5637.c:309-318 | the source's test coefficients and conversions give dT = 68, the high-temperature branch, a pressure between 1100.02 and 1100.03 mbar and a temperature between 20.00 and 20.01 degrees |
| Ms5637.FirstFailedWord | firmware/pm_firmware/src/pm_ms5637.c:126-170 | the index of the first failing PROM word, or 7 |
| Ms5637.FirstFailedWordIsFirst | firmware/pm_firmware/src/pm_ms5637.c:126-170 | every word before it succeeded, and the one at it failed |
| Ms5637.FirstFailureIs | firmware/pm_firmware/src/pm_ms5637.c:126-170 | a position with success before it and failure at it is the first failing word |
| Ms5637.PromEntries | firmware/pm_firmware/src/pm_ms5637.c:144-163 | the table entries the first i words give, one per word |
| Ms5637.Sensor.Reset | firmware/pm_firmware/src/pm_ms5637.c:228-241 | the reset command is written once, with a stop; a failure is logged |
| Ms5637.Sensor.AdcRead | firmware/pm_firmware/src/pm_ms5637.c:55-76 | the ADC read command and a 3-byte read; the value is passed back only when both succeed |
| Ms5637.Sensor.PromWord | firmware/pm_firmware/src/pm_ms5637.c:135-163 | the read command 0xA0 + 2k and a 2-byte read; on success the kept value |
| Ms5637.Sensor.PromCoefficient | firmware/pm_firmware/src/pm_ms5637.c:149-164 | coefficient i is read, stored on success and reported on failure |
| Ms5637.Sensor.PromCoefficients | firmware/pm_firmware/src/pm_ms5637.c:149-168 | words 1 to 6 in order; the first failure ends the loop and leaves later entries as they were |
| Ms5637.Sensor.PromRead | firmware/pm_firmware/src/pm_ms5637.c:126-170 | the CRC word and coefficients 1 to 6; the status is the first failing word's, and only the entries before it are written |
| Ms5637.Sensor.Conversion | firmware/pm_firmware/src/pm_ms5637.c:82-120 | the convert command (0x48 for D1, 0x58 for D2), then an ADC read; the first failing step is reported |
| Ms5637.Sensor.ReadD1D2 | firmware/pm_firmware/src/pm_ms5637.c:177-222 | D1 then D2; the first failure ends the sequence, and D1 is kept as soon as its read succeeds |
| Ms5637.Sensor.GetCalibrationCoefficients | firmware/pm_firmware/src/pm_ms5637.c:247-254 | the seven PROM entries copied out |
| Ms5637.Sensor.Init | firmware/pm_firmware/src/pm_ms5637.c:260-282 | reset, then the PROM read; a failed reset skips the PROM read |
| Ms5637.Sensor.Read | firmware/pm_firmware/src/pm_ms5637.c:288-392 | the status and console lines of the D1/D2 sequence; the statics `d1` (kept once its read succeeds) and `d2` (kept only on full success) as `ReadD1D2` leaves them; on success the outputs are the ADC values of the two data replies and the compensated reading of them, with the bus traffic of both conversions; on failure none of the four outputs is written |
| Mc3416.CheckModeStatus | firmware/wcm_firmware/src/wcm_mc3416.c:109-131 | OK exactly when the status register was read and its state bits are not standby; BUSY when they are standby |
| Mc3416.Merged | firmware/wcm_firmware/src/wcm_mc3416.c:153-183 | the register written back keeps the masked bits of the old value and sets the configured bits |
| Mc3416.MergeEffect | firmware/wcm_firmware/src/wcm_mc3416.c:138-191 | read, merge and write back; a failed read skips the write |
| Mc3416.ValidateAccepts | firmware/wcm_firmware/src/wcm_mc3416.c:197-235 | accepted exactly when both reads succeed, the chip ID's high nibble is 0xA and the product code masked by 0xF1 is 0x20 |
| Mc3416.AxisStatusIsLast | firmware/wcm_firmware/src/wcm_mc3416.c:241-294 | `read_axis` returns the status of its last register read alone; earlier failures are only logged |
| Mc3416.Axis | firmware/wcm_firmware/src/wcm_mc3416.c:265 | the two bytes read as a two's-complement 16-bit count: its bit pattern is high byte times 256 plus low byte, and it is negative exactly when the high byte's top bit is set |
| Mc3416.AxisBytes | firmware/wcm_firmware/src/wcm_mc3416.c:265 | the count gives back the two bytes it was assembled from |
| Mc3416.Corrected | firmware/wcm_firmware/src/wcm_mc3416.c:302-304 | `count -= offset` is the difference wrapped to 16 bits |
| Mc3416.CalibrateThenConvert | firmware/wcm_firmware/src/wcm_mc3416.c:300-312 | converting the reading the offsets were calibrated on gives counts (0, 1 g, 0) |
| Mc3416.ZeroOffsetsConvert | firmware/wcm_firmware/src/wcm_mc3416.c:300-312 | zero offsets leave the counts as read |
| Mc3416.Scale | firmware/wcm_firmware/src/wcm_mc3416.c:305-307 | each acceleration is its count divided by 16384 (2 g over 2^15) and lies in [-2 g, 2 g) |
| Mc3416.ReadyWakes | firmware/wcm_firmware/src/wcm_mc3416.c:387-401 | a device found in standby is woken, and the operation goes on only if that works |
| Mc3416.NoChipNoConfiguration | firmware/wcm_firmware/src/wcm_mc3416.c:332-342 | an unrecognised chip ends init with no mode, rate or range register written |
| Mc3416.PrepareOkRunsAll | firmware/wcm_firmware/src/wcm_mc3416.c:338-367 | a configuration that succeeds has run every step, ending with the range setting |
| Mc3416.SampleOkReady | firmware/wcm_firmware/src/wcm_mc3416.c:387-408 | a sample that succeeds found the device ready |
| Mc3416.Accelerometer.SetMode | firmware/wcm_firmware/src/wcm_mc3416.c:84-103 | the mode register written; a wake request also reports the wake-up delay |
| Mc3416.Accelerometer.CheckMode | firmware/wcm_firmware/src/wcm_mc3416.c:109-131 | the state bits read, BUSY in standby |
| Mc3416.Accelerometer.SetRegisterBits | firmware/wcm_firmware/src/wcm_mc3416.c:138-191 | the merged sample-rate or range register, read and written back |
| Mc3416.Accelerometer.ValidateChip | firmware/wcm_firmware/src/wcm_mc3416.c:197-235 | chip ID and product code read and compared |
| Mc3416.Accelerometer.ReadAxisByte | firmware/wcm_firmware/src/wcm_mc3416.c:255-259 | one axis register read; a failure is reported on the console and the byte keeps what it held |
| Mc3416.Accelerometer.ReadAxis | firmware/wcm_firmware/src/wcm_mc3416.c:241-294 | the six axis registers read, the counts assembled, the status the last read's |
| Mc3416.Accelerometer.Sample | firmware/wcm_firmware/src/wcm_mc3416.c:387-408 | mode check, wake-up if needed, axis reads |
| Mc3416.Accelerometer.ReadTiltSample | firmware/wcm_firmware/src/wcm_mc3416.c:383-411 | after a successful sample the offsets are subtracted and the accelerations computed; a failed sample leaves them |
| Mc3416.Accelerometer.CalibrateOffsets | firmware/wcm_firmware/src/wcm_mc3416.c:460-494 | after a successful sample the counts, Y less 1 g, become the offsets and are persisted; a failure writes nothing |
| Mc3416.Accelerometer.ZeroOffsets | firmware/wcm_firmware/src/wcm_mc3416.c:500-514 | the offsets become zero and are persisted; the status is OK |
| Mc3416.Accelerometer.Standby | firmware/wcm_firmware/src/wcm_mc3416.c:424-434 | the standby mode written, a failure reported |
| Mc3416.Accelerometer.Finish | firmware/wcm_firmware/src/wcm_mc3416.c:318-327 | the offsets read from EEPROM, then the wake-up |
| Mc3416.Accelerometer.Start | firmware/wcm_firmware/src/wcm_mc3416.c:337-375 | identification and configuration; on success the offset read and the wake-up, with the I2C trace, the console lines, the EEPROM calls and the offsets; on failure the offsets and the EEPROM are untouched |
| Mc3416.Accelerometer.Init | firmware/wcm_firmware/src/wcm_mc3416.c:332-377 | EEPROM configure, identification, standby, rate, range, offsets and wake-up in order; the first failure ends init. The offsets are those `eeprom_configure` loads, replaced by the EEPROM's block when the configuration succeeds and the offset read works; the EEPROM calls and the console lines are `eeprom_configure`'s, the steps', and the offset read's, in order |
| Usart.Diagnostic | pm_firmware/src/pm_usart.c:178-205 | every diagnostic line, with its terminator, fits the room the buffer reserves for it |
| Usart.Collect | pm_firmware/src/pm_usart.c:136-210 | the assembler's loop as a function of the port's answers: the buffer keeps its size and no more answers are consumed than the port gave |
| Usart.GetCommand | pm_firmware/src/pm_usart.c:129-214 | the loop over the buffer array: its result and contents are those of `Collect` |
| Usart.BusyIgnored | pm_firmware/src/pm_usart.c:172-175 | a busy answer changes nothing but the number of answers consumed |
| Usart.StorePlain | pm_firmware/src/pm_usart.c:156 | plain bytes are stored one after another |
| Usart.LineIsPayload | pm_firmware/src/pm_usart.c:144-162 | a completed line holds every byte before the first carriage return, line feeds dropped, then the terminator |
| Usart.LineAccepted | pm_firmware/src/pm_usart.c:144-162 | plain bytes that fit, then CR and LF, make a completed, terminated line |
| Usart.LaterKeepsPrefix | pm_firmware/src/pm_usart.c:146-161 | after a carriage return, later bytes leave the line stored so far untouched |
| Usart.FullIsTerminated | pm_firmware/src/pm_usart.c:163-170 | a full buffer is terminated in its last slot, with result false |
| Usart.FillsUp | pm_firmware/src/pm_usart.c:163-170 | as many plain bytes as the buffer holds fill it, and the last slot becomes the terminator |
| Usart.FailedStatus | pm_firmware/src/pm_usart.c:176-209 | only a status other than success and busy ends the loop as a failure |
| Usart.FailureIsDiagnosed | pm_firmware/src/pm_usart.c:176-209 | a failed read leaves the diagnostic for its status, terminated, at the start of the buffer |
| Usart.FixedNeverOverruns | pm_firmware/src/pm_usart.c:156-170 | with the full check after every stored byte, no byte is ever due past the buffer |
| Usart.OverrunExample | pm_firmware/src/pm_usart.c:156-170 | as written, a carriage return in the last slot skips the full check and the next byte is due one past the buffer |
| Pm.Captured | pm_firmware/src/pm.c:612-628 | after a complete LTC2944 read the captured values are the new ones; after none the caller's |
| Pm.PowerLines | pm_firmware/src/pm.c:248-295 | nine lines; line j names the j-th reported setter's keyword and shows the level of the rail that setter drives (BATT_SER_PWR_EN and CTD_PWR_EN are not printed) |
| Pm.PowerTablesAgree | pm_firmware/src/pm.c:248-295 | the printed names and rails are the keywords and rails of the reported setters |
| Pm.Leaked | pm_firmware/src/pm.c:590-603 | the LEAK test never moves a pin |
| Pm.StartRails | pm_firmware/src/pm.c:1037-1057 | 3V3VA on, the driver enabled, Main power untouched, every other rail off |
| Pm.CompleteParses | pm_firmware/src/pm.c:326-529 | a command whose setter keyword has an argument can be handled at any pin levels |
| Pm.Board.Set | pm_firmware/src/pm.c:334 | a `pm_gpio_*_on/off` call sets that pin's level and records the write |
| Pm.Board.InitInternalHw | pm_firmware/src/pm.c:974-1016 | the state is `Reinitialized` of the old one |
| Pm.Board.Init | pm_firmware/src/pm.c:1022-1061 | the state is `Initialized` of the old one |
| Pm.Board.Query | pm_firmware/src/pm.c:120-325 | the state is `UartQuery` of the old one |
| Pm.Board.MainPower | pm_firmware/src/pm.c:401-433 | the state and echo are those of `MainSet` |
| Pm.Board.Relay | pm_firmware/src/pm.c:494-529 | the state and echo are those of `RelaySet` |
| Pm.Board.Setter | pm_firmware/src/pm.c:326-529 | the state and echo are those of `UartSetter` |
| Pm.Board.HandleCommand | pm_firmware/src/pm.c:107-537 | `bValid`, the echo and the state are those of `UartCommand` |
| Pm.Board.Leak | pm_firmware/src/pm.c:590-603 | the state is `Leaked` of the old one |
| Pm.Board.LtcFrame | pm_firmware/src/pm.c:610-629 | the LTC2944 frame with its I2C enable on around the read |
| Pm.Board.SpiQuery | pm_firmware/src/pm.c:604-709 | the state is `Primary` of the old one |
| Pm.Board.RespNext | pm_firmware/src/pm.c:710-837 | the state is `RespFrame` of the old one |
| Pm.Board.SpiSetter | pm_firmware/src/pm.c:838-962 | the state is `SpiSet` of the old one |
| Pm.Board.HandleSpiCommand | pm_firmware/src/pm.c:543-968 | the state is `SpiCommand` of the old one |
| Pm.Board.Poll | pm_firmware/src/pm.c:1112-1209 | one inner-loop pass that is `Admissible` in the current state (no served setter calls `atoi` on a missing argument at the pin levels it finds): the state is `Pass` of the old one |
| Pm.Board.Cycle | pm_firmware/src/pm.c:1109-1223 | one `Admissible` pass, then sleep and wake with the flag cleared when the pass set it: the state is `Slept(Pass(...))` of the old one |
| Pm.Board.Run | pm_firmware/src/pm.c:1067-1224 | for events each `Admissible` in the state the passes before it leave (`Admits`), the state after them is `Ran` of the start state |
| PmFacts.GatedParses | pm_firmware/src/pm.c:401-529 | a Main_PWR_EN or WCM_RLY command without argument can be handled exactly while the driver is disabled, when it only reports the pin |
| PmFacts.SpiGatedParses | pm_firmware/src/pm.c:943-962 | a WCM_EN frame without argument can be served exactly while the driver is enabled, when it does nothing |
| PmFacts.MainAlone | pm_firmware/src/pm.c:120-401 | the bare "Main_PWR_EN" holds no earlier keyword and reaches the Main setter |
| PmFacts.RelayAlone | pm_firmware/src/pm.c:120-494 | the bare "WCM_RLY" holds no earlier keyword and reaches the relay setter |
| PmFacts.SpiRelayAlone | pm_firmware/src/pm.c:604-943 | the bare frame "WCM_EN" holds no earlier keyword and reaches the SPI relay setter |
| PmFacts.MainWithoutArgument | pm_firmware/src/pm.c:401-433 | the bare "Main_PWR_EN" can be handled exactly while the driver is disabled |
| PmFacts.RelayWithoutArgument | pm_firmware/src/pm.c:494-529 | the bare "WCM_RLY" can be handled exactly while the driver is disabled |
| PmFacts.SpiRelayWithoutArgument | pm_firmware/src/pm.c:943-962 | the bare frame "WCM_EN" can be served exactly while the driver is enabled |
| PmFacts.IdleSpi | pm_firmware/src/pm.c:1115-1187 | without a completed transfer the SPI part of a pass only arms and moves no pin |
| PmFacts.NoCommandAdmits | pm_firmware/src/pm.c:1112-1209 | a pass without a received command is admissible exactly when its SPI part is |
| PmFacts.GatedQueryPass | pm_firmware/src/pm.c:1112-1209 | a pass that receives a gated console setter without argument, and serves no transfer, is admissible exactly while the driver is disabled |
| PmFacts.SpiRelayQueryPass | pm_firmware/src/pm.c:1112-1209 | a pass that serves a WCM_EN frame without argument, and receives no command, is admissible exactly while the driver is enabled |
| PmFacts.InvalidIffNoKeyword | pm_firmware/src/pm.c:530-533 | a command is invalid exactly when it contains no keyword, and then the state is unchanged |
| PmFacts.SetterKeysAreWords | pm_firmware/src/pm.c:326-529 | every setter keyword is one word |
| PmFacts.SetterDispatch | pm_firmware/src/pm.c:326-529 | a command whose first keyword is a setter's reaches that setter |
| PmFacts.DrivenLevels | pm_firmware/src/pm.c:334-338 | driving a rail sets its level and leaves every other rail and field alone |
| PmFacts.SetterEcho | pm_firmware/src/pm.c:331 | the rewritten "NAME value" splits into the keyword and a value that `atoi` reads back |
| PmFacts.SetterRailDriver | pm_firmware/src/pm.c:386-400 | of the ungated setters only DRIVER_EN drives the driver's disable pin |
| PmFacts.PlainSetLevels | pm_firmware/src/pm.c:326-400 | an ungated setter drives its rail: DRIVER_EN high on 1 only, the others on any value but 0 |
| PmFacts.PlainSetter | pm_firmware/src/pm.c:326-400 | an ungated setter keyword is handled as valid with echo "NAME value" |
| PmFacts.MainPowerHeld | pm_firmware/src/pm.c:424-432 | Main_PWR_EN with the driver disabled only reports the level and echoes "unchanged" |
| PmFacts.MainPowerSwitched | pm_firmware/src/pm.c:403-422 | with the driver enabled Main power is switched and the value read is echoed |
| PmFacts.MainSwitchedLevels | pm_firmware/src/pm.c:410-421 | switching Main off also ends the SPI session; no other rail moves |
| PmFacts.RelayHeld | pm_firmware/src/pm.c:521-528 | WCM_RLY with the driver disabled only reports the relay level |
| PmFacts.RelaySwitched | pm_firmware/src/pm.c:496-520 | with the driver enabled the relay sequence runs and the new WCM power level is reported |
| PmFacts.RelayedLevels | pm_firmware/src/pm.c:504-516 | off drops WCM power before the relay, on closes the relay before power; both end at the same level |
| PmFacts.SpiSetterDispatch | pm_firmware/src/pm.c:838-962 | a frame without LEAK reaches its SPI setter unchanged |
| PmFacts.RespDispatch | pm_firmware/src/pm.c:710-837 | a RESP frame without LEAK only continues the read-out |
| PmFacts.RespOnlyReadsOut | pm_firmware/src/pm.c:710-837 | RESP changes only the answer and the count; no pin moves and `last_command` stays |
| PmFacts.DriverPolarity | pm_firmware/src/pm.c:386-882 | "DRIVER_EN 1" on the console disables the driver, "DRIVER 1" on SPI enables it |
| PmFacts.DriverEnLevel | pm_firmware/src/pm.c:386-400 | the console's DRIVER_EN sets the disable pin high on 1 only |
| PmFacts.DriverLevel | pm_firmware/src/pm.c:868-882 | the SPI DRIVER sets the disable pin high on 0 only |
| PmFacts.SpiRelayGate | pm_firmware/src/pm.c:943-962 | WCM_EN runs the relay sequence only while the driver is disabled, otherwise changes nothing |
| PmFacts.PrimaryReadAnswer | pm_firmware/src/pm.c:610-679 | a failed sensor read keeps the answer and count and logs one line; a successful one answers its first value with count 1 |
| PmFacts.LeakFrameAlsoUnknown | pm_firmware/src/pm.c:590-966 | a LEAK frame is answered with the leak voltage and then also logged as an unknown command |
| Common.Padded | pm_firmware/src/pm.c:710-837 | n words: those given, then dashes (the RESP read-out of both boards) |
| PmFacts.RespWord | pm_firmware/src/pm.c:710-837 | a RESP frame loads the first value still to be sent, or dashes when none remains |
| PmFacts.RespStep | pm_firmware/src/pm.c:710-837 | one RESP sends the next remaining value and raises the count, or sends dashes and changes nothing else |
| PmFacts.ReadOut | pm_firmware/src/pm.c:710-837 | successive RESP frames send the remaining values in order, then dashes for ever |
| PmFacts.PowerReadOut | pm_firmware/src/pm.c:680-695 | after POWER, RESP frames send the captured battery-select, driver, VBS, VBS serial, WCM diagnostics, WCM power and relay levels, then dashes |
| PmFacts.StartUpLevels | pm_firmware/src/pm.c:1022-1061 | `pm_init` leaves 3V3VA on, the driver enabled, Main untouched and every other rail off, and reports the LTC2944, MS5637 and MC3416 initialisations to both ports, nothing else changing |
| PmFacts.ReinitializedEffect | pm_firmware/src/pm.c:974-1016 | `initInternalHW` pulses the LTC2944 I2C enable and sends the three results to both ports, in order |
| PmFacts.PowerLineOfSetter | pm_firmware/src/pm.c:248-295 | `read_power_bits` shows a setter's rail, under the setter's keyword and at its level, exactly when the setter is neither BATT_SER_PWR_EN nor CTD_PWR_EN |
| PmFacts.PingSleeps | pm_firmware/src/pm.c:133-137 | "pm_ping" logs the ping, is echoed valid, then the PM sleeps and wakes with the flag cleared |
| PmFacts.UnknownCommandEchoed | pm_firmware/src/pm.c:1194-1207 | a command with no keyword is only echoed, followed by INVALID |
| Wcm.PowerLines | firmware/wcm_firmware/src/wcm.c:251-281 | seven lines, line j showing the level of the j-th SPI setter's rail under that setter's name, except that CELL is printed "CELL PWR_EN"; every output pin is reported |
| Wcm.RailsCovered | firmware/wcm_firmware/src/wcm.c:251-281 | the SPI setters' rails are all the output pins |
| Wcm.StartRails | firmware/wcm_firmware/src/wcm.c:759-774 | 3V3VA and GPS on, every other rail off |
| Wcm.Board.ReadComs | firmware/wcm_firmware/src/wcm.c:151-173 | the state is `Comms` of the old one |
| Wcm.Board.ReadGps | firmware/wcm_firmware/src/wcm.c:174-190 | the state and the command buffer are those of `GpsRead` |
| Wcm.Board.Query | firmware/wcm_firmware/src/wcm.c:123-285 | the state is `UartQuery` of the old one |
| Wcm.Board.HandleCommand | firmware/wcm_firmware/src/wcm.c:103-398 | `bValid`, echo and state are those of `UartCommand` |
| Wcm.Board.SpiQuery | firmware/wcm_firmware/src/wcm.c:438-540 | the state is `Primary` of the old one |
| Wcm.Board.SpiSetter | firmware/wcm_firmware/src/wcm.c:596-704 | the state is `SpiSet` of the old one |
| Wcm.Board.RespNext | firmware/wcm_firmware/src/wcm.c:541-705 | the state is `RespFrame` of the old one |
| Wcm.Board.HandleSpiCommand | firmware/wcm_firmware/src/wcm.c:404-706 | the state is `SpiCommand` of the old one |
| Wcm.Board.Init | firmware/wcm_firmware/src/wcm.c:746-778 | the state is `Initialized` of the old one |
| Wcm.Board.Poll | firmware/wcm_firmware/src/wcm.c:827-896 | one inner-loop pass: `Pass` of the old state |
| Wcm.Board.Run | firmware/wcm_firmware/src/wcm.c:784-907 | the state after the events is `Ran` of the start state |
| WcmFacts.InvalidIffNoKeyword | firmware/wcm_firmware/src/wcm.c:391-394 | invalid exactly when no keyword occurs, and then the state is unchanged |
| WcmFacts.SetterKeysAreWords | firmware/wcm_firmware/src/wcm.c:286-390 | every setter keyword is one word |
| WcmFacts.SetterEcho | firmware/wcm_firmware/src/wcm.c:286-390 | "NAME value" splits into the keyword and a value `atoi` reads back |
| WcmFacts.SetterDispatch | firmware/wcm_firmware/src/wcm.c:286-390 | a setter keyword reaches its setter with the value `atoi` reads |
| WcmFacts.SetterBranch | firmware/wcm_firmware/src/wcm.c:286-390 | a setter drives its rail to the level of its value and echoes "NAME value" |
| WcmFacts.DrivenLevels | firmware/wcm_firmware/src/wcm.c:286-300 | driving a rail sets its level and leaves everything else alone |
| WcmFacts.SetterRailsDistinct | firmware/wcm_firmware/src/wcm.c:286-390 | the seven setters drive seven different rails |
| WcmFacts.UartCellLevel | firmware/wcm_firmware/src/wcm.c:346-360 | the console's CELL_PWR_EN turns the modem on only for 1 |
| WcmFacts.SpiCellLevel | firmware/wcm_firmware/src/wcm.c:656-670 | the SPI CELL_PWR_EN turns it on for any value but 0 |
| WcmFacts.CellPolarity | firmware/wcm_firmware/src/wcm.c:346-670 | "CELL_PWR_EN 2" leaves the modem off from the console and turns it on from SPI |
| WcmFacts.GpsReplacesEcho | firmware/wcm_firmware/src/wcm.c:174-190 | with GPS powered and data waiting, the echoed text is the GPS line; otherwise only the command is echoed |
| WcmFacts.ComsPowerCycle | firmware/wcm_firmware/src/wcm.c:151-173 | the satellite modem is on for the read and off afterwards, and no other rail moves |
| WcmFacts.QueriesKeepPins | firmware/wcm_firmware/src/wcm.c:123-285 | every other query leaves every pin as it was |
| WcmFacts.TiltAlwaysPrinted | firmware/wcm_firmware/src/wcm.c:67-85 | the angle line is printed even when the read fails, followed by the failure |
| WcmFacts.NoKeywordFrameIgnored | firmware/wcm_firmware/src/wcm.c:404-706 | a frame with no SPI keyword changes nothing |
| WcmFacts.PrimaryLast | firmware/wcm_firmware/src/wcm.c:438-540 | every primary frame becomes the last frame |
| WcmFacts.RespKeepsLast | firmware/wcm_firmware/src/wcm.c:541-705 | RESP leaves the last frame as it is |
| WcmFacts.RespKeysArePrimary | firmware/wcm_firmware/src/wcm.c:543-559 | the frames RESP continues are LEAK, MS5637 and POWER |
| WcmFacts.NoSessionAtStart | firmware/wcm_firmware/src/wcm.c:819 | at hand-off to `wcm_run` no frame has been seen, so RESP continues nothing |
| Wcm.SpiSettersUnreachable | firmware/wcm_firmware/src/wcm.c:596-700 | no frame of at most 8 bytes can reach an SPI setter |
| Wcm.FramesParse | firmware/wcm_firmware/src/wcm.c:596-700 | every frame of at most 8 bytes is one the RESP branch can handle: no setter there reads a missing argument |
| WcmFacts.RespWithoutSession | firmware/wcm_firmware/src/wcm.c:541-705 | a RESP that continues no read-out only logs "Unknown command" and the answer stays |
| WcmFacts.RespWord | firmware/wcm_firmware/src/wcm.c:541-595 | a RESP frame loads the first value still to be sent, or dashes when none remains |
| WcmFacts.RespStep | firmware/wcm_firmware/src/wcm.c:541-595 | one RESP sends the next remaining value and raises the count, or sends dashes |
| WcmFacts.ReadOut | firmware/wcm_firmware/src/wcm.c:541-595 | successive RESP frames send the remaining values in order, then dashes |
| WcmFacts.RespOnlyReadsOut | firmware/wcm_firmware/src/wcm.c:541-595 | a continuing RESP changes only the answer and the count |
| WcmFacts.PrimarySession | firmware/wcm_firmware/src/wcm.c:476-540 | a POWER or MS5637 frame continues its own read-out |
| WcmFacts.PowerReadOut | firmware/wcm_firmware/src/wcm.c:526-594 | POWER answers the 3V3VA level; RESP frames then send GPS, cellular, light, satellite, Wi-Fi and COM_SW_A levels, then dashes |
| WcmFacts.MsReadOut | firmware/wcm_firmware/src/wcm.c:476-558 | a successful MS5637 frame answers the pressure, the next RESP the temperature, later ones dashes |
| WcmFacts.FailedMsReadOut | firmware/wcm_firmware/src/wcm.c:476-558 | a failed MS5637 read keeps the count, so with count 1 the next RESP sends the stale temperature |
| WcmFacts.StartUpLevels | firmware/wcm_firmware/src/wcm.c:746-778 | `wcm_init` leaves 3V3VA and GPS on, every other rail off, and sends the MS5637 and then the MC3416 result ("done" or "Could not") to both ports, nothing else changing |
| WcmFacts.PingOnlyClears | firmware/wcm_firmware/src/wcm.c:191-196 | "wcm_ping" logs the ping, is echoed valid, and the outer loop only clears the flag |
| WcmFacts.UnknownCommandEchoed | firmware/wcm_firmware/src/wcm.c:881-895 | a command with no keyword is only echoed, followed by INVALID |
| Gui.IndexFrom | src/qt/pm_gui/pm_gui.cpp:511 | the position found is the first occurrence at or after i; none means none occurs there |
| Gui.IndexOf | src/qt/pm_gui/pm_gui.cpp:511 | the first occurrence of CRLF, or none when there is none |
| Gui.IndexOfNone | src/qt/pm_gui/pm_gui.cpp:511-513 | `indexOf` returns -1 exactly when the buffer does not contain CRLF |
| Gui.Split | src/qt/pm_gui/pm_gui.cpp:524 | at least one part, no part contains a space, and more than one part exactly when the reply has a space |
| Gui.GuiKeys | src/qt/pm_gui/pm_gui.cpp:527-702 | the 33 keywords the reply chain tests, in order |
| Gui.FramesCut | src/qt/pm_gui/pm_gui.cpp:511-522 | a buffer with CRLF yields the reply before it, then the replies of what follows |
| Gui.FramesDone | src/qt/pm_gui/pm_gui.cpp:512-513 | a buffer without CRLF yields no reply and stays |
| Gui.ApplyAllSnoc | src/qt/pm_gui/pm_gui.cpp:509-522 | applying one more reply applies it to the display so far |
| Gui.SetPower | src/qt/pm_gui/pm_gui.cpp:876-955 | a command is sent exactly when the sender is one of the output widgets |
| Gui.Widget.constructor | src/qt/pm_gui/pm_gui.cpp:484-493 | a widget for the given keyword names, with an empty buffer |
| Gui.Widget.DataRead | src/qt/pm_gui/pm_gui.cpp:499-710 | the buffer keeps the partial reply after the data is appended, and the display has every complete reply applied in order, under the widget's keyword names |
| Gui.Widget.SetPowerClicked | src/qt/pm_gui/pm_gui.cpp:876-955 | the port receives the output widget's command under the widget's keyword names, or nothing for another sender; the display is unchanged |
| GuiFacts.IndexOfExtended | src/qt/pm_gui/pm_gui.cpp:505-511 | appending data does not move a CRLF already in the buffer |
| GuiFacts.FramesLossless | src/qt/pm_gui/pm_gui.cpp:505-522 | the replies, each followed by CRLF, and the remainder concatenate back to the buffer |
| GuiFacts.FramesClean | src/qt/pm_gui/pm_gui.cpp:511-522 | no reply contains CRLF, and the remainder contains none |
| GuiFacts.FramesSplit | src/qt/pm_gui/pm_gui.cpp:505-522 | cutting a buffer and then what is left plus new data gives the replies of the whole in order |
| GuiFacts.TwoReads | src/qt/pm_gui/pm_gui.cpp:499-710 | two calls of `slotDataRead` leave the buffer and display that one call with both chunks leaves: chunking does not matter |
| GuiFacts.SplitOfWord | src/qt/pm_gui/pm_gui.cpp:524 | a word, a space and the rest split into the word and the parts of the rest |
| GuiFacts.SplitUnsplit | src/qt/pm_gui/pm_gui.cpp:524 | joining the parts with spaces gives back the reply |
| GuiFacts.UnsplitSplit | src/qt/pm_gui/pm_gui.cpp:524 | splitting space-free parts joined with spaces gives back the parts |
| GuiFacts.ToIntOfIntToString | src/qt/pm_gui/pm_gui.cpp:529 | `toInt` reads back every int "%d" wrote |
| GuiFacts.UpdateOnlyItsWidget | src/qt/pm_gui/pm_gui.cpp:527-702 | a branch changes only its own widget |
| GuiFacts.OnlyMatchedWidget | src/qt/pm_gui/pm_gui.cpp:525-702 | a reply leaves every widget but the one of its first keyword as it was |
| GuiFacts.ReplyParts | src/qt/pm_gui/pm_gui.cpp:524 | a firmware reply "NAME value" splits into NAME and value |
| GuiFacts.BitReplyShown | src/qt/pm_gui/pm_gui.cpp:527-589 | a reply "KEY 0/1" reaching an output widget checks it exactly when the bit is 1 |
| GuiFacts.UnchangedKept | src/qt/pm_gui/pm_gui.cpp:554-589 | "… unchanged" leaves the Main power and relay outputs as they were |
| GuiFacts.NoneFound | src/qt/pm_gui/pm_gui.cpp:527-702 | a reply whose keywords all have a character the reply lacks matches no branch |
| GuiFacts.MainReplyIgnored | src/qt/pm_gui/pm_gui.cpp:554-561 | as written, the PM's "Main_PWR_EN n" reply matches no keyword and changes nothing |
| GuiFacts.PowerLinesInWidgetOrder | pm_firmware/src/pm.c:248-295 | the PM's `read_power_bits` lines come in the order of the GUI's output widgets, under the corrected keywords; as written the Main line's name differs |
| GuiFacts.MainPowerCommand | src/qt/pm_gui/pm_gui.cpp:912-917 | as written the output sends "MMD_PWR_EN n"; corrected, "Main_PWR_EN n" |
| GuiFacts.MmdNoKeyword | pm_firmware/src/pm.c:118-535 | "MMD_PWR_EN n" contains none of the PM's console keywords |
| GuiFacts.MmdCommandRejected | pm_firmware/src/pm.c:530-533 | the PM handles the GUI's "MMD_PWR_EN n" as invalid and changes nothing |
| GuiFacts.MainKeyword | pm_firmware/src/pm.c:401 | "Main_PWR_EN n" reaches the PM's Main power setter |
| GuiFacts.MainArgument | pm_firmware/src/pm.c:406-408 | the corrected command carries its argument, which `atoi` reads as the level sent |
| GuiFacts.MainReplyShown | src/qt/pm_gui/pm_gui.cpp:554-561 | corrected, the PM's "Main_PWR_EN 0/1" reply checks the Main power output exactly when the bit is 1 |
| GuiFacts.MainCommandAccepted | pm_firmware/src/pm.c:401-422 | corrected, with the driver enabled the PM accepts the command and sets Main power on exactly when the level is not 0 |
| GuiFacts.MainCommandHeld | pm_firmware/src/pm.c:424-432 | corrected, with the driver disabled the PM keeps the rails and echoes "unchanged" |

## Left out

- General: the vendor services (I2C master, EEPROM emulator, USART, SPI,
  GPIO, timers, sleep) are oracles that answer from scripts. Clock, sleep
  and wake-up are only the events they cause, and interrupts and the
  timer callbacks are a flag set by a command.
- `Hal.Fit`: a read that the script answers with fewer bytes than asked
  for is zero-extended. Real hardware would leave stale bytes in the
  buffer.
- Uninitialised locals, such as the angle after a failed tilt read or an
  axis byte after a failed register read, are supplied by the caller as
  "stale" values.
- Float formatting (`%.2f`, `toDouble()`) is not computed. A number shown
  or printed is the value it came from with its decimal count (`Word`,
  `Shown`), and the real-number formulas use Dafny's exact `real`.
- `wcm_mc3416_read_tilt`: the `acos`/`sqrt` angle is not computed. The
  model stops at the accelerations (`ReadTiltSample`).
- The getters of the drivers (`get_counts`, `get_g_values`,
  `get_offsets`) are not modelled: they only copy statics out.
- `wcm_eeprom.c` and `wcm_ms5637.c` are not part of this model. The WCM
  uses the same EEPROM block and the same MS5637 results as the PM files
  modelled here.
- The PM's MC3416 driver is not part of this model. Its results are
  supplied to `Pm`.
- Driver init logs: the informational console lines in the drivers are
  modelled as far as they depend on statuses. The commented-out debug
  lines are not modelled.
- The SPI dispatchers rewrite the command text with `sprintf` into the
  receive buffer. Nothing reads that text afterwards, so the rewrite is
  not modelled.
- `wcm.c:464`: `sprintf(response, COMMAND_LENGTH, command)` is ill-typed
  C. The model leaves the answer unchanged there.
- `Wcm.Primary`, `Wcm.Board.SpiQuery`: on the "read_gps" frame, `wcm.c:461`
  calls `wcm_usart_get_gps_data(command, COMMAND_LENGTH)` with `command`
  the 16-byte `spi_rx_buffer` (`wcm.c:30`, `wcm.c:813`). That call may
  store up to 64 bytes (`wcm_usart.c:368-453`), so a GPS line of 16 bytes
  or more, and every error diagnostic, runs past the buffer. The model
  does not follow the overrun: the branch only records the frame as the
  last one and, when a line was received, sets the count to 1. The bytes
  written past the buffer, and whatever they overwrite, are not modelled.
- `read_coms` and `read_gps` wait for a line on another port. The line,
  or its absence, is supplied as an exchange (`Exchange`).
- `Usart.GetCommand`: when the script runs out of answers the call ends
  as `Waiting`. The real call would poll for ever.
- `Usart.GetCommand`: in the as-written variant the caller must rule out
  the overrun of the Findings table. A byte stored past the buffer is
  undefined behaviour in C, and the model does not follow it. The
  corrected variant has no such condition.
- `Pm.Board.Poll`, `Pm.Board.Cycle`, `Pm.Board.Run`: a pass must be
  `Admissible` in the state it finds. A setter the pass actually reaches
  with its `atoi` call must come with an argument, because `atoi(NULL)` is
  undefined behaviour. This follows the gates: a Main_PWR_EN or WCM_RLY
  command while the driver is disabled, and a WCM_EN frame while it is
  enabled, never call `atoi` and are admitted without argument
  (`PmFacts.GatedQueryPass`, `PmFacts.SpiRelayQueryPass`).
- `Wcm.Board.Poll`, `Wcm.Board.Run`: these require `WellFormed` events.
  Every setter name in a received command must come with an argument; on
  the WCM every such command reaches `atoi`. A frame needs none: no 8-byte
  frame reaches a WCM SPI setter (`Wcm.FramesParse`).
- `Text.Atoi`, `Text.AtoiIntToString`, `PmFacts.SetterEcho`,
  `WcmFacts.SetterEcho`: integers are unbounded. C's `atoi` returns a
  32-bit `int`, and a value outside that range is undefined behaviour. The
  model reads such an argument as its exact value, and the "NAME %d"
  round trip is proved for every integer rather than the 32-bit range.
- `ToInt`: Qt's handling of surrounding white space is not modelled. A
  token with a space cannot arise after `split(" ")`.
- `Gui.Update`: `QList::at` past the end is undefined behaviour. The
  model leaves the display unchanged there.
- `qDebug` output and the Qt widget classes are not modelled. The display
  is a record of the widgets' states.
- GuiFacts: the PM's `read_power_bits` lines are tied to the GUI's
  output widgets by name and order (`PowerLinesInWidgetOrder`). That a
  rendered reply checks its widget is proved only for Main power, the one
  name that differs.
- Concurrency between the loop and the interrupts is not modelled. Each
  pass of a run loop is one atomic step.

## Findings

| source | as written | input that shows it | evidently intended | confidence | as-written member | corrected member |
|---|---|---|---|---|---|---|
| pm_firmware/src/pm_usart.c:156-170 | a carriage return stored in the last slot `continue`s past the `i == command_length` check, so the next byte is written at `command[command_length]` | 63 plain bytes, then CR, then any byte other than LF, on a 64-byte buffer | test for a full buffer after every stored byte | not executed | Usart.OverrunExample | Usart.FixedNeverOverruns |
| src/qt/pm_gui/pm_gui.cpp:554-561 | the GUI names the Main power output "MMD_PWR_EN"; the PM only knows "Main_PWR_EN" (`pm.c:273`, `pm.c:401`) | clicking the MMD_PWR_EN output sends "MMD_PWR_EN 1", which the PM rejects as INVALID; the PM's "Main_PWR_EN 1" reply is ignored | the name the firmware uses, "Main_PWR_EN" | not executed | GuiFacts.MmdCommandRejected | GuiFacts.MainCommandAccepted |
