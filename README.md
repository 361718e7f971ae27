# Hypertoken device handlers in Dafny

This project models the device-handler layer of the Hypertoken terminal. That layer sits between the operating system's transports and the terminal's text sink, and it has three parts:

- **`HIDDataHandler`** drives a USB human-interface device. It selects the device from a friendly name of the form `"0xVVVV, 0xPPPP: description"`, where VVVV and PPPP are the idVendor and idProduct fields of the USB device descriptor (section 9.6.1 of the USB 2.0 specification). It then opens and closes the device and writes output reports. Two read callbacks each request the next read first, then run the preparser and the current script, and publish the text.
- **`SerialPortDataHandler`** drives a serial port. Its parameter setters pass straight through to the port, and renaming the port closes it first. A write is capped at the port's write-buffer size. The receive handler drains at most 1024 bytes per notification into a reused buffer and decodes a fresh copy of exactly those bytes. It skips the preparser.
- **`PythonPacketParser`** holds the loaded decode script. A reload replaces it as a whole. Interpreting a packet never throws: a script failure becomes text.

Files:

- `wrappers.dfy` holds `Option`, `Result` and `Outcome`. The model returns the exceptions the C# code throws as values.
- `interface.dfy` holds `byte`, `uint16` and `PortState`.
- `python_packet_parser.dfy` is module `PacketParser`:
  - the script outcome and the pure mapping from outcome to text;
  - the class `PythonPacketParser`, whose `script` field is reassigned.
- `hid_selection.dfy` is module `HidSelection`, the pure part of the HID handler:
  - hex digits;
  - friendly names and parsing the ids back from them;
  - device selection and the reported port state;
  - what opening and closing do to a device, and the report a write sends.
- `hid_data_handler.dfy` is module `HidTransport`, the class `HidDataHandler`:
  - the selected device is an `Option<HidDevice>` field that the setters reassign;
  - a `trace` field records, in order, each read request, each written report and each published text.
- `serial_port_data_handler.dfy` is module `SerialTransport`:
  - the class `SerialPort` is the abstract state of the framework's port: its settings, whether it is open, its input queue, its output log, and what an open attempt meets;
  - the class `SerialPortDataHandler` holds the handler, its 1024-byte receive buffer, its subscribers and the published texts.
- `scenarios.dfy` is module `Scenarios`. Its client methods use only the handlers' contracts to check the situations below:
  - a script reload between two input reports;
  - 1500 bytes drained as a 1024-byte packet and then a 476-byte packet;
  - a three-byte write capped by a two-byte write buffer;
  - a receive notification on a closed port, with and without Info logging;
  - opening a port held elsewhere;
  - a script error turned into text while the port stays open.

The transports and the script are outside the model. They appear as follows:

- **HID enumeration** is the `connected` parameter: the sequence of devices that enumeration returns.
- **The preparser** is a function field of the HID handler.
- **The script** is a function from a packet to `Parsed(text)`, `MemberAccessError(message)` or `OtherError(message)`.
- **UTF-8 encoding** in the HID `Write(string)` is a function parameter.
- **The serial port's ASCII encoding** is written out over UTF-16 code units, as C# strings hold them. An ASCII character is its code. Every other code unit becomes `'?'`, so a character outside the Basic Multilingual Plane, a surrogate pair, becomes `"??"`. `WriteLine` appends `"\n"`.
- **`Environment.NewLine`** is `"\r\n"`, its value on Windows.
- **`DataReceived`** is a subscriber count plus the record of published texts. It is raised only when the count is positive.
- **The shared "current parser" holder** of the application is not part of this model. Each handler holds the `PythonPacketParser` directly, so a reload is seen by the next decode of either handler.

Behaviour of the code worth noting:

- Changing a serial parameter while the port is open is not refused. The setter passes the value straight through.
- The HID `DeviceName` setter does not merely fail when no idle device matches. It first sets the selection to null, then throws, so `PortState` reads `Error` afterwards. A name that does not parse throws before anything changes. The setter never closes a previously selected device: an open device stays open when the selection moves away from it. The serial setter, by contrast, closes the port before renaming it.
- A failed script reload is not logged. The exception propagates out of `UpdateScript`. The previous script stays in use only because the assignment never happens.
- The member-access fallback text is `"Script error: " + message + "\r\n"`. Any other exception gives `message + NewLine`, with no prefix.
- No `PropertyChanged` event is ever raised, so renaming an open serial port closes it without a notification.
- The HID `Write` throws `IndexOutOfRangeException` when the data is longer than a non-empty report. Nothing is then sent. A report of length 0 is sent empty, and the write still returns the length of the data.
- The HID name parser uses `int.Parse` with `AllowHexSpecifier` alone. It accepts one to four hex digits of either case followed only by NUL characters, which the framework ignores at the end of a number. So `"0x04\0\0, 0xF745: x"` selects vendor 0x0004.
- The serial receive handler logs `BytesToRead` before it tests `IsOpen`. Reading `BytesToRead` on a closed port throws `InvalidOperationException`. So when the Info level is enabled and the log arguments are evaluated, a notification on a closed port throws from the handler. Otherwise it does nothing.
- The file watcher the parser creates is never enabled and is not kept. As written, no change notification reaches `UpdateScript`. The model exposes `UpdateScript` as a call.

## Model

| member | source | states |
|---|---|---|
| PacketParser.InterpretOutcome | PacketParser/PythonPacketParser.cs:43-61 | a successful parse is returned unchanged; a member-access failure is "Script error: ", the message and CR LF; any other failure is the message followed by the newline; the result is always a string |
| PacketParser.ErrorTextDeterminesMessage | PacketParser/PythonPacketParser.cs:53-60 | two failures of the same kind give the same text only when their messages are equal |
| PacketParser.PythonPacketParser.constructor | PacketParser/PythonPacketParser.cs:24-34 | the script is loaded before the constructor returns |
| PacketParser.PythonPacketParser.UpdateScript | PacketParser/PythonPacketParser.cs:36-41 | a successful load replaces the script wholesale; a failed load propagates and keeps the previous script |
| PacketParser.PythonPacketParser.InterpretPacket | PacketParser/PythonPacketParser.cs:43-61 | decodes with the script in use at the call; success is passed through; every failure becomes a line ending in CR LF, with the "Script error: " prefix exactly for member-access failures |
| HidSelection.HexRun | Terminal/HIDDataHandler.cs:69-70 | the number parser's digit scan: the longest prefix of hex digits, ending at the first non-digit or the end |
| HidSelection.HexRunUnique | Terminal/HIDDataHandler.cs:69-70 | the digit run is the only prefix of hex digits that is followed by a non-digit or the end |
| HidSelection.HexValue | Terminal/HIDDataHandler.cs:69-70 | the value of n hex digits is below 16 to the n |
| HidSelection.ParseHex4 | Terminal/HIDDataHandler.cs:69-70 | four characters parse if and only if they are one or more hex digits followed only by NULs, and then give the value of those digits; four hex digits always parse to their value |
| HidSelection.TrailingNulsIgnored | Terminal/HIDDataHandler.cs:69-70 | "04" followed by two NULs parses as 0x0004 |
| HidSelection.FormatHex4 | Terminal/HIDDataHandler.cs:38 | the hex rendering of an id has four hex digits |
| HidSelection.ParseFormatHex4 | Terminal/HIDDataHandler.cs:34-71 | parsing the four-digit rendering of any 16-bit id gives back the id |
| HidSelection.FormatParseHex4 | Terminal/HIDDataHandler.cs:34-71 | rendering the value of any four upper-case hex digits gives back those digits |
| HidSelection.ParseHex4IgnoresCase | Terminal/HIDDataHandler.cs:69-70 | lower-case and upper-case digits parse to the same id |
| HidSelection.HexId | Terminal/HIDDataHandler.cs:38 | a hex id is "0x" followed by the four-digit rendering |
| HidSelection.FriendlyNameOf | Terminal/HIDDataHandler.cs:34-39 | "0x", the four vendor digits, ", 0x", the four product digits, ": " and the description, at offsets 0, 2, 6, 10, 14 and 16 |
| HidSelection.GetFriendlyName | Terminal/HIDDataHandler.cs:34-39 | the friendly name is empty exactly when there is no device, and is the device's "vendor, product: description" text otherwise |
| HidSelection.HandlerFriendlyName | Terminal/HIDDataHandler.cs:74-77 | "HID: " followed by the device's friendly name; just "HID: " without a device |
| HidSelection.ListAvailableDevices | Terminal/HIDDataHandler.cs:29-32 | one friendly name per enumerated device, in enumeration order |
| HidSelection.DeviceDescriptions | Terminal/HIDDataHandler.cs:41-44 | one description per enumerated device, in order |
| HidSelection.ParseUsbIds | Terminal/HIDDataHandler.cs:65-72 | succeeds if and only if the string has at least 14 characters and hex numbers (digits, then only NULs) at offsets 2 to 5 and 10 to 13, and then reads the vendor and product from exactly those fields; fails with an out-of-range error exactly when a substring runs past the end before a bad field is met |
| HidSelection.PaddedVendorIdAccepted | Terminal/HIDDataHandler.cs:65-72 | a vendor field padded with NULs, as in "0x04" + two NULs + ", 0xF745: x", still names vendor 0x0004 and product 0xF745 |
| HidSelection.ParseUsbIdsReadsOnlyDigits | Terminal/HIDDataHandler.cs:65-71 | two strings with the same eight digit characters parse alike, whatever the other characters are |
| HidSelection.FriendlyNameRoundTrip | Terminal/HIDDataHandler.cs:34-71 | parsing a device's friendly name gives back its vendor and product ids |
| HidSelection.ParsedIdsFormatBack | Terminal/HIDDataHandler.cs:34-71 | a name with upper-case digits and the separators in place is the friendly name of a device with the parsed ids |
| HidSelection.Matching | Terminal/HIDDataHandler.cs:58 | enumeration by ids keeps exactly the connected devices with those ids |
| HidSelection.FirstIdle | Terminal/HIDDataHandler.cs:59 | the index of the first device that is not open; none exactly when every device is open |
| HidSelection.FirstSelectable | Terminal/HIDDataHandler.cs:57-59 | the first connected device with the ids that is not open; none exactly when no such device exists |
| HidSelection.FirstIdleOfMatching | Terminal/HIDDataHandler.cs:58-59 | filtering by ids and then taking the first idle device picks the first connected device with the ids that is idle |
| HidSelection.SelectDevice | Terminal/HIDDataHandler.cs:55-62 | fails exactly when the name does not parse, with the parser's error; otherwise gives the first connected device, in enumeration order, that has the parsed ids and is idle, and none exactly when no such device exists |
| HidSelection.SelectListedDevice | Terminal/HIDDataHandler.cs:29-62 | selecting a listed name whose device is idle succeeds, and picks the first idle device with the same ids, at or before it in the listing |
| HidSelection.PortStateOf | Terminal/HIDDataHandler.cs:94-100 | Error if and only if there is no device; otherwise Open if and only if the device is open |
| HidSelection.AfterOpen | Terminal/HIDDataHandler.cs:110-112 | the same device, now open, monitored and with one more removal subscription |
| HidSelection.AfterClose | Terminal/HIDDataHandler.cs:119-121 | the same device, now closed and unmonitored, with one removal subscription fewer (none stays none) |
| HidSelection.CloseUndoesOpen | Terminal/HIDDataHandler.cs:108-122 | closing after opening leaves the device closed, not monitored, and with the removal subscriptions it had before |
| HidSelection.FilledReport | Terminal/HIDDataHandler.cs:166-171 | the report keeps its created length, carries the data left-aligned, and is zero elsewhere |
| HidSelection.CharToByte | Terminal/HIDDataHandler.cs:188 | a character below 256 is its own byte; otherwise the byte agrees with the code modulo 256 |
| HidTransport.HidDataHandler.constructor | Terminal/HIDDataHandler.cs:23-27 | no device is selected, nobody subscribes, nothing has happened |
| HidTransport.HidDataHandler.GetDeviceName | Terminal/HIDDataHandler.cs:48-54 | the selected device's path, or "" without one |
| HidTransport.HidDataHandler.FriendlyName | Terminal/HIDDataHandler.cs:74-77 | "HID: " followed by the selected device's friendly name |
| HidTransport.HidDataHandler.GetPortState | Terminal/HIDDataHandler.cs:94-100 | Error if and only if no device is selected; Open if and only if the selected device is open |
| HidTransport.HidDataHandler.SetDeviceName | Terminal/HIDDataHandler.cs:55-62 | an unparsable name throws and changes nothing; otherwise the selection becomes the first idle device with the parsed ids, or null, and then the setter throws |
| HidTransport.HidDataHandler.SetPortState | Terminal/HIDDataHandler.cs:101-123 | throws without a device; Open opens the device, turns monitoring on, adds one removal subscription and requests both reads; any other value closes, turns monitoring off and drops one subscription |
| HidTransport.HidDataHandler.Write | Terminal/HIDDataHandler.cs:163-174 | throws without a device; throws and sends nothing when the data is longer than a non-empty report; otherwise sends one report with the data left-aligned and zeros after it, and returns the data length |
| HidTransport.HidDataHandler.WriteByte | Terminal/HIDDataHandler.cs:176-179 | a one-byte write, with the same outcomes |
| HidTransport.HidDataHandler.WriteString | Terminal/HIDDataHandler.cs:181-184 | writes the UTF-8 encoding of the string and returns its length in bytes |
| HidTransport.HidDataHandler.WriteChar | Terminal/HIDDataHandler.cs:186-189 | writes the low eight bits of the character's code |
| HidTransport.HidDataHandler.ReadCallback | Terminal/HIDDataHandler.cs:142-156 | requests the next read before anything else; publishes nothing without a subscriber; otherwise publishes exactly the script's decoding of the preparsed data |
| HidTransport.HidDataHandler.ReadReportCallback | Terminal/HIDDataHandler.cs:126-140 | the same for the report read: request first, then publish the decoding only when subscribed |
| HidTransport.HidDataHandler.SubscribeDataReceived | Terminal/HIDDataHandler.cs:191 | adds one DataReceived subscriber |
| HidTransport.HidDataHandler.UnsubscribeDataReceived | Terminal/HIDDataHandler.cs:191 | removes one DataReceived subscriber if there is one |
| SerialTransport.AsciiEncode | Terminal/SerialPortDataHandler.cs:174-180 | one byte per UTF-16 code unit, every byte below 128; for text inside the Basic Multilingual Plane, ASCII characters as their codes and every other character as '?' |
| SerialTransport.AsciiEncodeAppend | Terminal/SerialPortDataHandler.cs:174 | encoding a string followed by the line terminator sends the string's bytes and then the terminator's, and the UTF-16 lengths add up |
| SerialTransport.OutsideBmpSentAsTwoMarks | Terminal/SerialPortDataHandler.cs:174-175 | a character outside the Basic Multilingual Plane counts as two code units and is sent as "??" |
| SerialTransport.WriteLength | Terminal/SerialPortDataHandler.cs:156-158 | the smaller of the data length and the write-buffer size |
| SerialTransport.ReceiveCount | Terminal/SerialPortDataHandler.cs:190-196 | the smaller of the queued count and 1024, and positive when anything is queued |
| SerialTransport.PacketsPartition | Terminal/SerialPortDataHandler.cs:190-198 | successive notifications drain a queue in packets of 1 to 1024 bytes, all but the last full, whose concatenation is the queue: nothing lost, nothing duplicated |
| SerialTransport.TwoNotificationsDrain | Terminal/SerialPortDataHandler.cs:195-198 | between 1025 and 2048 queued bytes take exactly two notifications: the first 1024 bytes, then the rest |
| SerialTransport.SerialPort.constructor | Terminal/SerialPortDataHandler.cs:22 | a new port is closed, named COM1, at 9600 baud, 8 data bits, no parity, one stop bit, no flow control, with a 2048-byte write buffer |
| SerialTransport.SerialPort.Open | Terminal/SerialPortDataHandler.cs:127 | an open port refuses; a free port opens; a port held elsewhere throws an access error and a missing port an I/O error, and both stay closed |
| SerialTransport.SerialPort.Close | Terminal/SerialPortDataHandler.cs:135 | the port is closed afterwards, whatever it was before |
| SerialTransport.SerialPort.Write | Terminal/SerialPortDataHandler.cs:160 | an open port appends the bytes to its output; a closed port throws and sends nothing |
| SerialTransport.SerialPort.Read | Terminal/SerialPortDataHandler.cs:198 | moves the first count queued bytes into the start of the buffer and leaves the rest of the buffer as it was |
| SerialTransport.SerialPortDataHandler.constructor | Terminal/SerialPortDataHandler.cs:19-33 | COM1, 115200 baud, 8 data bits, one stop bit, no parity, no flow control, closed, with a fresh 1024-byte receive buffer |
| SerialTransport.SerialPortDataHandler.GetBaud | Terminal/SerialPortDataHandler.cs:41 | the port's current baud rate |
| SerialTransport.SerialPortDataHandler.GetDataBits | Terminal/SerialPortDataHandler.cs:49 | the port's current data bits |
| SerialTransport.SerialPortDataHandler.GetDeviceName | Terminal/SerialPortDataHandler.cs:59 | the port's current name |
| SerialTransport.SerialPortDataHandler.GetFlowControl | Terminal/SerialPortDataHandler.cs:104 | the port's current handshake |
| SerialTransport.SerialPortDataHandler.GetParity | Terminal/SerialPortDataHandler.cs:110 | the port's current parity |
| SerialTransport.SerialPortDataHandler.GetStopBits | Terminal/SerialPortDataHandler.cs:141 | the port's current stop bits |
| SerialTransport.SerialPortDataHandler.GetPortState | Terminal/SerialPortDataHandler.cs:120 | Open if and only if the port is open, and never Error |
| SerialTransport.SerialPortDataHandler.SetBaud | Terminal/SerialPortDataHandler.cs:39-43 | sets the port's baud rate and nothing else |
| SerialTransport.SerialPortDataHandler.SetDataBits | Terminal/SerialPortDataHandler.cs:47-55 | sets the port's data bits and nothing else |
| SerialTransport.SerialPortDataHandler.SetParity | Terminal/SerialPortDataHandler.cs:108-116 | sets the port's parity and nothing else |
| SerialTransport.SerialPortDataHandler.SetStopBits | Terminal/SerialPortDataHandler.cs:139-147 | sets the port's stop bits and nothing else |
| SerialTransport.SerialPortDataHandler.SetFlowControl | Terminal/SerialPortDataHandler.cs:102-106 | sets the port's handshake and nothing else |
| SerialTransport.SerialPortDataHandler.SetPortState | Terminal/SerialPortDataHandler.cs:118-137 | Open opens the port and lets an access failure through, with the port still closed; any other value closes the port |
| SerialTransport.SerialPortDataHandler.SetDeviceName | Terminal/SerialPortDataHandler.cs:57-67 | an open port is closed first; afterwards the port is closed and has the new name, with its other settings unchanged |
| SerialTransport.SerialPortDataHandler.Write | Terminal/SerialPortDataHandler.cs:154-162 | sends exactly the prefix of length min(data length, write-buffer size) and returns that length; throws on a closed port |
| SerialTransport.SerialPortDataHandler.WriteByte | Terminal/SerialPortDataHandler.cs:164-168 | sends one byte and returns 1 |
| SerialTransport.SerialPortDataHandler.WriteString | Terminal/SerialPortDataHandler.cs:170-176 | sends the string's encoding and then the line terminator's, uncapped, and returns the string's length in UTF-16 code units, one less than the bytes sent |
| SerialTransport.SerialPortDataHandler.WriteChar | Terminal/SerialPortDataHandler.cs:178-182 | sends the character in the port's encoding and returns 1 |
| SerialTransport.SerialPortDataHandler.PortOnDataReceived | Terminal/SerialPortDataHandler.cs:184-209 | on a closed port throws when the Info level is enabled and otherwise does nothing; does nothing on an empty queue; otherwise takes the next packet, min(queued, 1024) bytes, leaving the rest queued. The packet overwrites the start of the receive buffer, and the decoding of exactly those bytes is published when anyone subscribes |
| SerialTransport.SerialPortDataHandler.SubscribeDataReceived | Terminal/SerialPortDataHandler.cs:35 | adds one DataReceived subscriber |
| SerialTransport.SerialPortDataHandler.UnsubscribeDataReceived | Terminal/SerialPortDataHandler.cs:35 | removes one DataReceived subscriber if there is one |

## Left out

- Device enumeration (`HidDevices.Enumerate`, `SerialPort.GetPortNames`) is foreign code. The HID enumeration result is a parameter. The serial `Devices` and `ListAvailableDevices` only return the framework's port names, so they are not modelled.
- The serial `DeviceStatus` getter formats the settings with a floating-point division and culture-dependent formatting. Its setter, and the calls to it from the data-bits, parity and stop-bits setters, only log.
- The HID `DeviceStatus` getter only throws `NotImplementedException`. The `DeviceType` getters return a constant tag, and `CurrentDevice` is an auto-property that nothing reads.
- Logging and the HID `DeviceOnRemoved` handler, which only logs, are not modelled. The one log call whose arguments can throw is modelled as the `infoLogEnabled` parameter of the serial receive handler. A removal subscription is counted but never fired.
- `PropertyChanged` is declared but never raised.
- The file watcher and the IronPython runtime are not modelled. A reload is a call to `UpdateScript` with the loaded script or the load error.
- PacketParser.PythonPacketParser.constructor: takes an already loaded script; a load failure during construction, which makes the constructor throw, is not modelled.
- Concurrency is not modelled. The OS delivers callbacks and notifications on its own threads, and the code has no locking, so overlapping callbacks and a callback still running after close could occur. The model runs every callback as a sequential call.
- HidTransport.HidDataHandler.SetPortState: opening always succeeds in the model; the HID library's failure to obtain a handle, and its behaviour when reading or writing a closed device, are not modelled.
- HidTransport.HidDataHandler.ReadReportCallback: takes the bytes the report's `GetBytes` returns; how the library lays out a report is not modelled.
- HidTransport.HidDataHandler.WriteString: the UTF-8 encoder is a parameter rather than a definition.
- The serial port's own argument checks are not modelled: a baud rate of 0 or less, data bits outside 5 to 8, `StopBits.None` and malformed port names.
- SerialTransport.SerialPort.Read: assumes the read returns all `count` bytes asked for. The handler ignores the count `Read` returns, so a short read would leave stale bytes in the copied packet; that case is not modelled.
- HidSelection.ParseUsbIds: offsets and the 14-character bound count Unicode scalar values, while C# `Substring` counts UTF-16 code units. So a name with a character outside the Basic Multilingual Plane before offset 14 is read differently. Names taken from the device list start with 16 ASCII characters and are not affected.
- HidTransport.HidDataHandler.WriteChar: takes a Unicode scalar value, so a lone UTF-16 surrogate `char`, which C# can pass, is not modelled.
- SerialTransport.SerialPortDataHandler.WriteChar: takes a Unicode scalar value, so a lone UTF-16 surrogate `char` is not modelled. A character outside the Basic Multilingual Plane, which a C# `char` cannot hold, would be sent as two '?'.
- PacketParser.PythonPacketParser.InterpretPacket: a script whose `Parse` returns `None` gives a null string, which the handlers publish as is; `Parsed` carries a string, so a null result is not modelled.
- PacketParser.NewLine: fixed to the Windows value "\r\n"; other platforms' newline is not modelled.
