/** The HID device handler: selects a device by its friendly name, opens and
    closes it, writes output reports and turns input reports into text. */
module HidTransport {
  import opened Interface
  import opened Wrappers
  import opened HidSelection
  import opened PacketParser

  /** The exceptions the handler lets escape. */
  datatype HidError =
    | BadDeviceName(cause: ParseError)  // the name does not carry two hex ids
    | DeviceInUse                       // no idle device with those ids
    | DeviceNotSelected                 // ArgumentException from the PortState setter
    | NullDevice                        // NullReferenceException: no device selected
    | IndexOutOfRange                   // more data than the report has room for

  /** What the handler asks of the device and of its subscribers, in order. */
  datatype HidEvent =
    | ReadArmed                         // Read(ReadCallback): the next input read is requested
    | ReportReadArmed                   // ReadReport(ReadReportCallback)
    | ReportWritten(report: seq<byte>)  // WriteReport with these report data
    | Published(text: string)           // DataReceived raised with this text

  class HidDataHandler {
    /** The selected device, or null. */
    var device: Option<HidDevice>
    /** The decode stage shared with the rest of the application. */
    const parser: PythonPacketParser
    /** The transport-level preparser, applied before the script. */
    const preparse: seq<byte> -> seq<byte>
    /** The number of handlers subscribed to DataReceived. */
    var subscribers: nat
    var trace: seq<HidEvent>

    constructor (parser: PythonPacketParser, preparse: seq<byte> -> seq<byte>)
      ensures device == None && subscribers == 0 && trace == []
      ensures this.parser == parser && this.preparse == preparse
    {
      device := None;
      this.parser := parser;
      this.preparse := preparse;
      subscribers := 0;
      trace := [];
    }

    /** The DeviceName getter: the selected device's path. This is not the
        friendly name the setter takes. */
    function GetDeviceName(): (name: string)
      reads this
      ensures device.Some? ==> name == device.value.devicePath
      ensures device.None? ==> name == ""
    {
      if device.None? then "" else device.value.devicePath
    }

    /** The FriendlyName property. */
    function FriendlyName(): (name: string)
      reads this
      ensures |name| >= 5 && name[..5] == "HID: "
      ensures device.None? ==> name == "HID: "
      ensures device.Some? ==> name[5..] == FriendlyNameOf(device.value)
    {
      HandlerFriendlyName(device)
    }

    /** The PortState getter. */
    function GetPortState(): (s: PortState)
      reads this
      ensures s == Error <==> device.None?
      ensures s == Open <==> device.Some? && device.value.isOpen
    {
      PortStateOf(device)
    }

    /** The DeviceName setter. A name that does not parse throws before
        anything changes; otherwise the selection is replaced by the first
        idle device with the parsed ids, or by null, in which case it throws. */
    method SetDeviceName(value: string, connected: seq<HidDevice>) returns (r: Outcome<HidError>)
      modifies this
      ensures subscribers == old(subscribers) && trace == old(trace)
      ensures match SelectDevice(value, connected)
        case Err(e) => r == Fail(BadDeviceName(e)) && device == old(device)
        case Ok(None) => r == Fail(DeviceInUse) && device == None
        case Ok(Some(d)) => r == Pass && device == Some(d)
      ensures r == Fail(DeviceInUse) ==> GetPortState() == Error
    {
      match SelectDevice(value, connected)
      case Err(e) =>
        r := Fail(BadDeviceName(e));
      case Ok(selected) =>
        device := selected;
        r := if selected.None? then Fail(DeviceInUse) else Pass;
    }

    /** The PortState setter. Open opens the device, turns monitoring on,
        subscribes to removal and requests both reads; any other value closes
        the device, turns monitoring off and unsubscribes. */
    method SetPortState(value: PortState) returns (r: Outcome<HidError>)
      modifies this
      ensures subscribers == old(subscribers)
      ensures old(device).None? ==> r == Fail(DeviceNotSelected) && device == None && trace == old(trace)
      ensures old(device).Some? && value == Open ==>
        && r == Pass
        && device == Some(AfterOpen(old(device).value))
        && trace == old(trace) + [ReadArmed, ReportReadArmed]
      ensures old(device).Some? && value != Open ==>
        && r == Pass
        && device == Some(AfterClose(old(device).value))
        && trace == old(trace)
      ensures old(device).Some? ==> GetPortState() == if value == Open then Open else Closed
    {
      if device.None? {
        return Fail(DeviceNotSelected);
      }
      if value == Open {
        device := Some(AfterOpen(device.value));
        trace := trace + [ReadArmed, ReportReadArmed];
      } else {
        device := Some(AfterClose(device.value));
      }
      r := Pass;
    }

    /** Write(byte[]): creates a zero-filled report, copies the data into it
        one position at a time (only when the report has any room) and sends
        it, returning the length of the data whether or not it all fitted. */
    method Write(data: seq<byte>) returns (r: Result<nat, HidError>)
      modifies this
      ensures device == old(device) && subscribers == old(subscribers)
      ensures device.None? ==> r == Err(NullDevice) && trace == old(trace)
      ensures device.Some? && ReportFits(data, device.value.reportLength) ==>
        && r == Ok(|data|)
        && trace == old(trace) + [ReportWritten(FilledReport(data, device.value.reportLength))]
      ensures device.Some? && !ReportFits(data, device.value.reportLength) ==>
        r == Err(IndexOutOfRange) && trace == old(trace)
    {
      if device.None? {
        return Err(NullDevice);
      }
      var n := device.value.reportLength;
      var report := new byte[n](_ => 0);
      if n > 0 {
        var i := 0;
        while i < |data|
          modifies report
          invariant 0 <= i <= |data| && i <= n
          invariant report[..] == data[..i] + Zeros(n - i)
        {
          if i >= n {
            return Err(IndexOutOfRange);
          }
          report[i] := data[i];
          i := i + 1;
        }
        assert data[..i] == data;
      }
      assert report[..] == FilledReport(data, n);
      trace := trace + [ReportWritten(report[..])];
      r := Ok(|data|);
    }

    /** Write(byte): a one-byte write. */
    method WriteByte(b: byte) returns (r: Result<nat, HidError>)
      modifies this
      ensures device == old(device) && subscribers == old(subscribers)
      ensures device.None? ==> r == Err(NullDevice) && trace == old(trace)
      ensures device.Some? && ReportFits([b], device.value.reportLength) ==>
        && r == Ok(1)
        && trace == old(trace) + [ReportWritten(FilledReport([b], device.value.reportLength))]
      ensures device.Some? && !ReportFits([b], device.value.reportLength) ==>
        r == Err(IndexOutOfRange) && trace == old(trace)
    {
      r := Write([b]);
    }

    /** Write(char): writes the character's code truncated to a byte. */
    method WriteChar(c: char) returns (r: Result<nat, HidError>)
      modifies this
      ensures device == old(device) && subscribers == old(subscribers)
      ensures device.None? ==> r == Err(NullDevice) && trace == old(trace)
      ensures device.Some? && ReportFits([CharToByte(c)], device.value.reportLength) ==>
        && r == Ok(1)
        && trace == old(trace) + [ReportWritten(FilledReport([CharToByte(c)], device.value.reportLength))]
      ensures device.Some? && !ReportFits([CharToByte(c)], device.value.reportLength) ==>
        r == Err(IndexOutOfRange) && trace == old(trace)
    {
      r := Write([CharToByte(c)]);
    }

    /** Write(string): writes the string's UTF-8 encoding, given as `utf8`,
        and returns the number of encoded bytes. */
    method WriteString(data: string, utf8: string -> seq<byte>) returns (r: Result<nat, HidError>)
      modifies this
      ensures device == old(device) && subscribers == old(subscribers)
      ensures device.None? ==> r == Err(NullDevice) && trace == old(trace)
      ensures device.Some? && ReportFits(utf8(data), device.value.reportLength) ==>
        && r == Ok(|utf8(data)|)
        && trace == old(trace) + [ReportWritten(FilledReport(utf8(data), device.value.reportLength))]
      ensures device.Some? && !ReportFits(utf8(data), device.value.reportLength) ==>
        r == Err(IndexOutOfRange) && trace == old(trace)
    {
      r := Write(utf8(data));
    }

    /** The text a callback publishes for one packet: the preparser, then the
        script currently loaded. */
    function Decode(packet: seq<byte>): (text: string)
      reads this, parser
    {
      parser.InterpretPacket(preparse(packet))
    }

    /** ReadCallback: requests the next input read first; then, when anyone
        subscribes to DataReceived, publishes the decoded packet. */
    method ReadCallback(data: seq<byte>) returns (r: Outcome<HidError>)
      modifies this
      ensures device == old(device) && subscribers == old(subscribers)
      ensures device.None? ==> r == Fail(NullDevice) && trace == old(trace)
      ensures device.Some? ==>
        && r == Pass
        && trace == old(trace) + [ReadArmed] + (if subscribers == 0 then [] else [Published(Decode(data))])
    {
      if device.None? {
        return Fail(NullDevice);
      }
      trace := trace + [ReadArmed];
      r := Pass;
      if subscribers == 0 {
        return;
      }
      var preparsed := preparse(data);
      var text := parser.InterpretPacket(preparsed);
      trace := trace + [Published(text)];
    }

    /** ReadReportCallback: the same for structured reports; `bytes` is
        what the report's GetBytes returns. */
    method ReadReportCallback(bytes: seq<byte>) returns (r: Outcome<HidError>)
      modifies this
      ensures device == old(device) && subscribers == old(subscribers)
      ensures device.None? ==> r == Fail(NullDevice) && trace == old(trace)
      ensures device.Some? ==>
        && r == Pass
        && trace == old(trace) + [ReportReadArmed] + (if subscribers == 0 then [] else [Published(Decode(bytes))])
    {
      if device.None? {
        return Fail(NullDevice);
      }
      trace := trace + [ReportReadArmed];
      r := Pass;
      if subscribers == 0 {
        return;
      }
      var preparsed := preparse(bytes);
      var text := parser.InterpretPacket(preparsed);
      trace := trace + [Published(text)];
    }

    /** DataReceived += handler. */
    method SubscribeDataReceived()
      modifies this
      ensures subscribers == old(subscribers) + 1
      ensures device == old(device) && trace == old(trace)
    {
      subscribers := subscribers + 1;
    }

    /** DataReceived -= handler; removing a handler that is not there does nothing. */
    method UnsubscribeDataReceived()
      modifies this
      ensures subscribers == if old(subscribers) == 0 then 0 else old(subscribers) - 1
      ensures device == old(device) && trace == old(trace)
    {
      if subscribers > 0 {
        subscribers := subscribers - 1;
      }
    }
  }
}
