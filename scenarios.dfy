/** Clients of the handlers: the situations below, checked against the
    handlers' contracts alone. */
module Scenarios {
  import opened Interface
  import opened Wrappers
  import opened PacketParser
  import opened HidSelection
  import opened HidTransport
  import opened SerialTransport

  /** A reload between two input reports changes the decoding of the second
      report and of nothing before it; each report requests the next read
      before its text is published. */
  method ReloadBetweenReports(d: HidDevice, first: Script, second: Script, data: seq<byte>)
    requires !d.isOpen
  {
    var parser := new PythonPacketParser(first);
    var hid := new HidDataHandler(parser, p => p);
    SelectListedDevice([d], 0);
    var selected := hid.SetDeviceName(ListAvailableDevices([d])[0], [d]);
    assert selected == Pass && hid.GetPortState() == Closed;
    var openResult := hid.SetPortState(Open);
    assert hid.GetPortState() == Open;
    hid.SubscribeDataReceived();
    var r1 := hid.ReadCallback(data);
    var reloaded := parser.UpdateScript(Ok(second));
    var r2 := hid.ReadCallback(data);
    assert hid.trace == [ReadArmed, ReportReadArmed,
                         ReadArmed, Published(InterpretOutcome(first(data))),
                         ReadArmed, Published(InterpretOutcome(second(data)))];
  }

  /** 1500 bytes that arrive together are published as two packets, the
      first 1024 bytes and then the other 476, with nothing left queued. */
  method SplitReceive(parser: PythonPacketParser, bytes: seq<byte>)
    requires |bytes| == 1500
  {
    var serial := new SerialPortDataHandler(parser);
    var openResult := serial.SetPortState(Open);
    assert openResult == Pass;
    serial.SubscribeDataReceived();
    serial.port.Deliver(bytes);
    assert serial.port.input == bytes;
    TwoNotificationsDrain(bytes);
    var first := serial.PortOnDataReceived(true);
    assert serial.port.input == bytes[1024..];
    assert serial.published == [parser.InterpretPacket(bytes[..1024])];
    var second := serial.PortOnDataReceived(true);
    assert first == Pass && second == Pass;
    assert serial.port.input[..|serial.port.input|] == serial.port.input;
    assert serial.drained == bytes[..1024] + bytes[1024..] == bytes;
    assert serial.port.input == [];
    assert serial.published == [parser.InterpretPacket(bytes[..1024]), parser.InterpretPacket(bytes[1024..])];
  }

  /** With a two-byte write buffer, set while the port is closed as the
      framework requires, writing three bytes sends the first two and
      returns 2. */
  method CappedWrite(parser: PythonPacketParser) {
    var serial := new SerialPortDataHandler(parser);
    serial.port.writeBufferSize := 2;
    var openResult := serial.SetPortState(Open);
    var r := serial.Write([0x01, 0x02, 0x03]);
    assert r == Ok(2) && serial.port.output == [0x01, 0x02];
  }

  /** A notification on a closed port throws when the Info level is
      enabled, and does nothing otherwise. */
  method NotificationOnClosedPort(parser: PythonPacketParser, bytes: seq<byte>) {
    var serial := new SerialPortDataHandler(parser);
    serial.SubscribeDataReceived();
    serial.port.Deliver(bytes);
    var quiet := serial.PortOnDataReceived(false);
    assert quiet == Pass && serial.published == [] && serial.port.input == bytes;
    var logged := serial.PortOnDataReceived(true);
    assert logged == Fail(PortNotOpen) && serial.published == [] && serial.port.input == bytes;
  }

  /** Opening a port another owner holds fails with the access error and
      leaves the port closed. */
  method OpenHeldPort(parser: PythonPacketParser) {
    var serial := new SerialPortDataHandler(parser);
    serial.port.availability := HeldElsewhere;
    var r := serial.SetPortState(Open);
    assert r == Fail(UnauthorizedAccess) && serial.GetPortState() == Closed;
  }

  /** A script that raises a member-access error for the byte 0xFF gives the
      fallback text for it, and the open port stays open. */
  method ScriptErrorKeepsPortOpen(message: string) {
    var parser := new PythonPacketParser(p => if p == [0xFF] then MemberAccessError(message) else Parsed(""));
    var serial := new SerialPortDataHandler(parser);
    var openResult := serial.SetPortState(Open);
    serial.SubscribeDataReceived();
    serial.port.Deliver([0xFF]);
    var received := serial.PortOnDataReceived(false);
    assert serial.published == ["Script error: " + message + "\r\n"];
    assert serial.GetPortState() == Open;
  }
}
