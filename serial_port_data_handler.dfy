/** The serial-port device handler: configures one port, writes to it, and
    turns the bytes that arrive into text, at most 1024 bytes at a time. */
module SerialTransport {
  import opened Interface
  import opened Wrappers
  import opened PacketParser

  datatype Parity = None | Odd | Even | Mark | Space
  datatype StopBits = None | One | Two | OnePointFive
  datatype FlowControl = None | XOnXOff | RequestToSend | RequestToSendXOnXOff

  /** What opening the named port meets on the operating system's side. */
  datatype Availability =
    | Free
    | HeldElsewhere   // another owner has the port exclusively
    | Missing         // no port of that name

  /** The exceptions the handler lets escape. */
  datatype SerialError =
    | UnauthorizedAccess  // the port is held by another owner
    | PortIoFailure       // the port could not be opened for another reason
    | PortAlreadyOpen     // Open on an open port
    | PortNotOpen         // InvalidOperationException: the port is not open

  /** A write-buffer size; the framework refuses zero and negative sizes. */
  type BufferSize = n: int | 0 < n witness 1

  /** The configuration a serial port carries. */
  datatype PortSettings = PortSettings(
    portName: string,
    baudRate: int,
    dataBits: int,
    parity: Parity,
    stopBits: StopBits,
    handshake: FlowControl,
    writeBufferSize: BufferSize)

  /** The size of the handler's reusable receive buffer. */
  const ReceiveBufferSize := 1024

  /** The line terminator WriteLine appends. */
  const PortNewLine := "\n"

  /** The number of UTF-16 code units a character takes: two outside the
      Basic Multilingual Plane, one inside it. */
  function Utf16Units(c: char): (n: nat)
    ensures n == 1 || n == 2
  {
    if (c as int) < 0x1_0000 then 1 else 2
  }

  /** The length of a string as C# counts it, in UTF-16 code units. */
  function Utf16Length(s: string): (n: nat)
    ensures |s| <= n <= 2 * |s|
  {
    if s == [] then 0 else Utf16Units(s[0]) + Utf16Length(s[1..])
  }

  /** A string without characters outside the Basic Multilingual Plane. */
  predicate InBmp(s: string) {
    forall i :: 0 <= i < |s| ==> (s[i] as int) < 0x1_0000
  }

  /** The port's text encoding (ASCII) for one character: an ASCII
      character is its code; any other UTF-16 code unit becomes '?', so a
      character outside the Basic Multilingual Plane, a surrogate pair,
      becomes "??". */
  function AsciiChar(c: char): (b: seq<byte>)
    ensures |b| == Utf16Units(c)
    ensures (c as int) < 0x80 ==> b == [c as int]
    ensures (c as int) >= 0x80 ==> forall i :: 0 <= i < |b| ==> b[i] == '?' as int
  {
    if (c as int) < 0x80 then [c as int]
    else if (c as int) < 0x1_0000 then ['?' as int]
    else ['?' as int, '?' as int]
  }

  /** The port's text encoding (ASCII) for a string. */
  function AsciiEncode(s: string): (b: seq<byte>)
    ensures |b| == Utf16Length(s)
    ensures forall i :: 0 <= i < |b| ==> b[i] < 0x80
    ensures InBmp(s) ==>
      && |b| == |s|
      && (forall i :: 0 <= i < |s| && (s[i] as int) < 0x80 ==> b[i] == s[i] as int)
      && (forall i :: 0 <= i < |s| && (s[i] as int) >= 0x80 ==> b[i] == '?' as int)
  {
    if s == [] then []
    else
      var head, tail := AsciiChar(s[0]), AsciiEncode(s[1..]);
      assert InBmp(s) ==> InBmp(s[1..]) by {
        if InBmp(s) {
          forall i | 0 <= i < |s| - 1 ensures (s[1..][i] as int) < 0x1_0000 {
            assert s[1..][i] == s[i + 1];
          }
        }
      }
      assert forall i :: 1 <= i < |s| ==> s[i] == s[1..][i - 1];
      head + tail
  }

  /** Encoding a concatenation encodes the parts one after the other. */
  lemma {:induction false} AsciiEncodeAppend(s: string, t: string)
    ensures AsciiEncode(s + t) == AsciiEncode(s) + AsciiEncode(t)
    ensures Utf16Length(s + t) == Utf16Length(s) + Utf16Length(t)
  {
    if s != [] {
      assert (s + t)[0] == s[0] && (s + t)[1..] == s[1..] + t;
      AsciiEncodeAppend(s[1..], t);
    } else {
      assert s + t == t;
    }
  }

  /** A character outside the Basic Multilingual Plane counts as two code
      units and is sent as two '?'. */
  lemma OutsideBmpSentAsTwoMarks()
    ensures Utf16Length("\U{1F600}") == 2
    ensures AsciiEncode("\U{1F600}") == ['?' as int, '?' as int]
  {
    assert "\U{1F600}"[1..] == [];
  }

  /** How many bytes Write(byte[]) hands to the port: all of them, unless
      that is more than the port's write buffer holds. */
  function WriteLength(available: nat, capacity: nat): (n: nat)
    ensures n <= available && n <= capacity
    ensures n == available || n == capacity
  {
    if available > capacity then capacity else available
  }

  /** How many queued bytes one receive notification drains. */
  function ReceiveCount(queued: nat): (n: nat)
    ensures n <= queued && n <= ReceiveBufferSize
    ensures n == queued || n == ReceiveBufferSize
    ensures queued > 0 ==> n > 0
  {
    if queued > ReceiveBufferSize then ReceiveBufferSize else queued
  }

  /** The packets that successive receive notifications take from a queue
      to which nothing is added in between. */
  function Packets(queue: seq<byte>): (ps: seq<seq<byte>>)
    decreases |queue|
  {
    if queue == [] then []
    else
      var n := ReceiveCount(|queue|);
      [queue[..n]] + Packets(queue[n..])
  }

  function Concat(ps: seq<seq<byte>>): (joined: seq<byte>) {
    if ps == [] then [] else ps[0] + Concat(ps[1..])
  }

  /** Draining in packets loses and duplicates nothing: the packets put
      together are the queue, each holds 1 to 1024 bytes, and every packet
      but the last is full. */
  lemma {:induction false} PacketsPartition(queue: seq<byte>)
    ensures Concat(Packets(queue)) == queue
    ensures forall i :: 0 <= i < |Packets(queue)| ==> 0 < |Packets(queue)[i]| <= ReceiveBufferSize
    ensures forall i :: 0 <= i < |Packets(queue)| - 1 ==> |Packets(queue)[i]| == ReceiveBufferSize
    decreases |queue|
  {
    if queue != [] {
      var n := ReceiveCount(|queue|);
      var ps := Packets(queue);
      PacketsPartition(queue[n..]);
      assert ps == [queue[..n]] + Packets(queue[n..]);
      assert ps[1..] == Packets(queue[n..]);
      assert Concat(ps) == queue[..n] + Concat(Packets(queue[n..]));
      if n < ReceiveBufferSize {
        assert queue[n..] == [];
      }
    }
  }

  /** More than 1024 queued bytes (and at most 2048) take exactly two
      notifications: the first 1024 bytes, then the rest. */
  lemma TwoNotificationsDrain(queue: seq<byte>)
    requires ReceiveBufferSize < |queue| <= 2 * ReceiveBufferSize
    ensures Packets(queue) == [queue[..ReceiveBufferSize], queue[ReceiveBufferSize..]]
  {
    var rest := queue[ReceiveBufferSize..];
    assert Packets(rest) == [rest[..|rest|]] + Packets(rest[|rest|..]);
    assert rest[..|rest|] == rest && rest[|rest|..] == [];
  }

  /** The state of a System.IO.Ports.SerialPort that the handler uses. */
  class SerialPort {
    var isOpen: bool
    var portName: string
    var baudRate: int
    var dataBits: int
    var parity: Parity
    var stopBits: StopBits
    var handshake: FlowControl
    var writeBufferSize: BufferSize
    /** Bytes received and not yet read; BytesToRead is its length. */
    var input: seq<byte>
    /** Every byte written to the port, in order. */
    var output: seq<byte>
    /** What an attempt to open the port meets. */
    var availability: Availability

    function Settings(): (settings: PortSettings)
      reads this
    {
      PortSettings(portName, baudRate, dataBits, parity, stopBits, handshake, writeBufferSize)
    }

    /** `new SerialPort()`: the framework's defaults. */
    constructor ()
      ensures Settings() == PortSettings("COM1", 9600, 8, Parity.None, StopBits.One, FlowControl.None, 2048)
      ensures !isOpen && input == [] && output == [] && availability == Free
    {
      isOpen := false;
      portName := "COM1";
      baudRate := 9600;
      dataBits := 8;
      parity := Parity.None;
      stopBits := StopBits.One;
      handshake := FlowControl.None;
      writeBufferSize := 2048;
      input := [];
      output := [];
      availability := Free;
    }

    /** Open: refused on an open port; otherwise succeeds only if the port is free. */
    method Open() returns (r: Outcome<SerialError>)
      modifies this
      ensures Settings() == old(Settings()) && input == old(input) && output == old(output)
      ensures availability == old(availability)
      ensures old(isOpen) ==> r == Fail(PortAlreadyOpen) && isOpen
      ensures !old(isOpen) ==> match availability
        case Free => r == Pass && isOpen
        case HeldElsewhere => r == Fail(UnauthorizedAccess) && !isOpen
        case Missing => r == Fail(PortIoFailure) && !isOpen
    {
      if isOpen {
        return Fail(PortAlreadyOpen);
      }
      match availability
      case Free =>
        isOpen := true;
        r := Pass;
      case HeldElsewhere =>
        r := Fail(UnauthorizedAccess);
      case Missing =>
        r := Fail(PortIoFailure);
    }

    /** Close: the port is closed afterwards, whether or not it was open. */
    method Close()
      modifies this
      ensures !isOpen
      ensures Settings() == old(Settings()) && input == old(input) && output == old(output)
      ensures availability == old(availability)
    {
      isOpen := false;
    }

    /** Write(buffer, 0, count) with the bytes given: refused on a closed port. */
    method Write(bytes: seq<byte>) returns (r: Outcome<SerialError>)
      modifies this
      ensures isOpen == old(isOpen) && Settings() == old(Settings()) && input == old(input)
      ensures availability == old(availability)
      ensures isOpen ==> r == Pass && output == old(output) + bytes
      ensures !isOpen ==> r == Fail(PortNotOpen) && output == old(output)
    {
      if !isOpen {
        return Fail(PortNotOpen);
      }
      output := output + bytes;
      r := Pass;
    }

    /** Read(buffer, 0, count) when at least count bytes are queued: moves
        the first count of them into the buffer, which is otherwise untouched. */
    method Read(buffer: array<byte>, count: nat)
      requires count <= |input| && count <= buffer.Length
      modifies this, buffer
      ensures buffer[..count] == old(input)[..count]
      ensures buffer[count..] == old(buffer[count..])
      ensures input == old(input)[count..]
      ensures isOpen == old(isOpen) && Settings() == old(Settings()) && output == old(output)
      ensures availability == old(availability)
    {
      var queued := input;
      forall i | 0 <= i < count {
        buffer[i] := queued[i];
      }
      input := queued[count..];
    }

    /** Bytes arriving on the line: they join the end of the input queue. */
    method Deliver(bytes: seq<byte>)
      modifies this
      ensures input == old(input) + bytes
      ensures isOpen == old(isOpen) && Settings() == old(Settings()) && output == old(output)
      ensures availability == old(availability)
    {
      input := input + bytes;
    }
  }

  class SerialPortDataHandler {
    const port: SerialPort
    /** The buffer every receive notification reads into. */
    const receiveBuffer: array<byte>
    /** The decode stage shared with the rest of the application. */
    const parser: PythonPacketParser
    /** The number of handlers subscribed to DataReceived. */
    var subscribers: nat
    /** The texts DataReceived was raised with, in order. */
    var published: seq<string>
    /** Every byte the receive handler has taken from the port, in order. */
    ghost var drained: seq<byte>

    ghost predicate Valid()
      reads this
    {
      receiveBuffer.Length == ReceiveBufferSize
    }

    /** Creates the port and the receive buffer and configures COM1 at
        115200 baud, 8 data bits, one stop bit, no parity, no flow control. */
    constructor (parser: PythonPacketParser)
      ensures Valid() && fresh(port) && fresh(receiveBuffer)
      ensures port.Settings() == PortSettings("COM1", 115200, 8, Parity.None, StopBits.One, FlowControl.None, 2048)
      ensures !port.isOpen && port.input == [] && port.output == [] && port.availability == Free
      ensures this.parser == parser
      ensures subscribers == 0 && published == [] && drained == []
    {
      this.parser := parser;
      port := new SerialPort();
      receiveBuffer := new byte[ReceiveBufferSize](_ => 0);
      subscribers := 0;
      published := [];
      drained := [];
      new;
      SetDeviceName("COM1");
      SetBaud(115200);
      SetDataBits(8);
      SetStopBits(StopBits.One);
      SetParity(Parity.None);
      SetFlowControl(FlowControl.None);
    }

    /** The BaudRate getter, read from the port's live settings. */
    function GetBaud(): (v: int)
      reads port
      ensures v == port.Settings().baudRate
    {
      port.baudRate
    }

    /** The DataBits getter, read from the port's live settings. */
    function GetDataBits(): (v: int)
      reads port
      ensures v == port.Settings().dataBits
    {
      port.dataBits
    }

    /** The Parity getter, read from the port's live settings. */
    function GetParity(): (v: Parity)
      reads port
      ensures v == port.Settings().parity
    {
      port.parity
    }

    /** The StopBits getter, read from the port's live settings. */
    function GetStopBits(): (v: StopBits)
      reads port
      ensures v == port.Settings().stopBits
    {
      port.stopBits
    }

    /** The FlowControl getter: the port's handshake, read from the port's live settings. */
    function GetFlowControl(): (v: FlowControl)
      reads port
      ensures v == port.Settings().handshake
    {
      port.handshake
    }

    /** The DeviceName getter, which is also the FriendlyName: the port's name. */
    function GetDeviceName(): (name: string)
      reads port
      ensures name == port.Settings().portName
    {
      port.portName
    }

    /** The PortState getter: never Error. */
    function GetPortState(): (s: PortState)
      reads port
      ensures s == Open <==> port.isOpen
      ensures s == Closed <==> !port.isOpen
    {
      if port.isOpen then Open else Closed
    }

    method SetBaud(value: int)
      modifies port
      ensures GetBaud() == value
      ensures port.Settings() == old(port.Settings()).(baudRate := value)
      ensures port.isOpen == old(port.isOpen) && port.input == old(port.input) && port.output == old(port.output)
      ensures port.availability == old(port.availability)
    {
      port.baudRate := value;
    }

    method SetDataBits(value: int)
      modifies port
      ensures GetDataBits() == value
      ensures port.Settings() == old(port.Settings()).(dataBits := value)
      ensures port.isOpen == old(port.isOpen) && port.input == old(port.input) && port.output == old(port.output)
      ensures port.availability == old(port.availability)
    {
      port.dataBits := value;
    }

    method SetParity(value: Parity)
      modifies port
      ensures GetParity() == value
      ensures port.Settings() == old(port.Settings()).(parity := value)
      ensures port.isOpen == old(port.isOpen) && port.input == old(port.input) && port.output == old(port.output)
      ensures port.availability == old(port.availability)
    {
      port.parity := value;
    }

    method SetStopBits(value: StopBits)
      modifies port
      ensures GetStopBits() == value
      ensures port.Settings() == old(port.Settings()).(stopBits := value)
      ensures port.isOpen == old(port.isOpen) && port.input == old(port.input) && port.output == old(port.output)
      ensures port.availability == old(port.availability)
    {
      port.stopBits := value;
    }

    method SetFlowControl(value: FlowControl)
      modifies port
      ensures GetFlowControl() == value
      ensures port.Settings() == old(port.Settings()).(handshake := value)
      ensures port.isOpen == old(port.isOpen) && port.input == old(port.input) && port.output == old(port.output)
      ensures port.availability == old(port.availability)
    {
      port.handshake := value;
    }

    /** The PortState setter: Open opens the port and lets its failure
        through; any other value closes it. */
    method SetPortState(value: PortState) returns (r: Outcome<SerialError>)
      modifies port
      ensures port.Settings() == old(port.Settings()) && port.input == old(port.input) && port.output == old(port.output)
      ensures port.availability == old(port.availability)
      ensures value == Open && old(port.isOpen) ==> r == Fail(PortAlreadyOpen) && port.isOpen
      ensures value == Open && !old(port.isOpen) ==> match port.availability
        case Free => r == Pass && port.isOpen
        case HeldElsewhere => r == Fail(UnauthorizedAccess) && !port.isOpen
        case Missing => r == Fail(PortIoFailure) && !port.isOpen
      ensures value != Open ==> r == Pass && !port.isOpen
    {
      if value == Open {
        r := port.Open();
      } else {
        port.Close();
        r := Pass;
      }
    }

    /** The DeviceName setter: an open port is closed first, then renamed. */
    method SetDeviceName(value: string)
      modifies port
      ensures GetDeviceName() == value && !port.isOpen
      ensures port.Settings() == old(port.Settings()).(portName := value)
      ensures port.input == old(port.input) && port.output == old(port.output)
      ensures port.availability == old(port.availability)
    {
      if port.isOpen {
        var _ := SetPortState(Closed);
      }
      port.portName := value;
    }

    /** Write(byte[]): hands the port at most its write-buffer size of the
        data, from the start, and returns how much that was. */
    method Write(data: seq<byte>) returns (r: Result<nat, SerialError>)
      modifies port
      ensures port.isOpen == old(port.isOpen) && port.Settings() == old(port.Settings())
      ensures port.input == old(port.input) && port.availability == old(port.availability)
      ensures port.isOpen ==>
        && r == Ok(WriteLength(|data|, port.writeBufferSize))
        && port.output == old(port.output) + data[..r.value]
      ensures !port.isOpen ==> r == Err(PortNotOpen) && port.output == old(port.output)
    {
      var length := |data|;
      if length > port.writeBufferSize {
        length := port.writeBufferSize;
      }
      var written := port.Write(data[..length]);
      if written.Fail? {
        return Err(written.error);
      }
      r := Ok(length);
    }

    /** Write(byte): one byte, without the write-buffer cap. */
    method WriteByte(b: byte) returns (r: Result<nat, SerialError>)
      modifies port
      ensures port.isOpen == old(port.isOpen) && port.Settings() == old(port.Settings())
      ensures port.input == old(port.input) && port.availability == old(port.availability)
      ensures port.isOpen ==> r == Ok(1) && port.output == old(port.output) + [b]
      ensures !port.isOpen ==> r == Err(PortNotOpen) && port.output == old(port.output)
    {
      var written := port.Write([b]);
      if written.Fail? {
        return Err(written.error);
      }
      r := Ok(1);
    }

    /** Write(char): one character, in the port's encoding. */
    method WriteChar(c: char) returns (r: Result<nat, SerialError>)
      modifies port
      ensures port.isOpen == old(port.isOpen) && port.Settings() == old(port.Settings())
      ensures port.input == old(port.input) && port.availability == old(port.availability)
      ensures port.isOpen ==> r == Ok(1) && port.output == old(port.output) + AsciiEncode([c])
      ensures !port.isOpen ==> r == Err(PortNotOpen) && port.output == old(port.output)
    {
      var written := port.Write(AsciiEncode([c]));
      if written.Fail? {
        return Err(written.error);
      }
      r := Ok(1);
    }

    /** Write(string): the string and a line terminator, uncapped; the
        result is the string's length in UTF-16 code units, one less than
        the bytes sent. */
    method WriteString(data: string) returns (r: Result<nat, SerialError>)
      modifies port
      ensures port.isOpen == old(port.isOpen) && port.Settings() == old(port.Settings())
      ensures port.input == old(port.input) && port.availability == old(port.availability)
      ensures port.isOpen ==>
        && r == Ok(Utf16Length(data))
        && port.output == old(port.output) + AsciiEncode(data) + AsciiEncode(PortNewLine)
        && |port.output| == |old(port.output)| + r.value + 1
      ensures !port.isOpen ==> r == Err(PortNotOpen) && port.output == old(port.output)
    {
      AsciiEncodeAppend(data, PortNewLine);
      var written := port.Write(AsciiEncode(data + PortNewLine));
      if written.Fail? {
        return Err(written.error);
      }
      r := Ok(Utf16Length(data));
    }

    /** The receive handler. It first logs the number of queued bytes; when
        the Info level is enabled (`infoLogEnabled`) that reads BytesToRead,
        which throws on a closed port. Otherwise, on an open port with bytes
        queued it drains at most 1024 of them into the receive buffer, and
        when anyone subscribes publishes the decoding of a fresh copy of
        exactly those bytes. */
    method PortOnDataReceived(infoLogEnabled: bool) returns (r: Outcome<SerialError>)
      requires Valid()
      modifies this, port, receiveBuffer
      ensures Valid() && subscribers == old(subscribers)
      ensures port.isOpen == old(port.isOpen) && port.Settings() == old(port.Settings())
      ensures port.output == old(port.output) && port.availability == old(port.availability)
      ensures r == if !old(port.isOpen) && infoLogEnabled then Fail(PortNotOpen) else Pass
      ensures !old(port.isOpen) || old(port.input) == [] ==>
        && port.input == old(port.input)
        && drained == old(drained)
        && published == old(published)
        && receiveBuffer[..] == old(receiveBuffer[..])
      ensures old(port.isOpen) && old(port.input) != [] ==>
        var packet := Packets(old(port.input))[0];
        && packet == old(port.input)[..ReceiveCount(|old(port.input)|)]
        && port.input == old(port.input)[|packet|..]
        && Packets(port.input) == Packets(old(port.input))[1..]
        && drained == old(drained) + packet
        && receiveBuffer[..|packet|] == packet
        && receiveBuffer[|packet|..] == old(receiveBuffer[|packet|..])
        && published == old(published) + (if subscribers == 0 then [] else [parser.InterpretPacket(packet)])
    {
      if infoLogEnabled && !port.isOpen {
        return Fail(PortNotOpen);
      }
      r := Pass;
      if !port.isOpen {
        return;
      }
      var count := |port.input|;
      if count == 0 {
        return;
      }
      if count > ReceiveBufferSize {
        count := ReceiveBufferSize;
      }
      ghost var queued := port.input;
      port.Read(receiveBuffer, count);
      drained := drained + queued[..count];
      if subscribers > 0 {
        var actualData := new byte[count](i requires 0 <= i < count reads receiveBuffer => receiveBuffer[i]);
        assert actualData[..] == queued[..count];
        var packet := parser.InterpretPacket(actualData[..]);
        published := published + [packet];
      }
    }

    /** DataReceived += handler. */
    method SubscribeDataReceived()
      modifies this
      ensures subscribers == old(subscribers) + 1
      ensures published == old(published) && drained == old(drained)
    {
      subscribers := subscribers + 1;
    }

    /** DataReceived -= handler; removing a handler that is not there does nothing. */
    method UnsubscribeDataReceived()
      modifies this
      ensures subscribers == if old(subscribers) == 0 then 0 else old(subscribers) - 1
      ensures published == old(published) && drained == old(drained)
    {
      if subscribers > 0 {
        subscribers := subscribers - 1;
      }
    }
  }
}
