/** The pure part of the HID device handler: the USB ids encoded in a
    device's friendly name, device selection, the reported port state, the
    effect of opening and closing on a device, and the outgoing report. */
module HidSelection {
  import opened Interface
  import opened Wrappers

  // ---------------------------------------------------------------------
  // Hexadecimal digits

  predicate IsHexDigit(c: char) {
    '0' <= c <= '9' || 'a' <= c <= 'f' || 'A' <= c <= 'F'
  }

  predicate AllHex(s: string) {
    forall i :: 0 <= i < |s| ==> IsHexDigit(s[i])
  }

  /** The value of a hex digit of either case. */
  function DigitValue(c: char): (d: nat)
    requires IsHexDigit(c)
    ensures d < 16
  {
    if c <= '9' then c as int - '0' as int
    else if 'a' <= c then c as int - 'a' as int + 10
    else c as int - 'A' as int + 10
  }

  /** The upper-case digit the "X" number format writes for d. */
  function UpperDigit(d: nat): (c: char)
    requires d < 16
    ensures IsHexDigit(c) && DigitValue(c) == d
    ensures !('a' <= c <= 'f')
  {
    if d < 10 then ('0' as int + d) as char else ('A' as int + d - 10) as char
  }

  predicate AllNul(s: string) {
    forall i :: 0 <= i < |s| ==> s[i] == '\0'
  }

  /** The length of the run of hex digits that starts s. */
  function HexRun(s: string): (n: nat)
    ensures n <= |s| && AllHex(s[..n])
    ensures n < |s| ==> !IsHexDigit(s[n])
  {
    if s == [] || !IsHexDigit(s[0]) then 0
    else
      var m := HexRun(s[1..]);
      assert s[..1 + m] == [s[0]] + s[1..][..m];
      1 + m
  }

  /** The run is the only prefix of hex digits followed by a non-digit or the end. */
  lemma {:induction false} HexRunUnique(s: string, n: nat)
    requires n <= |s| && AllHex(s[..n])
    requires n < |s| ==> !IsHexDigit(s[n])
    ensures HexRun(s) == n
  {
    if n > 0 {
      assert s[..n][0] == s[0];
      assert s[1..][..n - 1] == s[..n][1..];
      HexRunUnique(s[1..], n - 1);
    }
  }

  /** A string of hex digits is all run. */
  lemma AllHexRun(s: string)
    ensures AllHex(s) ==> HexRun(s) == |s|
  {
    if AllHex(s) {
      assert s[..|s|] == s;
      HexRunUnique(s, |s|);
    }
  }

  /** The text `int.Parse` accepts with AllowHexSpecifier alone: at least
      one hex digit of either case, then nothing but NUL characters (the
      framework ignores trailing NULs); no sign, prefix or white space. */
  predicate HexNumber(s: string) {
    HexRun(s) > 0 && AllNul(s[HexRun(s)..])
  }

  function Pow16(n: nat): (p: nat)
    ensures p > 0
  {
    if n == 0 then 1 else 16 * Pow16(n - 1)
  }

  /** The value of hex digits, most significant first. */
  function HexValue(s: string): (v: nat)
    requires AllHex(s)
    ensures v < Pow16(|s|)
  {
    if s == [] then 0
    else
      var high := HexValue(s[..|s| - 1]);
      assert high <= Pow16(|s| - 1) - 1;
      assert high * 16 <= (Pow16(|s| - 1) - 1) * 16;
      high * 16 + DigitValue(s[|s| - 1])
  }

  /** Four digits are worth their Horner sum. */
  lemma HexValue4(s: string)
    requires |s| == 4 && AllHex(s)
    ensures HexValue(s) == ((DigitValue(s[0]) * 16 + DigitValue(s[1])) * 16 + DigitValue(s[2])) * 16 + DigitValue(s[3])
  {
    var a, b, c, d := DigitValue(s[0]), DigitValue(s[1]), DigitValue(s[2]), DigitValue(s[3]);
    assert s[..3][..2] == s[..2] && s[..2][..1] == s[..1] && s[..1][..0] == [];
    assert HexValue(s[..1]) == a;
    assert HexValue(s[..2]) == a * 16 + b;
    assert HexValue(s[..3]) == (a * 16 + b) * 16 + c;
  }

  /** Digits of equal value, position by position, are worth the same. */
  lemma {:induction false} HexValueAlike(s: string, t: string)
    requires |s| == |t| && AllHex(s) && AllHex(t)
    requires forall i :: 0 <= i < |s| ==> DigitValue(s[i]) == DigitValue(t[i])
    ensures HexValue(s) == HexValue(t)
  {
    if s != [] {
      HexValueAlike(s[..|s| - 1], t[..|t| - 1]);
    }
  }

  /** `int.Parse(s, NumberStyles.AllowHexSpecifier)` for a four-character s. */
  function ParseHex4(s: string): (r: Option<uint16>)
    requires |s| == 4
    ensures r.Some? <==> HexNumber(s)
    ensures r.Some? ==> r.value == HexValue(s[..HexRun(s)])
    ensures AllHex(s) ==> r.Some? && r.value == HexValue(s)
  {
    AllHexRun(s);
    assert s[..4] == s;
    var n := HexRun(s);
    if n > 0 && AllNul(s[n..]) then
      assert Pow16(n) <= Pow16(4) by {
        if n < 4 { assert Pow16(n + 1) == 16 * Pow16(n); }
        if n < 3 { assert Pow16(n + 2) == 16 * Pow16(n + 1); }
        if n < 2 { assert Pow16(n + 3) == 16 * Pow16(n + 2); }
      }
      Some(HexValue(s[..n]))
    else None
  }

  /** Trailing NULs are ignored: "04" padded with two NULs is the id 0x0004. */
  lemma TrailingNulsIgnored()
    ensures ParseHex4("04\0\0") == Some(4)
  {
    var s := "04\0\0";
    HexRunUnique(s, 2);
    assert s[..2] == "04" && "04"[..1] == "0" && "0"[..0] == [];
  }

  /** `v.ToString("X4")`: four upper-case hex digits, most significant first. */
  function FormatHex4(v: uint16): (s: string)
    ensures |s| == 4 && AllHex(s)
  {
    var q1 := v / 16;
    var q2 := q1 / 16;
    [UpperDigit(q2 / 16), UpperDigit(q2 % 16), UpperDigit(q1 % 16), UpperDigit(v % 16)]
  }

  /** Upper-case hex text, as the "X" format writes it. */
  predicate IsUpperHex(s: string) {
    AllHex(s) && forall i :: 0 <= i < |s| ==> !('a' <= s[i] <= 'f')
  }

  lemma ParseFormatHex4(v: uint16)
    ensures ParseHex4(FormatHex4(v)) == Some(v)
  {
    var s := FormatHex4(v);
    var q1 := v / 16;
    var q2 := q1 / 16;
    HexValue4(s);
    assert DigitValue(s[0]) == q2 / 16 && DigitValue(s[1]) == q2 % 16;
    assert DigitValue(s[2]) == q1 % 16 && DigitValue(s[3]) == v % 16;
    assert q2 / 16 * 16 + q2 % 16 == q2;
    assert q2 * 16 + q1 % 16 == q1;
    assert q1 * 16 + v % 16 == v;
  }

  lemma FormatParseHex4(s: string)
    requires |s| == 4 && IsUpperHex(s)
    ensures ParseHex4(s).Some? && FormatHex4(ParseHex4(s).value) == s
  {
    var a, b, c, d := DigitValue(s[0]), DigitValue(s[1]), DigitValue(s[2]), DigitValue(s[3]);
    var v := ParseHex4(s).value;
    HexValue4(s);
    assert v == ((a * 16 + b) * 16 + c) * 16 + d;
    assert v / 16 == (a * 16 + b) * 16 + c && v % 16 == d;
    assert v / 16 / 16 == a * 16 + b && v / 16 % 16 == c;
    assert v / 16 / 16 / 16 == a && v / 16 / 16 % 16 == b;
    forall i | 0 <= i < 4 ensures UpperDigit(DigitValue(s[i])) == s[i] {
      UpperDigitOfValue(s[i]);
    }
  }

  lemma UpperDigitOfValue(c: char)
    requires IsHexDigit(c) && !('a' <= c <= 'f')
    ensures UpperDigit(DigitValue(c)) == c
  {
  }

  /** Upper and lower case digits parse alike. */
  function LowerCase(s: string): (r: string)
    ensures |r| == |s|
  {
    seq(|s|, i requires 0 <= i < |s| => if 'A' <= s[i] <= 'F' then (s[i] as int + 32) as char else s[i])
  }

  lemma ParseHex4IgnoresCase(s: string)
    requires |s| == 4
    ensures ParseHex4(LowerCase(s)) == ParseHex4(s)
  {
    var t := LowerCase(s);
    forall i | 0 <= i < 4
      ensures IsHexDigit(t[i]) == IsHexDigit(s[i]) && (t[i] == '\0') == (s[i] == '\0')
      ensures IsHexDigit(s[i]) ==> DigitValue(t[i]) == DigitValue(s[i])
    {
    }
    var n := HexRun(s);
    assert forall i :: 0 <= i < n ==> s[..n][i] == s[i] && t[..n][i] == t[i];
    HexRunUnique(t, n);
    HexValueAlike(s[..n], t[..n]);
  }

  // ---------------------------------------------------------------------
  // Devices and their friendly names

  /** A HID device as the handler sees it. `reportLength` is the length of
      the data of a report the device creates for writing; `removedHandlers`
      counts the subscriptions to its Removed event. */
  datatype HidDevice = HidDevice(
    devicePath: string,
    description: string,
    vendorId: uint16,
    productId: uint16,
    reportLength: nat,
    isOpen: bool,
    monitorDeviceEvents: bool,
    removedHandlers: nat)

  datatype UsbIds = UsbIds(vendor: uint16, product: uint16)

  function IdsOf(d: HidDevice): (ids: UsbIds) {
    UsbIds(d.vendorId, d.productId)
  }

  /** The device attributes' VendorHexId and ProductHexId: "0x" and four
      upper-case digits. */
  function HexId(v: uint16): (s: string)
    ensures |s| == 6 && s[..2] == "0x" && s[2..] == FormatHex4(v)
  {
    "0x" + FormatHex4(v)
  }

  /** "{vendor hex id}, {product hex id}: {description}". */
  function FriendlyNameOf(d: HidDevice): (s: string)
    ensures |s| == 16 + |d.description|
    ensures s[..2] == "0x" && s[6..10] == ", 0x" && s[14..16] == ": "
    ensures s[2..6] == FormatHex4(d.vendorId) && s[10..14] == FormatHex4(d.productId)
    ensures s[16..] == d.description
  {
    HexId(d.vendorId) + ", " + HexId(d.productId) + ": " + d.description
  }

  /** GetFriendlyName: the empty string for no device. */
  function GetFriendlyName(device: Option<HidDevice>): (s: string)
    ensures device.None? <==> s == ""
    ensures device.Some? ==> s == FriendlyNameOf(device.value)
  {
    match device
    case None => ""
    case Some(d) => FriendlyNameOf(d)
  }

  /** The handler's FriendlyName property, as a function of the selection;
      `HidDataHandler.FriendlyName` is the getter that applies it. */
  function HandlerFriendlyName(device: Option<HidDevice>): (s: string)
    ensures |s| >= 5 && s[..5] == "HID: " && s[5..] == GetFriendlyName(device)
    ensures device.None? ==> s == "HID: "
  {
    "HID: " + GetFriendlyName(device)
  }

  /** ListAvailableDevices: the friendly name of every enumerated device, in order. */
  function ListAvailableDevices(connected: seq<HidDevice>): (names: seq<string>)
    ensures |names| == |connected|
    ensures forall i :: 0 <= i < |connected| ==> names[i] == FriendlyNameOf(connected[i])
  {
    seq(|connected|, i requires 0 <= i < |connected| => FriendlyNameOf(connected[i]))
  }

  /** The handler's Devices property: each enumerated device's description. */
  function DeviceDescriptions(connected: seq<HidDevice>): (names: seq<string>)
    ensures |names| == |connected|
    ensures forall i :: 0 <= i < |connected| ==> names[i] == connected[i].description
  {
    seq(|connected|, i requires 0 <= i < |connected| => connected[i].description)
  }

  // ---------------------------------------------------------------------
  // Reading the ids back from a friendly name

  /** The exception `Substring` or `int.Parse` throws. */
  datatype ParseError = ArgumentOutOfRange | Format

  /** The vendor id is the four characters at offsets 2 to 5, the product
      id the four at offsets 10 to 13; each `Substring` throws when the string
      is too short and each `int.Parse` when a character is not a hex digit,
      in that order. */
  function ParseUsbIds(description: string): (r: Result<UsbIds, ParseError>)
    ensures r.Ok? <==> |description| >= 14 && HexNumber(description[2..6]) && HexNumber(description[10..14])
    ensures r.Ok? ==>
      && ParseHex4(description[2..6]) == Some(r.value.vendor)
      && ParseHex4(description[10..14]) == Some(r.value.product)
    ensures r == Err(ArgumentOutOfRange) <==>
      |description| < 6 || (HexNumber(description[2..6]) && |description| < 14)
  {
    if |description| < 6 then Err(ArgumentOutOfRange)
    else
      match ParseHex4(description[2..6])
      case None => Err(Format)
      case Some(vendor) =>
        if |description| < 14 then Err(ArgumentOutOfRange)
        else
          match ParseHex4(description[10..14])
          case None => Err(Format)
          case Some(product) => Ok(UsbIds(vendor, product))
  }

  /** A vendor field padded with NULs still names its id. */
  lemma PaddedVendorIdAccepted()
    ensures ParseUsbIds("0x04\0\0, 0xF745: x") == Ok(UsbIds(0x0004, 0xF745))
  {
    var s := "0x04\0\0, 0xF745: x";
    assert s[2..6] == "04\0\0";
    TrailingNulsIgnored();
    assert s[10..14] == "F745";
    HexValue4("F745");
  }

  /** Only the eight digit positions matter: the "0x" prefixes, the
      separator and everything after offset 14 are never looked at. */
  lemma ParseUsbIdsReadsOnlyDigits(s: string, t: string)
    requires |s| >= 14 && |t| >= 14
    requires s[2..6] == t[2..6] && s[10..14] == t[10..14]
    ensures ParseUsbIds(s) == ParseUsbIds(t)
  {
  }

  /** Parsing a device's friendly name gives back its vendor and product ids. */
  lemma FriendlyNameRoundTrip(d: HidDevice)
    ensures ParseUsbIds(FriendlyNameOf(d)) == Ok(IdsOf(d))
  {
    var s := FriendlyNameOf(d);
    ParseFormatHex4(d.vendorId);
    ParseFormatHex4(d.productId);
    assert ParseHex4(s[2..6]) == Some(d.vendorId);
    assert ParseHex4(s[10..14]) == Some(d.productId);
  }

  /** The other direction: a string whose digit fields are upper-case hex is
      a friendly name with the parsed ids wherever the prefixes and the
      separator are in their places. */
  lemma ParsedIdsFormatBack(s: string)
    requires |s| >= 16 && s[..2] == "0x" && s[6..10] == ", 0x" && s[14..16] == ": "
    requires IsUpperHex(s[2..6]) && IsUpperHex(s[10..14])
    ensures ParseUsbIds(s).Ok?
    ensures var ids := ParseUsbIds(s).value;
      s == FriendlyNameOf(HidDevice("", s[16..], ids.vendor, ids.product, 0, false, false, 0))
  {
    FormatParseHex4(s[2..6]);
    FormatParseHex4(s[10..14]);
    var ids := ParseUsbIds(s).value;
    var t := FriendlyNameOf(HidDevice("", s[16..], ids.vendor, ids.product, 0, false, false, 0));
    assert s[2..6] == t[2..6] && s[10..14] == t[10..14];
    assert |s| == |t|;
    forall i | 0 <= i < |s| ensures s[i] == t[i] {
      if 2 <= i < 6 {
        assert s[i] == s[2..6][i - 2];
        assert t[i] == t[2..6][i - 2];
      } else if 10 <= i < 14 {
        assert s[i] == s[10..14][i - 10];
        assert t[i] == t[10..14][i - 10];
      } else if i < 2 {
        assert s[i] == s[..2][i];
      } else if i < 10 {
        assert s[i] == s[6..10][i - 6];
      } else if i < 16 {
        assert s[i] == s[14..16][i - 14];
      } else {
        assert s[i] == s[16..][i - 16];
        assert t[i] == t[16..][i - 16];
      }
    }
  }

  // ---------------------------------------------------------------------
  // Device selection

  /** `HidDevices.Enumerate(vendor, product)`: the connected devices with
      those ids, in enumeration order. */
  function Matching(connected: seq<HidDevice>, ids: UsbIds): (r: seq<HidDevice>)
    ensures |r| <= |connected|
    ensures forall d :: d in r <==> d in connected && IdsOf(d) == ids
  {
    if connected == [] then []
    else if IdsOf(connected[0]) == ids then [connected[0]] + Matching(connected[1..], ids)
    else Matching(connected[1..], ids)
  }

  /** `FirstOrDefault(x => x.IsOpen == false)`, as an index. */
  function FirstIdle(devices: seq<HidDevice>): (r: Option<nat>)
    ensures r.None? <==> forall i :: 0 <= i < |devices| ==> devices[i].isOpen
    ensures r.Some? ==>
      && r.value < |devices|
      && !devices[r.value].isOpen
      && forall j :: 0 <= j < r.value ==> devices[j].isOpen
  {
    if devices == [] then None
    else if !devices[0].isOpen then Some(0)
    else
      match FirstIdle(devices[1..])
      case None => None
      case Some(k) => Some(k + 1)
  }

  predicate Selectable(d: HidDevice, ids: UsbIds) {
    IdsOf(d) == ids && !d.isOpen
  }

  /** The first connected device, in enumeration order, that has the ids and is not open. */
  function FirstSelectable(connected: seq<HidDevice>, ids: UsbIds): (r: Option<nat>)
    ensures r.None? <==> forall i :: 0 <= i < |connected| ==> !Selectable(connected[i], ids)
    ensures r.Some? ==>
      && r.value < |connected|
      && Selectable(connected[r.value], ids)
      && forall j :: 0 <= j < r.value ==> !Selectable(connected[j], ids)
  {
    if connected == [] then None
    else if Selectable(connected[0], ids) then Some(0)
    else
      match FirstSelectable(connected[1..], ids)
      case None => None
      case Some(k) => Some(k + 1)
  }

  /** Filtering by ids and then taking the first idle device picks the
      first connected device that has the ids and is idle. */
  lemma {:induction false} FirstIdleOfMatching(connected: seq<HidDevice>, ids: UsbIds)
    ensures FirstIdle(Matching(connected, ids)).None? <==> FirstSelectable(connected, ids).None?
    ensures FirstIdle(Matching(connected, ids)).Some? ==>
      Matching(connected, ids)[FirstIdle(Matching(connected, ids)).value]
        == connected[FirstSelectable(connected, ids).value]
  {
    if connected != [] {
      FirstIdleOfMatching(connected[1..], ids);
      if IdsOf(connected[0]) == ids {
        var m := Matching(connected, ids);
        assert m == [connected[0]] + Matching(connected[1..], ids);
        assert m[1..] == Matching(connected[1..], ids);
      }
    }
  }

  /** The device the DeviceName setter selects: an error when the name does
      not parse, otherwise the first idle device with the parsed ids, if any. */
  function SelectDevice(name: string, connected: seq<HidDevice>): (r: Result<Option<HidDevice>, ParseError>)
    ensures ParseUsbIds(name).Err? <==> r.Err?
    ensures r.Err? ==> r.error == ParseUsbIds(name).error
    ensures r.Ok? && r.value.Some? ==>
      && IdsOf(r.value.value) == ParseUsbIds(name).value
      && !r.value.value.isOpen
      && r.value.value in connected
      && FirstSelectable(connected, ParseUsbIds(name).value).Some?
      && r.value.value == connected[FirstSelectable(connected, ParseUsbIds(name).value).value]
    ensures r.Ok? ==> (r.value.None? <==> forall i :: 0 <= i < |connected| ==> !Selectable(connected[i], ParseUsbIds(name).value))
  {
    match ParseUsbIds(name)
    case Err(e) => Err(e)
    case Ok(ids) =>
      var m := Matching(connected, ids);
      FirstIdleOfMatching(connected, ids);
      match FirstIdle(m)
      case None => Ok(None)
      case Some(k) => assert m[k] in m; Ok(Some(m[k]))
  }

  /** Selecting a listed name picks the first idle device with the listed
      device's ids; when the listed device itself is idle there is one, and
      no idle device with those ids comes before it. */
  lemma SelectListedDevice(connected: seq<HidDevice>, k: nat)
    requires k < |connected| && !connected[k].isOpen
    ensures var r := SelectDevice(ListAvailableDevices(connected)[k], connected);
      && r.Ok? && r.value.Some?
      && IdsOf(r.value.value) == IdsOf(connected[k])
      && !r.value.value.isOpen
      && r.value.value == connected[FirstSelectable(connected, IdsOf(connected[k])).value]
      && FirstSelectable(connected, IdsOf(connected[k])).value <= k
  {
    var name := ListAvailableDevices(connected)[k];
    var ids := IdsOf(connected[k]);
    FriendlyNameRoundTrip(connected[k]);
    assert ParseUsbIds(name) == Ok(ids);
    assert Selectable(connected[k], ids);
    FirstIdleOfMatching(connected, ids);
  }

  // ---------------------------------------------------------------------
  // Port state, opening and closing

  /** The PortState getter as a function of the selection: Error without a
      device, otherwise whether the device is open. `HidDataHandler.GetPortState`
      is the getter that applies it. */
  function PortStateOf(device: Option<HidDevice>): (s: PortState)
    ensures s == Error <==> device.None?
    ensures s == Open <==> device.Some? && device.value.isOpen
    ensures s == Closed <==> device.Some? && !device.value.isOpen
  {
    match device
    case None => Error
    case Some(d) => if d.isOpen then Open else Closed
  }

  /** OpenDevice, MonitorDeviceEvents = true, Removed += handler: the same
      device, now open, monitored and with one more removal subscription. */
  function AfterOpen(d: HidDevice): (o: HidDevice)
    ensures PortStateOf(Some(o)) == Open && o.monitorDeviceEvents
    ensures o.removedHandlers == d.removedHandlers + 1
    ensures o.devicePath == d.devicePath && o.description == d.description
    ensures IdsOf(o) == IdsOf(d) && o.reportLength == d.reportLength
  {
    d.(isOpen := true, monitorDeviceEvents := true, removedHandlers := d.removedHandlers + 1)
  }

  /** CloseDevice, MonitorDeviceEvents = false, Removed -= handler (a no-op
      when none is attached): the same device, now closed and unmonitored. */
  function AfterClose(d: HidDevice): (c: HidDevice)
    ensures PortStateOf(Some(c)) == Closed && !c.monitorDeviceEvents
    ensures c.removedHandlers == if d.removedHandlers == 0 then 0 else d.removedHandlers - 1
    ensures c.devicePath == d.devicePath && c.description == d.description
    ensures IdsOf(c) == IdsOf(d) && c.reportLength == d.reportLength
  {
    d.(isOpen := false, monitorDeviceEvents := false,
       removedHandlers := if d.removedHandlers == 0 then 0 else d.removedHandlers - 1)
  }

  /** Closing undoes opening: the device is closed, no longer monitored,
      and has the removal subscriptions it had before. */
  lemma CloseUndoesOpen(d: HidDevice)
    ensures AfterClose(AfterOpen(d)) == d.(isOpen := false, monitorDeviceEvents := false)
    ensures !d.isOpen && !d.monitorDeviceEvents ==> AfterClose(AfterOpen(d)) == d
  {
  }

  // ---------------------------------------------------------------------
  // Outgoing reports

  function Zeros(n: nat): (z: seq<byte>)
    ensures |z| == n && forall i :: 0 <= i < n ==> z[i] == 0
  {
    seq(n, _ => 0)
  }

  /** Whether Write gets through the copy loop: it never enters it for a
      report of length 0, and otherwise every byte needs a position. */
  predicate ReportFits(data: seq<byte>, reportLength: nat) {
    reportLength == 0 || |data| <= reportLength
  }

  /** The report Write sends: the data left-aligned, the rest as created (zero). */
  function FilledReport(data: seq<byte>, reportLength: nat): (report: seq<byte>)
    requires ReportFits(data, reportLength)
    ensures |report| == reportLength
    ensures reportLength > 0 ==> report[..|data|] == data
    ensures forall i :: 0 <= i < reportLength && (reportLength == 0 || i >= |data|) ==> report[i] == 0
  {
    if reportLength == 0 then [] else data + Zeros(reportLength - |data|)
  }

  /** `(byte)c` in an unchecked context: the low eight bits of the code. */
  function CharToByte(c: char): (b: byte)
    ensures (c as int) < 0x100 ==> b == c as int
    ensures (b - c as int) % 0x100 == 0
  {
    c as int % 0x100
  }
}
