/** Value types shared by both device handlers (the terminal's device contract). */
module Interface {

  /** C#'s `byte`. */
  type byte = b: int | 0 <= b < 0x100

  /** A 16-bit unsigned field, such as idVendor and idProduct of a USB device
      descriptor (section 9.6.1 of the USB 2.0 specification). */
  type uint16 = v: int | 0 <= v < 0x1_0000

  /** The connection state a handler reports for its device. */
  datatype PortState = Open | Closed | Error
}
