/** Value types shared by the serial session and the main window: the byte and
    integer widths of the C++ source and the line-setting enumerations of
    QSerialPort, restricted to the values this program ever hands to it. */
module SerialTypes {

  /** One octet of a QByteArray. */
  newtype byte = x: int | 0 <= x < 0x100

  /** `qint32`, the type of the baud rate and of `QString::toInt()`. */
  newtype int32 = x: int | -0x8000_0000 <= x < 0x8000_0000

  /** QSerialPort::DataBits. */
  datatype DataBits = Data5 | Data6 | Data7 | Data8

  /** QSerialPort::Parity. */
  datatype Parity = NoParity | OddParity | EvenParity | MarkParity | SpaceParity

  /** QSerialPort::StopBits. */
  datatype StopBits = OneStop | OneAndHalfStop | TwoStop

  /** The number of data bits per character that a DataBits value stands for. */
  function BitsPerCharacter(d: DataBits): (n: nat)
    ensures 5 <= n <= 8
  {
    match d
    case Data5 => 5
    case Data6 => 6
    case Data7 => 7
    case Data8 => 8
  }
}
