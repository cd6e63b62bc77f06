/** The main window's part in driving the session: the combo-box index to
    setting mappings, the open/close toggle that applies every setting and
    collects the failures before opening, and the guarded port-change and
    send handlers.

    Widgets are reduced to what reaches the session: the combo boxes give
    their current index (or, for the baud box, `currentText().toInt()`), the
    send box gives its bytes, message boxes are recorded as alerts and the
    transcript as entries without their HTML, timestamps or wording. */
module Window {
  import opened SerialTypes
  import PortCatalog
  import SerialSession

  /** The data-bits combo box: indices 0 to 3 are 5 to 8 bits; anything else
      falls back to 8. */
  function DataBitsFromIndex(index: int): (d: DataBits)
    ensures BitsPerCharacter(d) == if 0 <= index <= 3 then index + 5 else 8
    ensures DataBitsIndex(d) == if 0 <= index <= 3 then index else 3
  {
    match index
    case 0 => Data5
    case 1 => Data6
    case 2 => Data7
    case 3 => Data8
    case _ => Data8
  }

  /** The combo-box entry that shows a DataBits value. */
  function DataBitsIndex(d: DataBits): (index: int)
    ensures 0 <= index <= 3 && BitsPerCharacter(d) == index + 5
  {
    match d
    case Data5 => 0
    case Data6 => 1
    case Data7 => 2
    case Data8 => 3
  }

  /** The parity combo box: none, odd, even, mark, space at indices 0 to 4;
      anything else falls back to none. */
  function ParityFromIndex(index: int): (p: Parity)
    ensures ParityIndex(p) == if 0 <= index <= 4 then index else 0
  {
    match index
    case 0 => NoParity
    case 1 => OddParity
    case 2 => EvenParity
    case 3 => MarkParity
    case 4 => SpaceParity
    case _ => NoParity
  }

  /** The combo-box entry that shows a Parity value. */
  function ParityIndex(p: Parity): (index: int)
    ensures 0 <= index <= 4
  {
    match p
    case NoParity => 0
    case OddParity => 1
    case EvenParity => 2
    case MarkParity => 3
    case SpaceParity => 4
  }

  /** The stop-bits combo box: one, one and a half, two at indices 0 to 2;
      anything else falls back to one. */
  function StopBitsFromIndex(index: int): (s: StopBits)
    ensures StopBitsIndex(s) == if 0 <= index <= 2 then index else 0
  {
    match index
    case 0 => OneStop
    case 1 => OneAndHalfStop
    case 2 => TwoStop
    case _ => OneStop
  }

  /** The combo-box entry that shows a StopBits value. */
  function StopBitsIndex(s: StopBits): (index: int)
    ensures 0 <= index <= 2
  {
    match s
    case OneStop => 0
    case OneAndHalfStop => 1
    case TwoStop => 2
  }

  /** Every setting is shown by exactly one combo-box entry, and choosing that
      entry gives the setting back. */
  lemma IndexMappingsRoundTrip(d: DataBits, p: Parity, s: StopBits)
    ensures DataBitsFromIndex(DataBitsIndex(d)) == d
    ensures ParityFromIndex(ParityIndex(p)) == p
    ensures StopBitsFromIndex(StopBitsIndex(s)) == s
  {
  }

  /** What Qt answers to each of the four setters, when asked. */
  datatype QtVerdicts = QtVerdicts(baudRate: bool, dataBits: bool, parity: bool, stopBits: bool)

  /** One line of the "some settings could not be applied" warning; each
      carries what the combo box showed. */
  datatype ConfigError =
    | BaudRateFailed(rate: int32)
    | DataBitsFailed(index: int)
    | ParityFailed(index: int)
    | StopBitsFailed(index: int)

  /** The position of a setter in the order the window calls them. */
  function SetterRank(e: ConfigError): nat
  {
    match e
    case BaudRateFailed(_) => 0
    case DataBitsFailed(_) => 1
    case ParityFailed(_) => 2
    case StopBitsFailed(_) => 3
  }

  /** One warning line when a setter returned false, none otherwise. */
  function FailureLine(ok: bool, e: ConfigError): seq<ConfigError>
  {
    if ok then [] else [e]
  }

  /** The failures collected while the port is closed: one entry for each
      setter that returns false, in the order baud rate, data bits, parity,
      stop bits. */
  function SetterFailures(rate: int32, dataIndex: int, parityIndex: int, stopIndex: int, qt: QtVerdicts)
    : seq<ConfigError>
  {
    FailureLine(rate > 0 && qt.baudRate, BaudRateFailed(rate))
    + FailureLine(qt.dataBits, DataBitsFailed(dataIndex))
    + FailureLine(qt.parity, ParityFailed(parityIndex))
    + FailureLine(qt.stopBits, StopBitsFailed(stopIndex))
  }

  /** The number of setters that return false while the port is closed. */
  function FailureCount(rate: int32, qt: QtVerdicts): nat
  {
    (if rate > 0 && qt.baudRate then 0 else 1) + (if qt.dataBits then 0 else 1)
    + (if qt.parity then 0 else 1) + (if qt.stopBits then 0 else 1)
  }

  /** The warning has one line per refused setter, so it is empty exactly
      when every setter succeeded. */
  lemma SetterFailuresCount(rate: int32, dataIndex: int, parityIndex: int, stopIndex: int, qt: QtVerdicts)
    ensures |SetterFailures(rate, dataIndex, parityIndex, stopIndex, qt)| == FailureCount(rate, qt)
    ensures SetterFailures(rate, dataIndex, parityIndex, stopIndex, qt) == [] <==>
      rate > 0 && qt.baudRate && qt.dataBits && qt.parity && qt.stopBits
  {
  }

  /** The warning names a setter exactly when that setter was refused. */
  lemma SetterFailuresMembers(rate: int32, dataIndex: int, parityIndex: int, stopIndex: int, qt: QtVerdicts)
    ensures var errors := SetterFailures(rate, dataIndex, parityIndex, stopIndex, qt);
      && (BaudRateFailed(rate) in errors <==> !(rate > 0 && qt.baudRate))
      && (DataBitsFailed(dataIndex) in errors <==> !qt.dataBits)
      && (ParityFailed(parityIndex) in errors <==> !qt.parity)
      && (StopBitsFailed(stopIndex) in errors <==> !qt.stopBits)
  {
  }

  /** The warning lines follow the order in which the setters are called. */
  lemma SetterFailuresOrder(rate: int32, dataIndex: int, parityIndex: int, stopIndex: int, qt: QtVerdicts)
    ensures var errors := SetterFailures(rate, dataIndex, parityIndex, stopIndex, qt);
      forall i, j :: 0 <= i < j < |errors| ==> SetterRank(errors[i]) < SetterRank(errors[j])
  {
  }

  /** A message box the window shows. */
  datatype Alert =
    | SettingsWarning(errors: seq<ConfigError>)
    | OpenFailed
    | PortNameRejected(name: string)

  /** A transcript record. */
  datatype Entry =
    | PortOpened(name: string)
    | Sent(data: seq<byte>)
    | Received(data: seq<byte>)

  class MainWindow {
    /** `m_mySerialPort`. */
    const port: SerialSession.SerialPort
    /** The entries of the port combo box. */
    var portChoices: seq<string>
    var alerts: seq<Alert>
    var transcript: seq<Entry>

    ghost predicate Valid()
      reads this, port
    {
      port.Valid()
    }

    /** The window as it stands after `updatePorts` in the constructor: a
        fresh closed session, the host's ports listed once each, and the
        session's port name set by the combo box selecting its first entry. */
    constructor (host: seq<string>)
      ensures Valid() && fresh(port)
      ensures !port.isOpen && !port.block && port.baudRate == 9600
      ensures port.dataBits == Data8 && port.parity == NoParity && port.stopBits == OneStop
      ensures port.pending == [] && port.written == [] && port.emitted == []
      ensures portChoices == PortCatalog.Dedup(host)
      ensures var names := PortCatalog.Dedup(host);
        && port.portName == (if names != [] && names[0] != "" then names[0] else "")
        && alerts == (if names != [] && names[0] == "" then [PortNameRejected("")] else [])
      ensures transcript == []
    {
      port := new SerialSession.SerialPort();
      portChoices, alerts, transcript := [], [], [];
      new;
      UpdatePorts(host);
    }

    /** `updatePorts`: the combo box is cleared and refilled with the host's
        ports, each once. Both steps change the combo's current text, which
        reaches `on_portComboBox_currentTextChanged`: clearing a non-empty
        box offers the empty name, which the session refuses, and filling an
        empty box selects, and offers, its first entry. While the port is
        open the handler ignores both. */
    method UpdatePorts(host: seq<string>)
      requires Valid()
      modifies this, port
      ensures Valid()
      ensures portChoices == PortCatalog.Dedup(host)
      ensures transcript == old(transcript)
      ensures port.isOpen == old(port.isOpen) && port.baudRate == old(port.baudRate)
      ensures port.dataBits == old(port.dataBits) && port.parity == old(port.parity)
      ensures port.stopBits == old(port.stopBits) && port.block == old(port.block)
      ensures port.pending == old(port.pending) && port.written == old(port.written)
      ensures port.emitted == old(port.emitted)
      ensures old(port.isOpen) ==> port.portName == old(port.portName) && alerts == old(alerts)
      ensures !old(port.isOpen) ==>
        var names := PortCatalog.Dedup(host);
        && port.portName == (if names != [] && names[0] != "" then names[0] else old(port.portName))
        && alerts == old(alerts)
                     + (if old(portChoices) != [] then [PortNameRejected("")] else [])
                     + (if names != [] && names[0] == "" then [PortNameRejected("")] else [])
    {
      if portChoices != [] {
        portChoices := [];
        PortChanged("", host);
      }
      var names := SerialSession.SerialPort.AvailablePorts(host);
      portChoices := names;
      if names != [] {
        PortCatalog.ListedNameFound(host, names[0]);
        PortChanged(names[0], host);
      }
    }

    /** `on_openPortBtn_clicked`. An open port is closed and nothing else is
        tried. A closed port gets all four setters, each whatever the others
        did, with one error per refusal in setter order and a warning when
        there is any; then the open is attempted regardless, and only a
        successful one is recorded in the transcript. */
    method OpenPortClicked(rate: int32, dataIndex: int, parityIndex: int, stopIndex: int,
                           qt: QtVerdicts, deviceOpens: bool)
      returns (errors: seq<ConfigError>)
      requires Valid()
      modifies this, port
      ensures Valid()
      ensures port.portName == old(port.portName) && port.block == old(port.block)
      ensures port.written == old(port.written) && port.emitted == old(port.emitted)
      ensures portChoices == old(portChoices) && port.pending == []
      ensures old(port.isOpen) ==>
        && !port.isOpen && errors == []
        && port.baudRate == old(port.baudRate) && port.dataBits == old(port.dataBits)
        && port.parity == old(port.parity) && port.stopBits == old(port.stopBits)
        && alerts == old(alerts) && transcript == old(transcript)
      ensures !old(port.isOpen) ==>
        && errors == SetterFailures(rate, dataIndex, parityIndex, stopIndex, qt)
        && port.isOpen == deviceOpens
        && port.baudRate == (if rate > 0 && qt.baudRate then rate else old(port.baudRate))
        && port.dataBits == (if qt.dataBits then DataBitsFromIndex(dataIndex) else old(port.dataBits))
        && port.parity == (if qt.parity then ParityFromIndex(parityIndex) else old(port.parity))
        && port.stopBits == (if qt.stopBits then StopBitsFromIndex(stopIndex) else old(port.stopBits))
        && alerts == old(alerts) + (if errors == [] then [] else [SettingsWarning(errors)])
                                 + (if deviceOpens then [] else [OpenFailed])
        && transcript == old(transcript) + (if deviceOpens then [PortOpened(port.portName)] else [])
    {
      errors := [];
      if port.isOpen {
        port.Close();
        return;
      }
      var ok := port.SetBaudRate(rate, qt.baudRate);
      if !ok {
        errors := errors + [BaudRateFailed(rate)];
      }
      ok := port.SetDataBits(DataBitsFromIndex(dataIndex), qt.dataBits);
      if !ok {
        errors := errors + [DataBitsFailed(dataIndex)];
      }
      ok := port.SetParity(ParityFromIndex(parityIndex), qt.parity);
      if !ok {
        errors := errors + [ParityFailed(parityIndex)];
      }
      ok := port.SetStopBits(StopBitsFromIndex(stopIndex), qt.stopBits);
      if !ok {
        errors := errors + [StopBitsFailed(stopIndex)];
      }
      if errors != [] {
        alerts := alerts + [SettingsWarning(errors)];
      }
      ok := port.Open(deviceOpens);
      if !ok {
        alerts := alerts + [OpenFailed];
        return;
      }
      transcript := transcript + [PortOpened(port.portName)];
    }

    /** `on_portComboBox_currentTextChanged`: ignored while the port is open;
        otherwise the name is offered to the session and a refusal is
        reported. */
    method PortChanged(name: string, host: seq<string>)
      requires Valid()
      modifies this, port
      ensures Valid()
      ensures port.isOpen == old(port.isOpen) && port.baudRate == old(port.baudRate)
      ensures port.dataBits == old(port.dataBits) && port.parity == old(port.parity)
      ensures port.stopBits == old(port.stopBits) && port.block == old(port.block)
      ensures port.written == old(port.written) && port.emitted == old(port.emitted)
      ensures port.pending == old(port.pending) && portChoices == old(portChoices)
      ensures transcript == old(transcript)
      ensures old(port.isOpen) ==> port.portName == old(port.portName) && alerts == old(alerts)
      ensures !old(port.isOpen) ==>
        var accepted := name != "" && PortCatalog.ContainsIgnoreCase(host, name);
        && port.portName == (if accepted then name else old(port.portName))
        && alerts == old(alerts) + (if accepted then [] else [PortNameRejected(name)])
    {
      if port.isOpen {
        return;
      }
      var ok := port.SetPortName(name, host);
      if !ok {
        alerts := alerts + [PortNameRejected(name)];
      }
    }

    /** `on_sendBtn_clicked`: nothing happens for an empty text or a closed
        port; otherwise the bytes are written and, when the "show sent data"
        box is ticked, recorded. */
    method SendClicked(text: seq<byte>, showSent: bool)
      requires Valid()
      modifies this, port
      ensures Valid()
      ensures port.isOpen == old(port.isOpen) && port.portName == old(port.portName)
      ensures port.baudRate == old(port.baudRate) && port.dataBits == old(port.dataBits)
      ensures port.parity == old(port.parity) && port.stopBits == old(port.stopBits)
      ensures port.block == old(port.block) && port.emitted == old(port.emitted)
      ensures port.pending == old(port.pending) && portChoices == old(portChoices)
      ensures alerts == old(alerts)
      ensures text == [] || !old(port.isOpen) ==>
        port.written == old(port.written) && transcript == old(transcript)
      ensures text != [] && old(port.isOpen) ==>
        && port.written == old(port.written) + text
        && transcript == old(transcript) + (if showSent then [Sent(text)] else [])
    {
      if text == [] {
        return;
      }
      if port.isOpen {
        port.SendData(text);
        if showSent {
          transcript := transcript + [Sent(text)];
        }
      }
    }

    /** `dataReceived`: each batch the session emits is recorded. */
    method DataReceived(data: seq<byte>)
      modifies this
      ensures transcript == old(transcript) + [Received(data)]
      ensures alerts == old(alerts) && portChoices == old(portChoices)
    {
      transcript := transcript + [Received(data)];
    }
  }

  /** Configuration failures are only warnings: on any closed port, with
      every setter refused, the window warns once with all four lines in
      setter order and still attempts the open; the opening is recorded
      exactly when it succeeds. */
  method RefusedSettingsStillOpen(w: MainWindow, rate: int32, dataIndex: int, parityIndex: int,
                                  stopIndex: int, qt: QtVerdicts, deviceOpens: bool)
    returns (errors: seq<ConfigError>)
    requires w.Valid() && !w.port.isOpen
    requires !(rate > 0 && qt.baudRate) && !qt.dataBits && !qt.parity && !qt.stopBits
    modifies w, w.port
    ensures errors == [BaudRateFailed(rate), DataBitsFailed(dataIndex), ParityFailed(parityIndex),
                       StopBitsFailed(stopIndex)]
    ensures w.Valid() && w.port.isOpen == deviceOpens
    ensures w.port.portName == old(w.port.portName) && w.port.baudRate == old(w.port.baudRate)
    ensures w.port.dataBits == old(w.port.dataBits) && w.port.parity == old(w.port.parity)
    ensures w.port.stopBits == old(w.port.stopBits)
    ensures w.alerts == old(w.alerts) + [SettingsWarning(errors)] + (if deviceOpens then [] else [OpenFailed])
    ensures w.transcript == old(w.transcript) + (if deviceOpens then [PortOpened(w.port.portName)] else [])
  {
    errors := w.OpenPortClicked(rate, dataIndex, parityIndex, stopIndex, qt, deviceOpens);
  }
}
