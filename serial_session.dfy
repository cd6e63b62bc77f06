/** The serial session: `SerialPort`, the object that owns one QSerialPort,
    guards every change of its line settings while it is open, writes outgoing
    bytes and hands inbound bytes on in one batch unless it is muted.

    QSerialPort itself is not modelled; where the session asks it something
    the answer is a parameter: the host's port list (`host`), whether Qt
    accepts a setting (`qtAccepts`) and whether the operating system lets the
    device be opened (`deviceOpens`). */
module SerialSession {
  import opened SerialTypes
  import PortCatalog

  class SerialPort {
    /** `m_qSerialPort->isOpen()`. */
    var isOpen: bool
    /** The line settings held by the QSerialPort. */
    var portName: string
    var baudRate: int32
    var dataBits: DataBits
    var parity: Parity
    var stopBits: StopBits
    /** `m_block`: while set, inbound data is not read. */
    var block: bool
    /** Bytes the device has delivered that `readAll` has not yet taken. */
    var pending: seq<byte>
    /** Every byte handed to `QSerialPort::write`, in order. */
    var written: seq<byte>
    /** The payloads of the `dataReceived` signals emitted so far. */
    var emitted: seq<seq<byte>>

    /** A closed port holds no unread input (QSerialPort drops its read
        buffer on close), and the baud rate is always positive. */
    ghost predicate Valid()
      reads this
    {
      baudRate > 0 && (!isOpen ==> pending == [])
    }

    /** A fresh session: closed, unmuted, with QSerialPort's default
        settings (no port name, 9600 baud, 8 data bits, no parity, one stop
        bit). */
    constructor ()
      ensures Valid()
      ensures !isOpen && !block
      ensures portName == "" && baudRate == 9600
      ensures dataBits == Data8 && parity == NoParity && stopBits == OneStop
      ensures pending == [] && written == [] && emitted == []
    {
      isOpen, block := false, false;
      portName, baudRate := "", 9600;
      dataBits, parity, stopBits := Data8, NoParity, OneStop;
      pending, written, emitted := [], [], [];
    }

    /** `availablePorts`: the names the host reports, each kept once, at its
        first occurrence. */
    static method AvailablePorts(host: seq<string>) returns (names: seq<string>)
      ensures names == PortCatalog.Dedup(host)
      ensures PortCatalog.Distinct(names)
      ensures forall x :: x in names <==> x in host
    {
      names := [];
      for i := 0 to |host|
        invariant names == PortCatalog.Dedup(host[..i])
      {
        assert host[..i + 1][..i] == host[..i];
        if host[i] !in names {
          names := names + [host[i]];
        }
      }
      assert host[..|host|] == host;
      PortCatalog.DedupDistinct(host);
      PortCatalog.DedupMembers(host);
    }

    /** `close`: the port ends closed whatever it was before; nothing else
        changes, so closing a closed port changes nothing at all. */
    method Close()
      requires Valid()
      modifies this
      ensures Valid() && !isOpen && pending == []
      ensures portName == old(portName) && baudRate == old(baudRate)
      ensures dataBits == old(dataBits) && parity == old(parity) && stopBits == old(stopBits)
      ensures block == old(block) && written == old(written) && emitted == old(emitted)
    {
      isOpen := false;
      pending := [];
    }

    /** `open`: an open port is closed first, so the outcome is that of a
        fresh attempt; the port is open afterwards exactly when the device
        could be opened, and starts with no unread input. */
    method Open(deviceOpens: bool) returns (ok: bool)
      requires Valid()
      modifies this
      ensures Valid()
      ensures ok == deviceOpens && isOpen == ok && pending == []
      ensures portName == old(portName) && baudRate == old(baudRate)
      ensures dataBits == old(dataBits) && parity == old(parity) && stopBits == old(stopBits)
      ensures block == old(block) && written == old(written) && emitted == old(emitted)
    {
      if isOpen {
        Close();
      }
      isOpen := deviceOpens;
      ok := isOpen;
    }

    /** `setPortName`: accepted only while closed, for a non-empty name that
        the host lists, compared without regard to ASCII case; the name is
        stored as given. */
    method SetPortName(name: string, host: seq<string>) returns (ok: bool)
      requires Valid()
      modifies this
      ensures Valid()
      ensures ok <==> !isOpen && name != "" && PortCatalog.ContainsIgnoreCase(host, name)
      ensures portName == if ok then name else old(portName)
      ensures isOpen == old(isOpen) && baudRate == old(baudRate)
      ensures dataBits == old(dataBits) && parity == old(parity) && stopBits == old(stopBits)
      ensures block == old(block) && pending == old(pending)
      ensures written == old(written) && emitted == old(emitted)
    {
      ok := false;
      if !isOpen && name != "" {
        var names := AvailablePorts(host);
        PortCatalog.DedupContainsIgnoreCase(host, name);
        if PortCatalog.ContainsIgnoreCase(names, name) {
          portName := name;
          ok := true;
        }
      }
    }

    /** `setBaudRate`: refused while open or for a rate that is not
        positive; otherwise Qt decides. */
    method SetBaudRate(rate: int32, qtAccepts: bool) returns (ok: bool)
      requires Valid()
      modifies this
      ensures Valid()
      ensures ok <==> !isOpen && rate > 0 && qtAccepts
      ensures baudRate == if ok then rate else old(baudRate)
      ensures isOpen == old(isOpen) && portName == old(portName)
      ensures dataBits == old(dataBits) && parity == old(parity) && stopBits == old(stopBits)
      ensures block == old(block) && pending == old(pending)
      ensures written == old(written) && emitted == old(emitted)
    {
      ok := false;
      if !isOpen && rate > 0 {
        if qtAccepts {
          baudRate := rate;
        }
        ok := qtAccepts;
      }
    }

    /** `setStopBits`: refused while open; otherwise Qt decides. */
    method SetStopBits(bits: StopBits, qtAccepts: bool) returns (ok: bool)
      requires Valid()
      modifies this
      ensures Valid()
      ensures ok <==> !isOpen && qtAccepts
      ensures stopBits == if ok then bits else old(stopBits)
      ensures isOpen == old(isOpen) && portName == old(portName) && baudRate == old(baudRate)
      ensures dataBits == old(dataBits) && parity == old(parity)
      ensures block == old(block) && pending == old(pending)
      ensures written == old(written) && emitted == old(emitted)
    {
      ok := false;
      if !isOpen {
        if qtAccepts {
          stopBits := bits;
        }
        ok := qtAccepts;
      }
    }

    /** `setDataBits`: refused while open; otherwise Qt decides. */
    method SetDataBits(bits: DataBits, qtAccepts: bool) returns (ok: bool)
      requires Valid()
      modifies this
      ensures Valid()
      ensures ok <==> !isOpen && qtAccepts
      ensures dataBits == if ok then bits else old(dataBits)
      ensures isOpen == old(isOpen) && portName == old(portName) && baudRate == old(baudRate)
      ensures parity == old(parity) && stopBits == old(stopBits)
      ensures block == old(block) && pending == old(pending)
      ensures written == old(written) && emitted == old(emitted)
    {
      ok := false;
      if !isOpen {
        if qtAccepts {
          dataBits := bits;
        }
        ok := qtAccepts;
      }
    }

    /** `setParity`: refused while open; otherwise Qt decides. */
    method SetParity(p: Parity, qtAccepts: bool) returns (ok: bool)
      requires Valid()
      modifies this
      ensures Valid()
      ensures ok <==> !isOpen && qtAccepts
      ensures parity == if ok then p else old(parity)
      ensures isOpen == old(isOpen) && portName == old(portName) && baudRate == old(baudRate)
      ensures dataBits == old(dataBits) && stopBits == old(stopBits)
      ensures block == old(block) && pending == old(pending)
      ensures written == old(written) && emitted == old(emitted)
    {
      ok := false;
      if !isOpen {
        if qtAccepts {
          parity := p;
        }
        ok := qtAccepts;
      }
    }

    /** `sendData`: dropped while closed; while open the bytes go out after
        everything written before, unchanged and in order. */
    method SendData(data: seq<byte>)
      requires Valid()
      modifies this
      ensures Valid()
      ensures written == if old(isOpen) then old(written) + data else old(written)
      ensures isOpen == old(isOpen) && portName == old(portName) && baudRate == old(baudRate)
      ensures dataBits == old(dataBits) && parity == old(parity) && stopBits == old(stopBits)
      ensures block == old(block) && pending == old(pending) && emitted == old(emitted)
    {
      if isOpen {
        written := written + data;
      }
    }

    /** `blockPort`: sets the mute flag and nothing else. */
    method BlockPort(b: bool)
      requires Valid()
      modifies this
      ensures Valid()
      ensures block == b
      ensures isOpen == old(isOpen) && portName == old(portName) && baudRate == old(baudRate)
      ensures dataBits == old(dataBits) && parity == old(parity) && stopBits == old(stopBits)
      ensures pending == old(pending) && written == old(written) && emitted == old(emitted)
    {
      block := b;
    }

    /** The device side of the connection: bytes arriving on an open port
        join the read buffer behind those still unread; a closed port
        receives nothing. */
    method DeviceDelivers(data: seq<byte>)
      requires Valid()
      modifies this
      ensures Valid()
      ensures pending == if old(isOpen) then old(pending) + data else old(pending)
      ensures isOpen == old(isOpen) && portName == old(portName) && baudRate == old(baudRate)
      ensures dataBits == old(dataBits) && parity == old(parity) && stopBits == old(stopBits)
      ensures block == old(block) && written == old(written) && emitted == old(emitted)
    {
      if isOpen {
        pending := pending + data;
      }
    }

    /** `onDataReceived`: while muted nothing is read or emitted, so the
        unread bytes stay where they are; otherwise everything unread is
        taken in one `readAll` and emitted as one signal, in arrival order. */
    method OnDataReceived()
      requires Valid()
      modifies this
      ensures Valid()
      ensures old(block) ==> pending == old(pending) && emitted == old(emitted)
      ensures !old(block) ==> pending == [] && emitted == old(emitted) + [old(pending)]
      ensures isOpen == old(isOpen) && portName == old(portName) && baudRate == old(baudRate)
      ensures dataBits == old(dataBits) && parity == old(parity) && stopBits == old(stopBits)
      ensures block == old(block) && written == old(written)
    {
      if !block {
        emitted := emitted + [pending];
        pending := [];
      }
    }
  }

  /** Bytes that arrive while the session is muted are not lost: they stay
      unread and come out, ahead of later bytes, in the first batch read
      after the mute is lifted. */
  method MutedInputIsDeliveredLater(mutedInput: seq<byte>, laterInput: seq<byte>)
    returns (events: seq<seq<byte>>)
    ensures events == [mutedInput + laterInput]
  {
    var port := new SerialPort();
    var ok := port.Open(true);
    port.BlockPort(true);
    port.DeviceDelivers(mutedInput);
    assert port.pending == mutedInput;
    port.OnDataReceived();
    port.BlockPort(false);
    port.DeviceDelivers(laterInput);
    assert port.pending == mutedInput + laterInput;
    port.OnDataReceived();
    assert port.emitted == [] + [mutedInput + laterInput];
    events := port.emitted;
  }

  /** On any open port every setter refuses, whatever value it is given and
      whatever Qt would answer, and the session is left exactly as it was. */
  method SettersRefusedWhileOpen(port: SerialPort, host: seq<string>, name: string, rate: int32,
                                 bits: DataBits, p: Parity, stop: StopBits,
                                 qtBaud: bool, qtData: bool, qtParity: bool, qtStop: bool)
    returns (results: seq<bool>)
    requires port.Valid() && port.isOpen
    modifies port
    ensures results == [false, false, false, false, false]
    ensures port.Valid() && port.isOpen
    ensures port.portName == old(port.portName) && port.baudRate == old(port.baudRate)
    ensures port.dataBits == old(port.dataBits) && port.parity == old(port.parity)
    ensures port.stopBits == old(port.stopBits) && port.block == old(port.block)
    ensures port.pending == old(port.pending) && port.written == old(port.written)
    ensures port.emitted == old(port.emitted)
  {
    var a := port.SetPortName(name, host);
    var b := port.SetBaudRate(rate, qtBaud);
    var c := port.SetDataBits(bits, qtData);
    var d := port.SetParity(p, qtParity);
    var e := port.SetStopBits(stop, qtStop);
    results := [a, b, c, d, e];
  }
}
