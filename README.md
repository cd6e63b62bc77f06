# Serial port assistant: session and configuration model

A Dafny model of the core of MySerialPortAssistant, a Qt desktop serial
terminal. It covers two parts.

- `SerialPort` (`src/serialport.cpp`) is the session object. It owns one
  QSerialPort and refuses every change of line settings while the port is
  open. It accepts a port name only when the host lists it (ignoring case),
  and it builds the host's port list without repeats. It closes an open port
  before reopening it, drops writes while closed, and hands inbound bytes on
  in one batch unless it is muted.
- The main window (`src/mainwindow.cpp`) drives the session. Combo-box
  indices map to data bits, parity and stop bits, with fixed fallbacks. The
  open button is a toggle: it closes an open port; on a closed port it tries
  all four setters, collects one warning line per refusal and attempts the
  open regardless. The port combo box and the send button are guarded calls.

QSerialPort and QSerialPortInfo are not modelled. Whatever the code asks them
becomes a parameter:

- `host` is the list of port names the host reports;
- `qtAccepts` (or one field of `QtVerdicts`) is whether Qt accepts a setting;
- `deviceOpens` is whether the operating system lets the device be opened.

Inbound bytes enter through `DeviceDelivers`, which stands for the device
filling QSerialPort's read buffer.

Files:

- `serial_types.dfy`: the byte and `qint32` widths, and the Qt line-setting
  enumerations.
- `port_catalog.dfy`: ASCII case folding, the deduplicated port list
  `Dedup` and its properties.
- `serial_session.dfy`: the class `SerialPort`.
- `main_window.dfy`: the index mappings, the warning list and the class
  `MainWindow`.

Muted input is kept, not lost. A "pause receiving" switch would normally
discard what arrives while it is on, but `onDataReceived` only skips
`readAll` while `m_block` is set (`src/serialport.cpp:127-128`). The bytes
therefore stay in QSerialPort's buffer. They come out, ahead of later bytes,
in the first batch after the mute is lifted. The model follows the code, and
`MutedInputIsDeliveredLater` proves this for any muted and later input.

A closed port holds no unread input, because QSerialPort clears its read
buffer on close. This is part of `SerialPort.Valid()`. A fresh session has
QSerialPort's default settings: no port name, 9600 baud, 8 data bits, no
parity, one stop bit.

## Model

| member | source | states |
|---|---|---|
| `SerialSession.SerialPort.constructor` | src/serialport.h:41-42 | a new session is closed and unmuted, with Qt's default settings, nothing pending, written or emitted |
| `SerialSession.SerialPort.AvailablePorts` | src/serialport.cpp:87-99 | the loop's result is the host list without repeats: it has no duplicates, holds exactly the host's names, and equals `Dedup(host)` |
| `PortCatalog.DedupMembers` | src/serialport.cpp:87-99 | a name is in the port list iff the host reports it |
| `PortCatalog.DedupDistinct` | src/serialport.cpp:91-96 | no name occurs twice in the port list |
| `PortCatalog.DedupFirstOccurrenceOrder` | src/serialport.cpp:91-96 | names in the port list are ordered by their first occurrence in the host's list |
| `PortCatalog.DedupOfDistinct` | src/serialport.cpp:93-95 | a host list without repeats is returned unchanged |
| `PortCatalog.DedupIdempotent` | src/serialport.cpp:87-99 | listing an already listed set of ports changes nothing |
| `PortCatalog.ContainsIgnoreCase` | src/serialport.cpp:42 | true iff some listed name equals the given one after ASCII case folding |
| `PortCatalog.DedupContainsIgnoreCase` | src/serialport.cpp:41-42 | the case-insensitive lookup in the deduplicated list finds the same names as in the host's own list |
| `PortCatalog.ListedNameFound` | src/serialport.cpp:42 | every listed name is found by the lookup |
| `PortCatalog.LookupIgnoresCase` | src/serialport.cpp:42 | two names that differ only in ASCII letter case are found together or not at all, in any list |
| `SerialSession.SerialPort.Close` | src/serialport.cpp:32-35 | the port ends closed with no unread input; settings, mute flag and logs are unchanged, so a second close changes nothing |
| `SerialSession.SerialPort.Open` | src/serialport.cpp:23-30 | an open port is closed first; the result is exactly the outcome of the fresh attempt, the port is open iff that succeeded, and settings are kept |
| `SerialSession.SerialPort.SetPortName` | src/serialport.cpp:37-49 | succeeds iff the port is closed, the name is non-empty and the host lists it ignoring case; the name changes iff it succeeds, and nothing else changes |
| `SerialSession.SerialPort.SetBaudRate` | src/serialport.cpp:51-58 | succeeds iff the port is closed, the rate is positive and Qt accepts it; the rate changes iff it succeeds |
| `SerialSession.SerialPort.SetStopBits` | src/serialport.cpp:60-67 | refused while open; otherwise Qt decides, and only stop bits change, and only on success |
| `SerialSession.SerialPort.SetDataBits` | src/serialport.cpp:69-76 | refused while open; otherwise Qt decides, and only data bits change, and only on success |
| `SerialSession.SerialPort.SetParity` | src/serialport.cpp:78-85 | refused while open; otherwise Qt decides, and only parity changes, and only on success |
| `SerialSession.SettersRefusedWhileOpen` | src/serialport.cpp:37-85 | on every open port all five setters return false for any value and any answer Qt would give, and the session is left exactly as it was |
| `SerialSession.SerialPort.SendData` | src/serialport.cpp:107-115 | while closed the output is unchanged; while open exactly the given bytes are appended, in order |
| `SerialSession.SerialPort.BlockPort` | src/serialport.cpp:117-123 | the mute flag becomes the argument; nothing else changes |
| `SerialSession.SerialPort.DeviceDelivers` | src/serialport.cpp:128 | bytes arriving on an open port queue behind the unread ones; a closed port receives nothing |
| `SerialSession.SerialPort.OnDataReceived` | src/serialport.cpp:125-129 | while muted nothing is emitted and the unread bytes stay; otherwise one event with all unread bytes in arrival order is emitted and the buffer empties |
| `SerialSession.MutedInputIsDeliveredLater` | src/serialport.cpp:117-129 | for any bytes arriving while muted and any arriving after unmuting, the first batch after unmuting holds both, muted bytes first |
| `Window.DataBitsFromIndex` | src/mainwindow.cpp:80-88 | index i in 0..3 gives i+5 bits and is the entry that shows the result; any other index gives 8 bits |
| `Window.DataBitsIndex` | src/mainwindow.cpp:83-86 | every data-bits value is shown by an entry in 0..3, which is its bit count minus 5 |
| `Window.ParityFromIndex` | src/mainwindow.cpp:92-101 | index i in 0..4 gives the parity shown by entry i (none, odd, even, mark, space); any other index gives none |
| `Window.ParityIndex` | src/mainwindow.cpp:95-99 | every parity is shown by an entry in 0..4 |
| `Window.StopBitsFromIndex` | src/mainwindow.cpp:105-112 | index i in 0..2 gives the stop bits shown by entry i (one, one and a half, two); any other index gives one |
| `Window.StopBitsIndex` | src/mainwindow.cpp:108-110 | every stop-bits value is shown by an entry in 0..2 |
| `Window.IndexMappingsRoundTrip` | src/mainwindow.cpp:80-112 | choosing the entry that shows a setting gives that setting back, for all three combo boxes |
| `Window.SetterFailuresCount` | src/mainwindow.cpp:76-114 | the warning has one line per refused setter, so it is empty iff all four setters succeeded |
| `Window.SetterFailuresMembers` | src/mainwindow.cpp:76-114 | the warning names each setter iff that setter was refused |
| `Window.SetterFailuresOrder` | src/mainwindow.cpp:76-114 | warning lines follow the call order: baud rate, data bits, parity, stop bits |
| `Window.MainWindow.constructor` | src/mainwindow.cpp:9-27 | a new window owns a fresh closed session with Qt's defaults and lists the host's ports once each; the first listed port becomes the session's port name, or, when that name is empty, it is refused with one alert |
| `Window.MainWindow.UpdatePorts` | src/mainwindow.cpp:48-53 | the combo box becomes the host list without repeats; on a closed port, clearing a non-empty box raises one refusal of the empty name, and the first new entry becomes the port name (an empty one is refused with an alert); on an open port the session and alerts are untouched |
| `Window.MainWindow.OpenPortClicked` | src/mainwindow.cpp:64-133 | open port: it is closed, no setter or open is tried, nothing is reported; closed port: all four settings are applied, the warning lists exactly the refused setters in order, the open is attempted regardless, and a transcript record is written only when it succeeds; either way the port list is kept and no unread input remains |
| `Window.RefusedSettingsStillOpen` | src/mainwindow.cpp:76-129 | on any closed port with every setter refused, the warning holds all four lines in setter order, the open is still attempted, and the opening is recorded exactly when it succeeds |
| `Window.MainWindow.PortChanged` | src/mainwindow.cpp:135-147 | while open the session's port name is unchanged and nothing is reported; while closed the name is taken iff the session accepts it, and a refusal raises one alert; the port list and the unread input are kept |
| `Window.MainWindow.SendClicked` | src/mainwindow.cpp:179-198 | empty text or a closed port: nothing is written or recorded; otherwise exactly the text's bytes are written and, when "show sent data" is ticked, recorded; the port list and the unread input are kept either way |
| `Window.MainWindow.DataReceived` | src/mainwindow.cpp:55-62 | each received batch is recorded once in the transcript |

## Left out

- Threading and signal wiring: `QThread`, `moveToThread`, `connect`,
  `startProtThread` and the thread's shutdown in the window's destructor.
  Signals are modelled as direct calls (`dataSends`, the combo box's
  `currentTextChanged` reaching `PortChanged`) or as logs (`emitted`).
- The function-local `QMutex` in `blockPort`. It is a fresh mutex on every
  call and so synchronizes nothing.
- The `errorOccurred` forwarding. It is a bare signal connection with no
  filtering in this code.
- The `SerialPort` destructor, which closes the port when the object goes
  away. Object lifetime is not modelled.
- QSerialPort internals are parameters: the device open, Qt's acceptance of
  each setting, and the host port list.
- SendData: the model takes every byte as written. The result of
  `QSerialPort::write` and the timeout of `waitForBytesWritten` are
  not modelled.
- ContainsIgnoreCase: folds ASCII letters only. Qt's case-insensitive
  comparison also folds non-ASCII letters.
- Window.MainWindow.OpenPortClicked: the baud rate arrives as the result of
  `currentText().toInt()`, so the parsing of the combo text (0 when it is not
  a number) is not modelled.
- Warning lines: the source shows each combo box's current text. The
  model's `BaudRateFailed` carries the parsed number instead, so the text
  "abc" shows as "abc" in the source but is `BaudRateFailed(0)` here. The
  data-bits, parity and stop-bits lines carry the combo index. No line
  carries its translated wording.
- Flow control. The code leaves it as a TODO and never sets it.
- UI plumbing: icon painting, widget enabling, button labels, the clear
  button, HTML and timestamp formatting of the transcript, and message-box
  text.
- Window.MainWindow.constructor: the model stops after `updatePorts`
  (`src/mainwindow.cpp:27`). The hard-coded start-up selections that follow
  ("COM11", "115200" and the combo indices) are not modelled. When the box
  is not empty but has no "COM11" entry, that selection empties it. This
  offers the empty name to the session and raises one more "cannot set
  port" alert.
- Local 8-bit text encoding (`toLocal8Bit`, `fromLocal8Bit`). Send text and
  received data are bytes.
- `src/mainwindow.h` holds only stale declarations and no logic.
