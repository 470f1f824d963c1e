/**
 * The decision logic of KeyBridge's main window: the device scan, the
 * connect button, pairing and wireless connect, keyboard capture, the
 * key-press dispatch and the heartbeat. Widgets and dialogs are reduced to
 * the fields they show (the device choices, the selected device) and a log.
 */
module AppWindow {
  import opened Wrappers
  import opened Text
  import opened Engine
  import opened Notifications
  import opened Config

  // ---------------------------------------------------------------------
  // Parsing `adb devices`.

  /** What one line of the listing names: its first word, when the line mentions `device`. */
  function LineDevice(l: string): (d: Option<string>)
    ensures d.Some? <==> Contains(l, "device")
    ensures d.Some? ==> d.value != [] && NoSpace(d.value)
  {
    if Contains(l, "device") then
      DeviceWordHasNoSpace();
      ContainsHasToken(l, "device");
      Some(FirstToken(l))
    else
      None
  }

  lemma DeviceWordHasNoSpace()
    ensures "device" != [] && NoSpace("device")
  {
    assert forall i :: 0 <= i < |"device"| ==> "device"[i] in "device";
  }

  /** `l.split()[0] for l in lines if "device" in l`. */
  function DevicesOf(lines: seq<string>): (devices: seq<string>)
    ensures |devices| <= |lines|
    ensures forall k :: 0 <= k < |devices| ==> devices[k] != [] && NoSpace(devices[k])
    decreases |lines|
  {
    if lines == [] then []
    else
      var rest := DevicesOf(lines[1..]);
      match LineDevice(lines[0])
      case Some(d) => [d] + rest
      case None => rest
  }

  /** Every line mentioning `device` gives its first word to the list. */
  lemma {:induction false} DevicesOfCovers(lines: seq<string>)
    ensures forall j :: 0 <= j < |lines| && LineDevice(lines[j]).Some? ==> LineDevice(lines[j]).value in DevicesOf(lines)
    decreases |lines|
  {
    if lines != [] {
      var tail := lines[1..];
      DevicesOfCovers(tail);
      var d := LineDevice(lines[0]);
      CoversStep(LineDevice, lines, tail, if d.Some? then [d.value] else [], DevicesOf(tail));
    }
  }

  /** A word for the first line in front of the words of the others covers all the lines. */
  lemma CoversStep(word: string -> Option<string>, lines: seq<string>, tail: seq<string>, head: seq<string>, rest: seq<string>)
    requires lines != [] && tail == lines[1..]
    requires word(lines[0]).Some? ==> head == [word(lines[0]).value]
    requires forall j :: 0 <= j < |tail| && word(tail[j]).Some? ==> word(tail[j]).value in rest
    ensures forall j :: 0 <= j < |lines| && word(lines[j]).Some? ==> word(lines[j]).value in head + rest
  {
    forall j | 0 < j < |lines| && word(lines[j]).Some?
      ensures word(lines[j]).value in head + rest
    {
      assert lines[j] == tail[j - 1];
    }
  }

  /** What one line contributes: the first word of a line naming a device, and nothing otherwise. */
  lemma {:induction false} DevicesOfLine(l: string)
    ensures DevicesOf([l]) == (if Contains(l, "device") then [LineDevice(l).value] else [])
  {
    assert [l][1..] == [];
  }

  /** The scan keeps line order: the devices of two runs of lines are the devices of each, in turn. */
  lemma {:induction false} DevicesOfAppend(a: seq<string>, b: seq<string>)
    ensures DevicesOf(a + b) == DevicesOf(a) + DevicesOf(b)
    decreases |a|
  {
    if a != [] {
      assert (a + b)[1..] == a[1..] + b;
      DevicesOfAppend(a[1..], b);
    } else {
      assert a + b == b;
    }
  }

  /** `_refresh_devices`: the header line of the stripped output is dropped, the rest scanned. */
  function ParseDevices(stdout: string): (devices: seq<string>)
    ensures forall k :: 0 <= k < |devices| ==> devices[k] != [] && NoSpace(devices[k])
    ensures |devices| < |SplitOn(Strip(stdout), '\n')|
  {
    var lines := SplitOn(Strip(stdout), '\n');
    DevicesOf(lines[1..])
  }

  /**
   * The scan covers every line of the stripped output but the first (the
   * `List of devices attached` header, which itself mentions devices): the
   * devices are those of the later lines, the header's word is exactly what
   * is dropped, and each later line mentioning `device` gives its first word.
   */
  lemma {:induction false} ParseDevicesSkipsHeader(stdout: string)
    ensures var lines, devices := SplitOn(Strip(stdout), '\n'), ParseDevices(stdout);
      && devices == DevicesOf(lines[1..])
      && DevicesOf(lines) == DevicesOf([lines[0]]) + devices
      && (forall j :: 1 <= j < |lines| && LineDevice(lines[j]).Some? ==> LineDevice(lines[j]).value in devices)
  {
    var lines := SplitOn(Strip(stdout), '\n');
    DevicesOfAppend([lines[0]], lines[1..]);
    assert [lines[0]] + lines[1..] == lines;
    DevicesOfCovers(lines[1..]);
    assert forall j :: 1 <= j < |lines| ==> lines[j] == lines[1..][j - 1];
  }

  /** How running `adb devices` ended: its standard output, or the exception it raised. */
  datatype RunOutcome = Ran(stdout: string) | Raised(error: string)

  // ---------------------------------------------------------------------
  // Wireless connect.

  /** `_connect_ip`: the label the device list shows for a wireless connection. */
  function WirelessLabel(ip: string): (shown: string)
    ensures ':' in shown
    ensures shown == ip <==> ':' in ip
    ensures ':' !in ip ==> shown == ip + ":5555"
  {
    if ':' in ip then ip else ip + ":5555"
  }

  /** Colons in a text. */
  function Colons(s: string): nat {
    multiset(s)[':']
  }

  /**
   * `connect_wireless_ip` appends `:5555` whatever it is given, so an
   * address that already names its port, as the window asks for
   * (`192.168.1.x:5555`), is dialled with a second port, and the target no
   * longer matches the label `_connect_ip` gives the device.
   */
  lemma {:induction false} PortedAddressDialledTwice(ip: string, stdout: Option<string>)
    requires Colons(ip) == 1
    ensures Colons(ConnectWirelessIp(ip, stdout).target) == 2
    ensures ConnectWirelessIp(ip, stdout).target != WirelessLabel(ip)
  {
    assert multiset(ip + ":5555") == multiset(ip) + multiset(":5555");
    assert multiset(":5555")[':'] == 1 by {
      assert ":5555" == [':'] + "5555";
      assert ':' !in "5555";
    }
    assert ':' in ip by {
      assert multiset(ip)[':'] > 0;
    }
  }

  /** The address `connect_wireless_ip` evidently means to dial: the port is added only when missing. */
  function WirelessTarget(ip: string): (target: string)
    ensures Colons(ip) == 0 ==> Colons(target) == 1 && target == ip + ":5555"
    ensures Colons(ip) >= 1 ==> target == ip
  {
    if ':' in ip then ip
    else
      assert multiset(ip + ":5555") == multiset(ip) + multiset(":5555");
      assert multiset(":5555")[':'] == 1 by {
        assert ":5555" == [':'] + "5555";
        assert ':' !in "5555";
      }
      ip + ":5555"
  }

  /** With the corrected target, the device dialled is the device the list shows. */
  lemma {:induction false} TargetMatchesLabel(ip: string)
    ensures WirelessTarget(ip) == WirelessLabel(ip)
    ensures Colons(ip) <= 1 ==> Colons(WirelessTarget(ip)) == 1
  {
    if ':' in ip {
      assert multiset(ip)[':'] > 0;
    }
  }

  // ---------------------------------------------------------------------
  // Keys.

  /** What pynput reports: a member of its `Key` enumeration, or a key code with its character, if any. */
  datatype KeyPress = Named(key: PcKey) | Typed(ch: Option<char>)

  /** What a key press queues on the engine. */
  datatype KeyAction = SendKeyevent(code: nat) | SendTyped(text: string) | NoAction

  /**
   * `_on_key_press` while capturing: a key of `SPECIAL_KEYS` sends its key
   * event; a key code sends its character (`shlex.quote(None)` is `''`, the
   * quoting of an empty text, so a key code without one types nothing); the
   * space bar, which has no `char` attribute, sends a blank; any other key
   * does nothing.
   */
  function Dispatch(k: KeyPress): (a: KeyAction)
    ensures a.SendKeyevent? <==> k.Named? && SpecialKeycode(k.key).Some?
    ensures a.SendKeyevent? ==> KeyForCode(a.code) == Some(k.key)
    ensures a == SendTyped(" ") <==> k == Named(Space) || k == Typed(Some(' '))
    ensures a == NoAction <==> k.Named? && k.key.OtherKey?
    ensures k.Typed? ==> a.SendTyped? && (a.text == [] <==> k.ch.None?) && (k.ch.Some? ==> a.text == [k.ch.value])
  {
    match k
    case Named(key) =>
      if SpecialKeycode(key).Some? then
        KeycodeRoundTrip(key, SpecialKeycode(key).value);
        SendKeyevent(SpecialKeycode(key).value)
      else if key == Space then SendTyped(" ")
      else NoAction
    case Typed(c) =>
      if c.Some? then SendTyped([c.value]) else SendTyped("")
  }

  /** The command line an action queues on a running engine. */
  function Queued(a: KeyAction): seq<Item> {
    match a
    case SendKeyevent(code) => [Line(KeyeventCommand(code))]
    case SendTyped(text) => [Line(TextCommand(text))]
    case NoAction => []
  }

  // ---------------------------------------------------------------------
  // The window.

  /** The line `_refresh_devices` logs: the number of devices found, or the error raised. */
  function ScanReport(scan: RunOutcome): string {
    match scan
    case Ran(stdout) => "Scan complete. Found " + NatToString(|ParseDevices(stdout)|) + " device(s)."
    case Raised(error) => "Error scanning devices: " + error
  }

  /**
   * The engine attributes `_build_layout` reads while it builds the tabs:
   * the wizard button's command. The navigation buttons wrap `send_cmd` in
   * lambdas, so they read it only when clicked.
   */
  const LayoutReads: seq<string> := ["setup_wireless_auto"]

  /** Reading `names` in order from an object with `attrs`: the first name it lacks, which raises `AttributeError`. */
  function FirstMissing(attrs: set<string>, names: seq<string>): (missing: Option<string>)
    ensures missing.None? <==> forall i :: 0 <= i < |names| ==> names[i] in attrs
    ensures missing.Some? ==> missing.value in names && missing.value !in attrs
    ensures missing.Some? ==>
      exists i :: 0 <= i < |names| && names[i] == missing.value && (forall j :: 0 <= j < i ==> names[j] in attrs)
    decreases |names|
  {
    if names == [] then None
    else if names[0] !in attrs then Some(names[0])
    else
      var rest := FirstMissing(attrs, names[1..]);
      assert forall i :: 1 <= i < |names| ==> names[i] == names[1..][i - 1];
      rest
  }

  /**
   * The window as written cannot be built: the engine has no
   * `setup_wireless_auto`, so building the wireless tab raises before the
   * first device scan.
   */
  lemma InitRaises()
    ensures FirstMissing(Attributes, LayoutReads) == Some("setup_wireless_auto")
  {
    assert "setup_wireless_auto" !in Attributes;
  }

  /** With the engine the window is written against, the layout is built and `__init__` goes on to its scan. */
  lemma InitBuildsWithWizard()
    ensures FirstMissing(IntendedAttributes, LayoutReads) == None
  {
  }

  /** What `__init__` leaves: a window, or the `AttributeError` its layout raised. */
  datatype Startup = Opened(window: KeyBridgeWindow) | AttributeError(name: string)

  /** What `_do_pairing` does with its two fields. */
  datatype PairingStep = Rejected | PairDeviceCalled(ipPort: string, code: string)

  class KeyBridgeWindow {
    const engine: ADBEngine
    const notifier: NotificationSync
    var captureActive: bool
    /** The values of the device combo box, and its current text. */
    var deviceChoices: seq<string>
    var selected: string
    var log: seq<string>

    ghost predicate Valid()
      reads this, engine, notifier
    {
      engine.Valid() && notifier.Valid()
    }

    /** The widgets and fields `__init__` sets up before its first device scan. */
    constructor ()
      ensures Valid() && fresh(engine) && fresh(notifier)
      ensures !engine.running && !notifier.running && !captureActive
      ensures deviceChoices == [] && selected == [] && log == []
    {
      engine := new ADBEngine();
      notifier := new NotificationSync();
      captureActive := false;
      deviceChoices := [];
      selected := [];
      log := [];
    }

    /**
     * The window just after its first device scan: engine and notifier
     * stopped, capture off, the devices found listed with the first one
     * selected, and the scan logged.
     */
    ghost predicate ShowsScan(scan: RunOutcome)
      reads this, engine, notifier
    {
      && Valid() && !engine.running && !notifier.running && !captureActive
      && (scan.Ran? ==>
            var devices := ParseDevices(scan.stdout);
            deviceChoices == devices && selected == (if devices != [] then devices[0] else []))
      && (scan.Raised? ==> deviceChoices == [] && selected == [])
      && log == [ScanReport(scan)]
    }

    /**
     * `__init__` over an engine with the attributes `attrs`: a fresh engine
     * and notifier and capture off, then the layout, which raises on the
     * first engine attribute it reads that is missing; only a built layout
     * goes on to the device scan.
     */
    static method Open(attrs: set<string>, scan: RunOutcome) returns (r: Startup)
      ensures FirstMissing(attrs, LayoutReads).Some? ==> r == AttributeError(FirstMissing(attrs, LayoutReads).value)
      ensures FirstMissing(attrs, LayoutReads).None? ==>
        r.Opened? && fresh(r.window) && fresh(r.window.engine) && fresh(r.window.notifier) && r.window.ShowsScan(scan)
    {
      var w := new KeyBridgeWindow();
      var missing := FirstMissing(attrs, LayoutReads);
      if missing.Some? {
        return AttributeError(missing.value);
      }
      w.FirstScan(scan);
      r := Opened(w);
    }

    /** The device scan that ends `__init__`, on a window as the constructor leaves it. */
    method FirstScan(scan: RunOutcome)
      requires Valid() && !engine.running && !notifier.running && !captureActive
      requires deviceChoices == [] && selected == [] && log == []
      modifies this`deviceChoices, this`selected, this`log
      ensures ShowsScan(scan)
    {
      var report := ScanReport(scan);
      RefreshDevices(scan);
      assert log == [] + [report] == [report];
    }

    /**
     * `_refresh_devices`: the combo box lists the devices found, and selects
     * the first one only when there is one; a failed run changes neither.
     */
    method RefreshDevices(scan: RunOutcome)
      modifies this`deviceChoices, this`selected, this`log
      ensures scan.Ran? ==>
        var devices := ParseDevices(scan.stdout);
        && deviceChoices == devices
        && selected == (if devices != [] then devices[0] else old(selected))
        && log == old(log) + [ScanReport(scan)]
      ensures scan.Raised? ==>
        && deviceChoices == old(deviceChoices) && selected == old(selected)
        && log == old(log) + [ScanReport(scan)]
    {
      match scan
      case Ran(stdout) =>
        var devices := ParseDevices(stdout);
        deviceChoices := devices;
        if devices != [] {
          selected := devices[0];
        }
        log := log + ["Scan complete. Found " + NatToString(|devices|) + " device(s)."];
      case Raised(error) =>
        log := log + ["Error scanning devices: " + error];
    }

    /**
     * `_toggle_connect`: a running engine is stopped together with the
     * notifier. Otherwise a selected device is connected (`launched` says
     * whether its shell started), and the notifier starts only when that
     * succeeded; with no device selected nothing is called.
     */
    method ToggleConnect(launched: bool)
      requires Valid()
      modifies engine, notifier`running, notifier`deviceId, this`log
      ensures Valid()
      ensures old(engine.running) ==>
        && !engine.running && engine.process == None && !notifier.running
        && engine.queue == old(engine.queue)
        && engine.statusReports == old(engine.statusReports) + [false]
        && engine.terminated == old(engine.terminated) + [old(engine.process).value]
        && notifier.deviceId == old(notifier.deviceId) && log == old(log)
      ensures !old(engine.running) && selected == [] ==>
        && engine.State() == old(engine.State())
        && notifier.running == old(notifier.running) && notifier.deviceId == old(notifier.deviceId)
        && log == old(log)
      ensures !old(engine.running) && selected != [] ==>
        && (engine.running <==> launched)
        && engine.queue == old(engine.queue)
        && engine.statusReports == old(engine.statusReports) + [false, launched]
        && engine.terminated == old(engine.terminated) + (if old(engine.process).Some? then [old(engine.process).value] else [])
        && (launched ==> engine.process == Some(Process(selected, true, [])))
        && (launched ==> notifier.running && notifier.deviceId == Some(selected) && log == old(log))
        && (!launched ==> engine.process == None && notifier.running == old(notifier.running))
        && (!launched ==> notifier.deviceId == old(notifier.deviceId) && log == old(log) + ["Connection Failed."])
    {
      if engine.running {
        engine.Stop();
        notifier.Stop();
      } else {
        var dev := selected;
        if dev != [] {
          var ok := engine.Connect(dev, launched);
          if ok {
            notifier.Start(dev);
          } else {
            log := log + ["Connection Failed."];
          }
        }
      }
    }

    /**
     * `_do_pairing`: both fields are stripped; when either is empty an error
     * is logged and the engine is not called. Otherwise the stripped fields
     * go to `engine.pair_device`.
     */
    method DoPairing(ipPortField: string, codeField: string) returns (step: PairingStep)
      modifies this`log
      ensures var ipPort, code := Strip(ipPortField), Strip(codeField);
        && (ipPort == [] || code == [] ==> step == Rejected && log == old(log) + ["Error: Enter both IP:Port and Code."])
        && (ipPort != [] && code != [] ==> step == PairDeviceCalled(ipPort, code) && log == old(log))
    {
      var ipPort := Strip(ipPortField);
      var code := Strip(codeField);
      if ipPort == [] || code == [] {
        log := log + ["Error: Enter both IP:Port and Code."];
        return Rejected;
      }
      return PairDeviceCalled(ipPort, code);
    }

    /**
     * `_connect_ip`: a blank field does nothing. Otherwise the stripped
     * address is dialled; on success the devices are scanned again and the
     * combo box shows the address, with `:5555` added when it has no port.
     */
    method ConnectIp(field: string, stdout: Option<string>, scan: RunOutcome)
      modifies this`deviceChoices, this`selected, this`log
      ensures var ip := Strip(field);
        && (ip == [] ==> deviceChoices == old(deviceChoices) && selected == old(selected) && log == old(log))
        && (ip != [] && ConnectWirelessIp(ip, stdout).connected ==>
              && selected == WirelessLabel(ip)
              && deviceChoices == (if scan.Ran? then ParseDevices(scan.stdout) else old(deviceChoices))
              && log == old(log) + ["Wireless Connected!"] + [ScanReport(scan)])
        && (ip != [] && !ConnectWirelessIp(ip, stdout).connected ==>
              deviceChoices == old(deviceChoices) && selected == old(selected)
              && log == old(log) + ["Wireless Connection Failed."])
    {
      var ip := Strip(field);
      if ip == [] {
        return;
      }
      var attempt := ConnectWirelessIp(ip, stdout);
      if attempt.connected {
        log := log + ["Wireless Connected!"];
        RefreshDevices(scan);
        selected := WirelessLabel(ip);
      } else {
        log := log + ["Wireless Connection Failed."];
      }
    }

    /** `_toggle_capture`: refused while the engine is not running; otherwise flips capture. */
    method ToggleCapture()
      modifies this`captureActive, this`log
      ensures !engine.running ==> captureActive == old(captureActive) && log == old(log)
      ensures engine.running ==> captureActive == !old(captureActive)
      ensures engine.running ==> log == old(log) + [if captureActive then "Keyboard Capture: ON" else "Keyboard Capture: OFF"]
    {
      if !engine.running {
        return;
      }
      if captureActive {
        StopCapture();
      } else {
        captureActive := true;
        log := log + ["Keyboard Capture: ON"];
      }
    }

    /** `_stop_capture`, also run when Esc is released. */
    method StopCapture()
      modifies this`captureActive, this`log
      ensures !captureActive && log == old(log) + ["Keyboard Capture: OFF"]
    {
      captureActive := false;
      log := log + ["Keyboard Capture: OFF"];
    }

    /**
     * `_on_key_press`: nothing while capture is off; otherwise the key's
     * action is queued on the engine, which queues only while running.
     */
    method OnKeyPress(k: KeyPress)
      modifies engine`queue
      ensures !captureActive ==> engine.queue == old(engine.queue)
      ensures captureActive ==> engine.queue == old(engine.queue) + (if engine.running then Queued(Dispatch(k)) else [])
    {
      if !captureActive {
        return;
      }
      match k
      case Named(key) =>
        if SpecialKeycode(key).Some? {
          engine.SendCmd(KeyeventCommand(SpecialKeycode(key).value));
        } else if key == Space {
          engine.SendText(" ");
        }
      case Typed(c) =>
        engine.SendText(if c.Some? then [c.value] else "");
    }

    /**
     * `_heartbeat`: a running engine whose process is gone is stopped with
     * the notifier, and the loss is logged. Afterwards a running engine is
     * healthy, so the next beat finds nothing to report for the same session.
     */
    method Heartbeat()
      requires Valid()
      modifies engine, notifier`running, this`log
      ensures Valid()
      ensures engine.running ==> engine.CheckHealth()
      ensures old(engine.running) && !old(engine.CheckHealth()) ==>
        && !engine.running && engine.process == None && !notifier.running
        && engine.queue == old(engine.queue)
        && engine.statusReports == old(engine.statusReports) + [false]
        && engine.terminated == old(engine.terminated) + [old(engine.process).value]
        && log == old(log) + ["Heartbeat: Connection Lost."]
      ensures !(old(engine.running) && !old(engine.CheckHealth())) ==>
        engine.State() == old(engine.State()) && notifier.running == old(notifier.running) && log == old(log)
    {
      if engine.running && !engine.CheckHealth() {
        engine.Stop();
        notifier.Stop();
        log := log + ["Heartbeat: Connection Lost."];
      }
    }
  }
}
