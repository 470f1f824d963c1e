# KeyBridge in Dafny

KeyBridge turns a PC keyboard into an Android keyboard. It keeps one
persistent `adb -s <device> shell` session open and feeds it shell command
lines (`input text …`, `input keyevent …`, `monkey -p … 1`) through a FIFO
queue drained by a worker. Beside the session it mirrors the phone's
notifications as desktop toasts, stores user text macros in a JSON file,
and drives all of this from a Tk window.

This project models the parts of KeyBridge that decide something, with
the widgets, threads and child processes abstracted away:

- `Engine` (`engine.dfy`): the `ADBEngine` class. Its fields are `running`,
  the shell process (a value: device, alive, the lines written to its
  standard input), the queue, and the status reports and terminated
  processes it leaves behind. Its worker is proved against a functional
  specification (`WorkerStep`, `Drain`). The pure helpers sit beside it:
  the command lines, the `ip route` scrape, the wireless connect test and
  the remote path of a pushed file.
- `ShellQuote` (`shell_quote.dfy`): Python's `shlex.quote`, with a reader
  of POSIX shell words. The reader states what the quoting achieves: the
  device shell reads every quoted text back as exactly one word, equal to
  the text.
- `Notifications` (`notifications.dfy`): `NotificationSync`, with
  `_parse_and_notify` proved against a line-by-line replay. The replay
  carries the current package, the 50-key duplicate cache and the toasts
  shown.
- `Config` (`config.dfy`): `ConfigManager`. Macros are an
  insertion-ordered dictionary, the configuration file is an abstract stored
  value, and the `SPECIAL_KEYS` table is here too.
- `AppWindow` (`app_window.dfy`): the main window's decisions. This covers
  the `adb devices` parse, connect/disconnect, pairing input checks,
  wireless connect and its device label, keyboard capture, key dispatch and
  the heartbeat.
- `Settings` (`settings_tab.dfy`): the macro list box of the settings tab,
  and adding and deleting macros through it.
- `Text` (`text.dfy`) and `Wrappers` (`wrappers.dfy`): the Python string
  operations the code relies on (`strip`, `in`, `split`, `split()[0]`,
  `str(n)`) and `Option`.

Subprocess output is a parameter of the operation that consumes it. A run
that raised is `None` (or `Raised`). Calls to `self.log` are appended to a
`log` sequence, calls to the status callback to `statusReports`, and toasts
to `toasts`.

## Model

| member | source | states |
|---|---|---|
| `Text.TrimStart` | core/notifications.py:59 | `lstrip` removes exactly the leading white space (Python's `isspace` set): the result is a suffix, starts with a non-space, and everything dropped is space |
| `Text.TrimEnd` | core/notifications.py:59 | `rstrip` removes exactly the trailing white space: a prefix ending in a non-space, everything dropped is space |
| `Text.StripRange` | ui/app_window.py:238-239 | `strip()` is a slice `s[a..b]` that drops only white space at both ends and keeps non-space ends |
| `Text.StripKeepsContains` | core/engine.py:73-75 | for a non-empty pattern without white space, `p in s.strip()` iff `p in s` |
| `Text.SplitOn` | core/notifications.py:58 | `split('\n')` yields at least one piece and no piece holds the separator |
| `Text.SplitJoin` | core/notifications.py:58 | joining the pieces of `split(c)` with `c` gives back the input: splitting loses no character |
| `Text.FirstIndex` | ui/settings_tab.py:48 | the index of an occurrence of the separator (or the length when there is none), below the length whenever the separator occurs |
| `Text.FirstIndexIsFirst` | ui/settings_tab.py:48 | no occurrence of the separator starts before `FirstIndex` |
| `Text.Before` | ui/settings_tab.py:48 | `s.split(sep)[0]` is a prefix of `s` ending where the first occurrence starts, and all of `s` when `sep` does not occur |
| `Text.After` | core/notifications.py:68 | `s` is the text before the first occurrence, the separator, then the result |
| `Text.BeforeHasNoOccurrence` | ui/settings_tab.py:48 | the first field never contains the separator |
| `Text.SecondFieldFacts` | core/notifications.py:68 | `s.split(sep)[1]` starts the text after the first occurrence and holds no further occurrence |
| `Text.TakeToken` | ui/app_window.py:214 | the leading run of non-space characters, ended by a space or the end of the text |
| `Text.FirstToken` | ui/app_window.py:214 | `l.split()[0]` is non-empty, space-free, and found right after the leading white space |
| `Text.ContainsHasToken` | ui/app_window.py:214 | a line containing `"device"` has a first word, so `l.split()[0]` cannot fail on the lines the scan keeps |
| `Text.NatToString` | ui/app_window.py:217 | `str(n)` is a non-empty run of decimal digits whose value is `n`, with no leading zero except for `0` itself |
| `ShellQuote.Quote` | core/engine.py:143 | `shlex.quote`: never empty; the empty text becomes `''`; a non-empty text of safe characters is kept unchanged; anything else is wrapped in single quotes |
| `ShellQuote.BareRun` | core/engine.py:143 | outside quotes, a run of `shlex`-safe characters extends the current word unchanged |
| `ShellQuote.QuotedBody` | core/engine.py:143 | the escaped body of a single-quoted text, with its closing quote, reads back as the text |
| `ShellQuote.EscapedQuoteStep` | core/engine.py:143 | inside single quotes, `'"'"'` reads as one `'` and reopens the quotes |
| `ShellQuote.QuoteReadsBack` | core/engine.py:142-143 | a quoted text followed by more of the line is read as exactly the text, whatever follows |
| `ShellQuote.QuoteRoundTrip` | core/engine.py:142-143 | the shell reads `shlex.quote(t)` back as the single word `t`, for every text `t` |
| `ShellQuote.CommandReadsBack` | core/engine.py:144 | literal leading words followed by a quoted text are read back as those words followed by the text |
| `Engine.TextCommand` | core/engine.py:139-144 | the `send_text` line reads back as the three words `input`, `text` and the original text |
| `Engine.KeyeventCommand` | ui/app_window.py:291 | the special-key line reads back as `input`, `keyevent` and the key code in decimal |
| `Engine.LaunchCommand` | core/engine.py:150 | for a non-empty safe package name, the launch line reads back as `monkey -p <package> -c android.intent.category.LAUNCHER 1` word for word |
| `Engine.LaunchLineWords` | core/engine.py:150 | the launch line splits into the launch words followed by the event count `1` |
| `Engine.LinesBeforeSentinel` | core/engine.py:123-124 | the commands in queue order up to the first `None` sentinel, which ends the loop |
| `Engine.Framed` | core/engine.py:127 | each command is written followed by a newline, one line per command |
| `Engine.WorkerStep` | core/engine.py:122-133 | one loop pass: a stopped engine or an empty queue changes nothing; otherwise the head is popped and nothing is terminated |
| `Engine.DrainDeliversInOrder` | core/engine.py:120-133 | on a live shell, the worker writes every command before the first sentinel, in enqueue order, each with a newline; it ends at the sentinel or blocks on an empty queue, still running |
| `Engine.DrainDeadShell` | core/engine.py:126-132 | with the shell gone, the next popped command is dropped, `running` becomes false and `status(False)` is reported once |
| `Engine.DrainStopped` | core/engine.py:122 | a stopped engine's worker does nothing |
| `Engine.ADBEngine.constructor` | core/engine.py:10-13 | no process, empty queue, not running |
| `Engine.ADBEngine.Stop` | core/engine.py:152-158 | idempotent: afterwards not running, no process, unhealthy; `status(False)` reported on every call; an existing process is terminated; the queue is untouched |
| `Engine.ADBEngine.Connect` | core/engine.py:22-49 | `stop` first, so the previous process is terminated; on launch, running with a fresh live process for the device, status `False` then `True`, returns true; on failure not running, no process, status `False` twice, returns false |
| `Engine.ADBEngine.ProcessExits` | core/engine.py:126 | the shell process exiting on its own marks the handle not alive and changes nothing else |
| `Engine.ADBEngine.SendCmd` | core/engine.py:135-137 | the command is appended at the tail iff the engine is running; otherwise the queue is unchanged |
| `Engine.ADBEngine.SendText` | core/engine.py:139-144 | exactly one `input text <quoted>` line is appended iff running |
| `Engine.ADBEngine.LaunchApp` | core/engine.py:146-150 | exactly one monkey launch line is appended iff running |
| `Engine.ADBEngine.DeliverOne` | core/engine.py:122-133 | one pass of the worker loop changes the engine exactly as `WorkerStep` says |
| `Engine.ADBEngine.RunWorker` | core/engine.py:120-133 | the worker loop, run until it blocks, ends or finds the engine stopped, changes the engine exactly as `Drain` says |
| `Engine.ADBEngine.CheckHealth` | core/engine.py:160-162 | healthy iff there is a process and it has not exited |
| `Engine.DigitRun` | core/engine.py:93 | the maximal run of ASCII digits at a position |
| `Engine.DottedGroupEnd` | core/engine.py:93 | `\d{1,3}\.` at a position: when it matches, one to three digits then a dot end the group; whenever an octet text followed by a dot starts there, the group ends just past that dot |
| `Engine.LastGroupEnd` | core/engine.py:93 | `\d{1,3}` at a position: no match iff no digit is there; a match is one to three digits and stops only at three digits, at the end of the text, or before a non-digit |
| `Engine.QuadEnd` | core/engine.py:93 | where `\d{1,3}\.\d{1,3}\.\d{1,3}\.\d{1,3}` ends when it matches at a position, always past that position |
| `Engine.FirstSrcMatch` | core/engine.py:93 | `re.search`: the leftmost match position of the `src` pattern, or none anywhere |
| `Engine.QuadEndIsDottedQuad` | core/engine.py:93 | the text a match of the quad pattern covers is four 1-3 digit groups joined by dots |
| `Engine.QuadEndMatches` | core/engine.py:93 | the quad pattern matches at `i` ending at `e` iff `s[i..e]` is a dotted quad whose last group could take no further digit |
| `Engine.QuadEndFrom` | core/engine.py:93 | wherever a dotted quad starts, the quad pattern matches, and its greedy last group reaches at least the end of that quad |
| `Engine.CapturedIp` | core/engine.py:93-95 | the captured group is a dotted quad right after `src ` at the match, and its last group stops where a greedy `\d{1,3}` must |
| `Engine.GetDeviceIp` | core/engine.py:80-98 | a result is a dotted quad captured greedily right after some `src ` in the output; a run that raised gives `None`; on output, `None` iff the pattern matches nowhere |
| `Engine.GetDeviceIpLeftmost` | core/engine.py:93-96 | the address returned is the one captured by the leftmost match |
| `Engine.GetDeviceIpFinds` | core/engine.py:93-95 | completeness: whenever `src ` followed by a dotted quad occurs in the output, an address is returned |
| `Engine.LongGroupExample` | core/engine.py:93 | four digits in a group make no match: `src 1000.0.0.7` yields no address |
| `Engine.ConnectWirelessIp` | core/engine.py:63-78 | always dials `ip + ":5555"`; succeeds iff the run's output contains `connected`; a run that raised fails |
| `Engine.LastSepEnd` | core/engine.py:103 | the index just past the last `/` or `\`, with no separator after it |
| `Engine.Basename` | core/engine.py:103 | a separator-free suffix of the path, cut at a separator, at the drive prefix or not at all, and never inside the drive prefix |
| `Engine.DriveLength` | core/engine.py:103 | the drive prefix Windows path splitting recognises: `X:` for a letter drive; after two leading separators (UNC and device paths, including the long `\\?\UNC\` form) the server and share up to the next separator, or the whole text when one is missing; never a prefix of a path that starts with one separator only |
| `Engine.UncRootIsAllDrive` | core/engine.py:103 | after two leading separators, a path with at most one more separator is all drive, and its base name is empty |
| `Engine.UncShareBasename` | core/engine.py:103 | a bare `\\server\share` (either separator, any names) has the empty base name |
| `Engine.UncServerBasename` | core/engine.py:103 | a bare `\\server` has the empty base name |
| `Engine.UncDriveEnd` | core/engine.py:103 | with a server and a share each followed by a separator, the drive ends at the separator after the share, provided the server is not the single character `?`, which could begin the long `\\?\UNC\` prefix |
| `Engine.UncFileBasename` | core/engine.py:103 | a file directly on a share keeps its own name: `\\server\share\name` gives `name`, for any server other than `?` |
| `Engine.LetterDriveBasename` | core/engine.py:103 | a letter drive is cut off: `X:name` gives `name` |
| `Engine.BasenameUnique` | core/engine.py:103 | those four properties pin the base name down: any text meeting them is `Basename(p)` |
| `Engine.RemotePath` | core/engine.py:101-104 | the remote path is `/sdcard/Download/` followed by exactly the base name of the local path, a separator-free suffix of it |
| `Engine.PushShareRoot` | core/engine.py:101-104 | pushing a bare `\\server\share` targets `/sdcard/Download/` itself, with no file name |
| `Notifications.PkgRun` | core/notifications.py:63 | the maximal run of `[a-zA-Z0-9.]` at a position |
| `Notifications.FirstPkgMatch` | core/notifications.py:63 | the leftmost position where `pkg=` is followed by a package character, or none anywhere |
| `Notifications.FindPkg` | core/notifications.py:63-64 | a found package is a non-empty run of package characters after `pkg=` at some position, not followed by another package character; none is found iff the pattern matches nowhere |
| `Notifications.FindPkgLeftmost` | core/notifications.py:63-64 | the group is the whole run of package characters after the leftmost `pkg=` followed by one: such a run at a position with no match before it is what is found |
| `Notifications.TickerOfFacts` | core/notifications.py:66-68 | a line yields a ticker iff it contains `tickerText=` and not `tickerText=null`; the ticker is the text after the first marker, up to the next one |
| `Notifications.EventOf` | core/notifications.py:59-68 | a line's package, when it has one, holds no colon |
| `Notifications.Events` | core/notifications.py:58-68 | one event per line of the dump, the `i`-th event being that of the `i`-th line |
| `Notifications.EventsColonFree` | core/notifications.py:63 | no line of any dump names a package with a colon |
| `Notifications.AnnounceToasts` | core/notifications.py:69-76 | a ticker whose key is new is toasted once and its key remembered, with the cache emptied past 50 keys; a seen key, or no ticker, changes nothing |
| `Notifications.AnnounceBound` | core/notifications.py:76 | one line keeps the cache at 50 keys or fewer |
| `Notifications.ReplayExtends` | core/notifications.py:58-78 | a scan only appends toasts, at most one per line |
| `Notifications.ReplayPkgHasNoColon` | core/notifications.py:56-64 | the current package never holds a colon: it starts as `Unknown` and only takes matched package names |
| `Notifications.ReplayBound` | core/notifications.py:76 | if the cache has at most 50 keys before a scan, it has at most 50 after every line |
| `Notifications.KeyInjective` | core/notifications.py:69 | for colon-free packages, the key `pkg:text` determines both the package and the text |
| `Notifications.NewToastsOnce` | core/notifications.py:69-73 | each intended toast has a key not seen before the scan and different from every other toast's key, so each adds one key to the cache |
| `Notifications.NewToastsCover` | core/notifications.py:61-73 | no notification is missed: the key of every ticker line, under the package current at that line, was seen before the scan or is toasted |
| `Notifications.ReplayToastsNew` | core/notifications.py:56-78 | while the 50-key cache does not overflow, the scan ends with the last named package current, the intended toasts appended in line order, and exactly their keys added to the cache |
| `Notifications.NotificationSync.constructor` | core/notifications.py:8-12 | not running, no seen keys, no device |
| `Notifications.NotificationSync.Start` | core/notifications.py:17-20 | sets the device and `running`; the seen keys and toasts are kept |
| `Notifications.NotificationSync.Stop` | core/notifications.py:22-23 | only clears `running` |
| `Notifications.NotificationSync.ParseAndNotify` | core/notifications.py:53-78 | the cache and toasts become what the replay of the dump's lines from `Unknown` and the old cache gives; the cache stays within 50 keys |
| `Notifications.NotificationSync.ScanEvents` | core/notifications.py:56-78 | the line loop computes exactly the replay of the events |
| `Config.IndexOf` | core/config.py:75 | the position of the first item with the key, or the length when it is absent |
| `Config.GetAt` | core/config.py:75 | in a dictionary, the item at a position is what its key looks up |
| `Config.PutGet` | core/config.py:75 | `d[k] = v` makes `k` look up `v` and leaves every other key as it was |
| `Config.PutShape` | core/config.py:75 | `d[k] = v` keeps keys unique, overwrites in place, and appends only a new key |
| `Config.RemoveGet` | core/config.py:79-80 | `del d[k]` removes `k`, keeps every other key and the uniqueness of keys, and shrinks the dictionary by one iff `k` was present |
| `Config.FromPairsFacts` | core/config.py:64-65 | decoding the stored object always gives a dictionary, and decodes a dictionary to itself |
| `Config.Loaded` | core/config.py:60-67 | a stored `macros` value replaces the macros wholesale; a missing key, a missing file or a failed read keeps the current ones |
| `Config.LoadAfterSave` | core/config.py:60-72 | loading what `save` wrote gives the saved macros back, whatever was loaded before |
| `Config.DefaultsAreDictionaries` | core/config.py:39-52 | the default macros and the app shortcuts have distinct keys |
| `Config.ConfigManager.constructor` | core/config.py:55-58 | starts from copies of the defaults, then loads from the file found on disk |
| `Config.ConfigManager.Load` | core/config.py:60-67 | macros become `Loaded(file, old macros)`; the apps are untouched |
| `Config.ConfigManager.Save` | core/config.py:69-72 | the file holds exactly the macros |
| `Config.ConfigManager.AddMacro` | core/config.py:74-76 | the macros become `Put(old, name, text)`, then saved |
| `Config.ConfigManager.RemoveMacro` | core/config.py:78-81 | a present label is removed and saved; an absent one changes nothing and saves nothing |
| `Config.KeycodeRoundTrip` | core/config.py:17-37 | reading `SPECIAL_KEYS` backwards finds the key again, and only codes in the table have a key |
| `Config.SpecialKeysDistinct` | core/config.py:17-37 | no two PC keys share an Android key code |
| `AppWindow.DevicesOf` | ui/app_window.py:214 | at most one device per line, each a non-empty word without white space |
| `AppWindow.LineDevice` | ui/app_window.py:214 | a line yields a device iff it contains `device`, and the device is then a non-empty word without white space |
| `AppWindow.DevicesOfCovers` | ui/app_window.py:214 | no device is missed: every line containing `device` has its first word in the list |
| `AppWindow.DevicesOfLine` | ui/app_window.py:214 | a line contributes its first word iff it contains `device`, and nothing otherwise |
| `AppWindow.DevicesOfAppend` | ui/app_window.py:214 | the scan keeps line order: the devices of two runs of lines are those of each in turn |
| `AppWindow.ParseDevices` | ui/app_window.py:213-214 | fewer devices than lines in the stripped output, since the header line is dropped; every device is a non-empty space-free word |
| `AppWindow.ParseDevicesSkipsHeader` | ui/app_window.py:213-214 | the devices are those of every line of the stripped output but the first: the header line alone is skipped, and every later line containing `device` gives its first word |
| `AppWindow.WirelessLabel` | ui/app_window.py:255 | the label is the input itself iff it contains a colon, and the input with `:5555` otherwise |
| `AppWindow.PortedAddressDialledTwice` | core/engine.py:68 | an `ip:port` input is dialled with a second port, a target other than the device the list then shows |
| `AppWindow.WirelessTarget` | core/engine.py:68 | the corrected target adds `:5555` only to a bare address and keeps an address that has a port |
| `AppWindow.TargetMatchesLabel` | ui/app_window.py:251-255 | with the corrected target, the device dialled is the device the list shows, with exactly one port |
| `AppWindow.Dispatch` | ui/app_window.py:288-294 | a key sends a keyevent iff it is in `SPECIAL_KEYS`, with the code that maps back to it; space (named or typed) types a blank; a typed key types exactly its character, or the empty text when it has none; only unlisted named keys do nothing |
| `AppWindow.FirstMissing` | ui/app_window.py:155 | reading names in order from an object, the first missing one is reported: none iff every name is present, and otherwise a missing name with every earlier one present |
| `AppWindow.InitRaises` | ui/app_window.py:155 | as written, building the layout reads `setup_wireless_auto`, which `ADBEngine` lacks, so `__init__` raises before its scan |
| `AppWindow.InitBuildsWithWizard` | ui/app_window.py:155 | with an engine that offers the wizard, the layout is built and `__init__` goes on to its scan |
| `AppWindow.KeyBridgeWindow.constructor` | ui/app_window.py:17-26 | fresh, stopped engine and notifier, capture off, no devices listed, nothing logged |
| `AppWindow.KeyBridgeWindow.Open` | ui/app_window.py:17-34 | `__init__` over an engine with the given attributes: when the layout reads a missing engine attribute the result is that `AttributeError`; otherwise a fresh window with stopped engine and notifier, capture off, the devices of one scan listed with the first selected when there is one (none after a failed run), and the scan logged |
| `AppWindow.KeyBridgeWindow.FirstScan` | ui/app_window.py:34 | the scan that ends `__init__` leaves the window showing that scan: the devices listed, the first selected, the count or the error logged |
| `AppWindow.KeyBridgeWindow.RefreshDevices` | ui/app_window.py:210-219 | the combo box lists the parsed devices and selects the first only when there is one, and the count is logged; a failed run logs the error and changes neither |
| `AppWindow.KeyBridgeWindow.ToggleConnect` | ui/app_window.py:221-235 | running: engine stopped (process terminated, `status(False)`) and notifier stopped, queue and log kept. Stopped with a device selected: `connect` reports `False` then the outcome; on success a fresh live process for the device and the notifier started on it; on failure no process, the notifier untouched and `Connection Failed.` logged. No device: nothing changes |
| `AppWindow.KeyBridgeWindow.DoPairing` | ui/app_window.py:237-246 | an empty stripped field logs the error and calls nothing; otherwise the stripped fields go to pairing |
| `AppWindow.KeyBridgeWindow.ConnectIp` | ui/app_window.py:248-257 | a blank field does nothing. On success the success and the rescan are logged, the rescanned devices are listed and the wireless label is selected. On failure only the failure is logged |
| `AppWindow.KeyBridgeWindow.ToggleCapture` | ui/app_window.py:264-277 | refused while the engine is not running; otherwise capture flips and the new state is logged |
| `AppWindow.KeyBridgeWindow.StopCapture` | ui/app_window.py:279-286 | capture off, logged |
| `AppWindow.KeyBridgeWindow.OnKeyPress` | ui/app_window.py:288-294 | nothing while capture is off; otherwise the key's dispatched line is queued, and only while the engine runs |
| `AppWindow.KeyBridgeWindow.Heartbeat` | ui/app_window.py:314-320 | a running but unhealthy engine is stopped (dead process terminated, `status(False)`, queue kept) with the notifier and the loss logged; otherwise nothing changes; afterwards a running engine is healthy, so a loss is reported once per dead session |
| `Settings.Lines` | ui/settings_tab.py:29-32 | one list line `name : text` per macro, in dictionary order |
| `Settings.NameRecoveredIff` | ui/settings_tab.py:47-48 | the label read back from a line is the macro's name iff the name followed by a blank contains no `" : "` |
| `Settings.WrongMacroNamed` | ui/settings_tab.py:48 | the macro `a : b` is shown as `a : b : y` and read back as `a` |
| `Settings.WrongMacroRemoved` | ui/settings_tab.py:43-51 | with macros `a` and `a : b`, deleting the line of `a : b` removes `a` and keeps `a : b` |
| `Settings.SettingsTab.constructor` | ui/settings_tab.py:7-20 | the list box starts filled from the configuration |
| `Settings.SettingsTab.RefreshList` | ui/settings_tab.py:29-32 | the list box becomes exactly `Lines(macros)` |
| `Settings.SettingsTab.AddMacro` | ui/settings_tab.py:34-41 | a cancelled or empty label or text changes neither the macros nor the file; otherwise the macro is set and saved and the list kept in step |
| `Settings.SettingsTab.DelMacro` | ui/settings_tab.py:43-51 | no selection changes nothing; otherwise the label read out of the selected line is removed and the file saved if present, and nothing changes if absent; the list kept in step |
| `Settings.SettingsTab.DelSelected` | ui/settings_tab.py:43-51 | corrected delete: the macro shown on the selected line is the one removed and the file saved, and every other macro keeps its text |

## Left out

- Widgets, styles, dialogs and message boxes are left out. So are `ui/components.py`, `ui/support_dialog.py` and `main.py`. A dialog's answer is a parameter (`Option` for a cancellable one), and the combo box is reduced to its values and its text.
- Child processes, threads, the blocking `queue.get`, and the `root.after`/`time.sleep` timers are left out. The worker is a single step (`DeliverOne`) or a run until it would block (`RunWorker`). `stop` never queues the sentinel, so nothing claims that the worker ends on `stop`. A worker thread left blocked by an earlier session is not modelled.
- The process handle is a value, and `terminate` is recorded rather than performed. The exceptions that `stdin.write` may raise on a pipe that has just closed are not modelled. A write to a live process succeeds.
- `enable_wireless` is not part of this model: it is a one-shot run with no decision in it. The same goes for `_auto_find_ip`, `_beam_file`, the clipboard handlers, `_load_macros` and `set_status`.
- `engine.pair_device` is defined nowhere in `core/engine.py`. `_do_pairing` reads it only after both fields are filled in, and the `AttributeError` would then end that button handler; `DoPairing` returns the call it would make. `engine.setup_wireless_auto` is missing too, and ui/app_window.py:155 reads it while the layout is built (see Findings); the wizard itself is not modelled.
- `AppWindow.KeyBridgeWindow.Open`: as written, `__init__` raises `AttributeError` at ui/app_window.py:155, before the scan at :34 and before the heartbeat is scheduled at :35, so `main.py` never gets a window. `Open` states that outcome for the engine as written, and models the scanned window only for an engine with the missing attributes (`IntendedAttributes`). Everything else the model says about the window assumes such an engine. The heartbeat scheduling is left out.
- The engine's log messages are not modelled. `ConnectWirelessIp` and `GetDeviceIp` return their results without logging.
- The `_poll_loop` thread, `plyer`'s toast display and its errors are left out. Toasts are recorded in `toasts`. `_parse_and_notify`'s `try/except` never fires in the model, because none of its operations fails on a string.
- JSON encoding is left out: the file is the abstract `ConfigFile`. `os.path.exists` and a read failure are the `Absent` and `Unreadable` cases. A stored non-dictionary `macros` value is not modelled, nor is the global `cfg` instance created at import.
- The `pynput` listener is left out. Its key objects are `KeyPress` values, and `Key.space` is modelled as having no `char` attribute, as for an enumeration member. A key code whose `char` is `None` types `shlex.quote(None)`, which is `''`, the same as typing the empty text.
- `Engine.DriveLength` follows the drive rules of `ntpath` from Python 3.12 on. Earlier versions give `//server` and `///x` no drive, so there the base name is `server` and `x`, where the model gives the empty name. `os.path.basename` is modelled only on Windows, the platform that `CREATE_NO_WINDOW` assumes.
- `Engine.DigitRun`: `\d` is modelled as the ASCII digits, while Python's `re` on `str` also accepts other Unicode decimal digits.
- `Config.ConfigManager.Save`: `save` has no `try`, so a failed write escapes `add_macro` and `remove_macro` after the in-memory change (core/config.py:69-81); the model's write always succeeds.
- `Notifications.ReplayToastsNew`: the intended toasts are stated only while the cache does not overflow. Past 50 keys the cache is emptied and a notification seen before may be toasted again; `AnnounceToasts` and `ReplayBound` state that behaviour line by line.
- `Engine.LaunchCommand`: the read-back is stated only for a non-empty package name made of `shlex`-safe characters. `launch_app` does not quote the name, so other names are passed to the shell as written.

## Findings

| source | as written | input that shows it | evidently intended | confidence | as-written member | corrected member |
|---|---|---|---|---|---|---|
| core/engine.py:68 | `connect_wireless_ip` appends `:5555` to every input. The wireless tab asks for the phone's `IP:Port` and `_connect_ip` passes that text through. | `192.168.1.5:37000` is dialled as `192.168.1.5:37000:5555`, while the list then selects `192.168.1.5:37000` | add the default port only to a bare address, as `_connect_ip`'s label does | not executed | `AppWindow.PortedAddressDialledTwice` | `AppWindow.WirelessTarget` |
| ui/settings_tab.py:48 | `_del_macro` recovers the label as `item.split(" : ")[0]` | with macros `a` → `x` and `a : b` → `y`, deleting the line `a : b : y` removes `a` and leaves `a : b` | delete the macro on the selected line | not executed | `Settings.WrongMacroRemoved` | `Settings.SettingsTab.DelSelected` |
| ui/app_window.py:155 | `_init_wireless_tab` passes `self.engine.setup_wireless_auto` as the wizard button's command while `__init__` builds the layout, and `ADBEngine` defines no such attribute | any start of the app: `KeyBridgeWindow(root)` raises `AttributeError` at :155, before the device scan and the heartbeat | an engine that offers the USB wizard, so the window is built and scans for devices | not executed | `AppWindow.InitRaises` | `AppWindow.InitBuildsWithWizard` |
