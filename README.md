# Osu! Dual State Mapper — a Dafny model of the remapping core

The mapper installs system-wide low-level keyboard and mouse hooks and turns
one physical input (a key or a mouse button) into taps of one keyboard key,
but only while a window whose title contains "osu!" has focus. Both the press
edge and the release edge of the physical input produce a full tap of the
output key: a synthetic release followed by a synthetic press. The same two
hook callbacks also serve the capture flow that learns the source and then
the output key.

The model has four modules:

- `Win32` (`win32.dfy`) holds the window-message constants, the C# `byte` and
  its unchecked cast, and the pure helpers. These are `IsMouseDown`,
  `IsMouseButtonMessage` (its `out isDown` becomes the second half of a
  result pair), the Z/X scan-code lookup and `GetMouseButtonName`. The last
  one comes with the decimal formatting of `{button}`.
- `FocusGate` (`focus.dfy`) holds `IsOsuActive` as a predicate over the
  foreground window's title. The title is read into a 256-character buffer,
  so only its first 255 characters are seen. It is lower-cased (ASCII) and
  searched for "osu!" with an ordinal substring search.
- `Remap` (`remap.dfy`) holds the mapper's fields as a value (`State`) and
  each callback as a function from state and event to an `Outcome`. An
  outcome is the new state, the decision (`Suppress` for the `(IntPtr)1`
  return, `PassThrough` for `CallNextHookEx`) and the synthetic key events
  sent. It also holds the run of a sequence of events, the input classifier
  over the `InputSource` tagged union, and the lemmas.
- `Hooks` (`hooks.dfy`) holds class `Mapper`, whose fields are the static
  fields of the program. Each `keybd_event` call is appended to the `sent`
  field. `KeyboardHookCallback` and `MouseHookCallback` update the fields in
  place, statement by statement as the source does. Each is proved to end in
  exactly the state, decision and sent events that `Remap.KeyboardStep` or
  `Remap.MouseStep` gives for the old state. So every lemma of `Remap` is a
  statement about the callbacks.

Environment inputs become parameters. Each callback receives the hook code,
the message and (for the keyboard) the virtual key as plain integers, plus
the foreground window's full title as a string. The title is what
`GetForegroundWindow` points at before `GetWindowText` reads it; the model
applies the read's 255-character cut itself (`FocusGate.WindowText`).

Notable behaviour of the code, kept as written:

- While the game is unfocused, a matching event passes through and
  `isInputPressed` is not updated (`Remap.MatchingEvent`,
  `Remap.NoOutputWithoutFocus`). A release missed while unfocused therefore
  leaves the source recorded as pressed.
- The mouse callback never looks at `waitingForOutput`. A mouse source
  therefore keeps remapping while the output key is being captured
  (`Remap.MouseIgnoresOutputCapture`).
- Input capture takes any keyboard event, a key release included
  (`Remap.KeyboardCapturesInput`).
- Every keyboard message other than `WM_KEYDOWN` reads as a release, for
  example `WM_SYSKEYDOWN` (`Remap.Classify`).

## Model

| member | source | states |
|---|---|---|
| `Win32.ToByte` | src/Program.cs:203 | the `(byte)outputKey` cast keeps `x` modulo 256, and is the identity on 0..255 |
| `Win32.IsMouseButtonMessage` | src/Program.cs:316-340 | the message belongs to the target button iff the target is one of the four down messages and the message is that down message or the one after it (its up message); `isDown` iff it is the down message itself; any other target gives (false, false) |
| `Win32.MouseDownIsOwnButton` | src/Program.cs:310-314 | a message is a button-down iff it is the down edge of its own button; the message after a down message is that button's release and never a down message |
| `Win32.ScanCodeFor` | src/Program.cs:228-233 | the scan code is non-zero exactly for Z (0x5A gives 0x2C) and X (0x58 gives 0x2D), and zero for every other key |
| `Win32.DecimalRoundTrip` | src/Program.cs:129 | the decimal text of an int (minus sign, digits) reads back as the same int |
| `Win32.MouseButtonNameInjective` | src/Program.cs:116-131 | two different buttons never get the same description, and the four known buttons are exactly the ones not described as "Mouse Button n" |
| `FocusGate.WindowText` | src/Program.cs:178-182 | the text read from the window is the title's prefix of length at most 255 (the 256-character buffer less its terminator) |
| `FocusGate.LowerAscii` | src/Program.cs:184 | lower-casing keeps the length and lowers each character |
| `FocusGate.ContainsIffOccurs` | src/Program.cs:184 | the substring search succeeds iff the pattern occurs at some index of the text |
| `FocusGate.IsOsuActiveIffMarker` | src/Program.cs:176-187 | the game counts as focused iff "osu!", in any ASCII case, occurs in the title and ends within its first 255 characters |
| `FocusGate.EmptyTitleIsNotActive` | src/Program.cs:182-186 | an empty (or unreadable) title is never focused |
| `FocusGate.IsOsuActiveIgnoresCase` | src/Program.cs:184 | lower-casing the title first does not change the gate's answer |
| `FocusGate.GameTitlesAreActive` | src/Program.cs:184 | "osu!" and "OSU! (Beta)" pass the gate |
| `Win32.IsMouseDown` | src/Program.cs:310-314 | definition (one of the four button-down messages); its properties are stated by `MouseDownIsOwnButton` and `IsMouseButtonMessage` |
| `Win32.MouseButtonName` | src/Program.cs:116-131 | definition (fixed names for the four buttons, "Mouse Button n" otherwise); its properties are stated by `MouseButtonNameInjective` |
| `FocusGate.Contains` | src/Program.cs:184 | a match needs a text at least as long as the pattern, and the empty pattern always matches; `ContainsIffOccurs` gives the full characterisation |
| `FocusGate.IsOsuActive` | src/Program.cs:176-187 | a focused title is at least as long as "osu!"; `IsOsuActiveIffMarker` gives the full characterisation |
| `Remap.Engage` | src/Program.cs:240-257 | unfocused: pass through, state kept; focused: suppress and the press state takes the edge's level; one tap is sent iff focused and the level is new, and never anything but one tap |
| `Remap.KeyboardStep` | src/Program.cs:211-261 | a pass-through changes nothing and sends nothing; what is sent is nothing or one tap, and only for the configured keyboard key while focused |
| `Remap.MouseStep` | src/Program.cs:263-308 | a pass-through changes nothing and sends nothing; what is sent is nothing or one tap, and only for a message of the configured mouse button while focused |
| `Remap.Classify` | src/Program.cs:216 | every keyboard event is an edge of its key, down iff the message is `WM_KEYDOWN`; a mouse message is classified iff it belongs to some button, and then as that button's edge with the same down flag as `IsMouseButtonMessage` |
| `Remap.SelfMappingIffSameKey` | src/Program.cs:96 | the self-mapping warning fires iff the source is the keyboard key that is also the output key, so never for a mouse source |
| `Remap.NegativeCodeIsIgnored` | src/Program.cs:213-260 | with `nCode < 0` either callback passes the event on, changes no field and sends nothing |
| `Remap.PassThroughHasNoEffect` | src/Program.cs:307 | whenever a callback passes an event on, it has changed no field and sent nothing |
| `Remap.EmissionIsOneTap` | src/Program.cs:245-257 | a callback sends either nothing or exactly one tap `[up, down]` of the output key; it sends only for a focused, non-negative-code edge of the configured source whose level differs from the press state, and then it flips the press state, changes nothing else and suppresses |
| `Remap.KeyboardCapturesInput` | src/Program.cs:218-224 | while waiting for input, any keyboard event, down or up, becomes the keyboard source and clears the flag; it is suppressed, nothing is sent and no other field changes |
| `Remap.KeyboardCapturesOutput` | src/Program.cs:225-235 | while waiting for the output only, a keyboard event sets the output key and its scan code and clears the flag; it is suppressed, nothing is sent and no other field changes |
| `Remap.MouseCapturesInput` | src/Program.cs:269-279 | while waiting for input, a button-down becomes the mouse source and is suppressed; every other mouse message passes on with no change |
| `Remap.MouseIgnoresOutputCapture` | src/Program.cs:263-308 | the mouse callback's decision, output and changes are the same whether or not the output key is being captured |
| `Remap.RemapIsUniform` | src/Program.cs:238-305 | with no capture pending, both callbacks run one engine over classified events: an edge of the configured source goes to the edge-triggered engine, anything else passes on untouched |
| `Remap.MatchingEvent` | src/Program.cs:240-257 | for an edge of the configured source: unfocused, it passes on and the press state is kept; focused, it is suppressed, the press state takes the edge's level, and one tap is sent iff that level is new (a repeat sends nothing) |
| `Remap.NonMatchingPassesThrough` | src/Program.cs:281-307 | an event that is not an edge of the configured source (another key, a keyboard event for a mouse source, a mouse event for a keyboard source, an unrelated mouse message) passes on with no change |
| `Remap.CaptureDeterminesMapping` | src/Program.cs:141-174 | after the input flag and one event, then the output flag and one key event, the mapping is determined by those two events alone; both flags are clear, the press state is kept, and the warning fires iff both events named the same key |
| `Remap.IdleStep` | src/Program.cs:238-258 | with no capture pending, one event changes at most the press state, to its edge's level, and sends one tap iff that level is new |
| `Remap.TapsMatchEdges` | src/Program.cs:245-257 | over any sequence of events with no capture pending, what is sent is one tap per genuine edge (press while released, release while pressed) of the source among the focused events, and the only change is the press state, which ends at the last such level |
| `Remap.SentCountIsTwiceEdges` | src/Program.cs:199-209 | the number of synthetic key events sent is twice the number of genuine edges |
| `Remap.NoOutputWithoutFocus` | src/Program.cs:240-243 | while the game is never focused nothing is sent, whatever is being captured, and the press state never changes |
| `Remap.KeyboardScenario` | src/Program.cs:211-261 | source a, output b, focused: a press sends [up b, down b], an auto-repeat sends nothing, the release sends [up b, down b] again and leaves the source released |
| `Remap.UnfocusedScenario` | src/Program.cs:240-243 | the same press and release with the game unfocused send nothing |
| `Hooks.Mapper.constructor` | src/Program.cs:29-35 | the fields start as the initial state and nothing has been sent |
| `Hooks.Mapper.StartInputCapture` | src/Program.cs:82 | only `waitingForInput` is raised |
| `Hooks.Mapper.StartOutputCapture` | src/Program.cs:92 | only `waitingForOutput` is raised |
| `Hooks.Mapper.IsSelfMapped` | src/Program.cs:159 | the warning is raised iff the configured source is the keyboard key equal to the output key |
| `Hooks.Mapper.SendKey` | src/Program.cs:199-209 | one key event for the output key, with its scan code and the key-up flag iff not a press, is appended to what was sent |
| `Hooks.Mapper.KeyboardHookCallback` | src/Program.cs:211-261 | the new fields, the decision and the events appended are exactly `Remap.KeyboardStep` of the old fields |
| `Hooks.Mapper.MouseHookCallback` | src/Program.cs:263-308 | the new fields, the decision and the events appended are exactly `Remap.MouseStep` of the old fields |
| `Hooks.CaptureThenRemap` | src/Program.cs:141-161 | a fresh mapper configured through the hooks as A to B, then given a focused press, auto-repeat and release of A, has sent exactly two taps of B and ends released |

## Left out

- The P/Invoke declarations and the hook installation and removal (`SetWindowsHookEx`, `UnhookWindowsHookEx`). These are foreign operating-system calls. `CallNextHookEx` becomes the `PassThrough` decision and `keybd_event` becomes an append to `sent`.
- `GetForegroundWindow` and `GetWindowText` are foreign calls. The `title` parameter is the window's full title before the read; the model cuts it to 255 characters and treats an empty result as no title.
- `title`, `WindowText`, `IsOsuActive`: the model reads the title as Unicode characters. `GetWindowText` is declared without a `CharSet` (src/Program.cs:364-365), so the program calls the ANSI variant. That variant converts the title to the system code page, replaces characters the code page lacks, and counts the 256-unit buffer in code-page bytes. On a double-byte code page the program therefore sees fewer characters than the model does. For example, 200 CJK characters followed by " osu!" exceed 255 bytes, so the program reports the game as not focused while the model reports it focused. `title` stands for the title as the ANSI read would return it, and the 255 cut is counted in its units.
- `Marshal.ReadInt32(lParam)` is pointer access; the virtual key arrives as an integer. `IntPtr` width and the overflow `wParam.ToInt32()` could raise are not modelled, because message codes are small integers.
- `Main`'s console loop, `Console.ReadKey`, the Ctrl-C handler and the 500 ms debounce of the remap command. These are console input and wall-clock time.
- The busy-poll capture flows `SetupInitialMapping` and `Remap`: their sleeps, their waits on the exit event and the recursive retry on 'R'. They coordinate threads and the operator. Only the flag raises (`Mapper.StartInputCapture`, `Mapper.StartOutputCapture`) and the self-mapping check are modelled.
- Concurrency between the hook thread and the console thread. Each callback is modelled as one atomic step.
- `ShowCurrentMapping` and `ShowMenu`, including the `X2` hex formatting. These are presentation only; `GetMouseButtonName` is modelled.
- The exception handling in `SendKey`. It guards a foreign call and has no meaning in the model; every call is recorded as sent.
- The culture-sensitive `ToLower`. The model lowers ASCII letters only.
- Synthetic key events re-entering the keyboard hook. Windows passes injected events through low-level hooks, so with a self-mapping the mapper sees its own output; the model does not feed `sent` back into the callbacks.
