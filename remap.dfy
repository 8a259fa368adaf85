/** The input-remapping state machine that the keyboard and mouse hook
    callbacks share, written as functions over a value of its state. The
    callbacks of the Hooks module are proved to follow these functions. */
module Remap {
  import opened Win32
  import opened FocusGate

  datatype Option<T> = None | Some(value: T)

  /** What a hook callback returns: `(IntPtr)1` swallows the event,
      `CallNextHookEx` passes it on to the rest of the system. */
  datatype Decision = Suppress | PassThrough

  /** One `keybd_event` call: virtual key, scan code, and whether the
      KEYEVENTF_KEYUP flag is set. */
  datatype KeyEvent = KeyEvent(key: byte, scanCode: byte, isUp: bool)

  /** The mapper's shared fields. `inputKey` is a virtual-key code when
      `isInputMouse` is false and a button-down message otherwise. */
  datatype State = State(
    isInputPressed: bool,
    inputKey: int,
    isInputMouse: bool,
    outputKey: int,
    outputScanCode: byte,
    waitingForInput: bool,
    waitingForOutput: bool)

  /** The fields' initial values. */
  const Initial: State := State(false, 0, false, 0, 0, false, false)

  /** The result of one callback: new state, decision, and the synthetic key
      events it sent, in order. */
  datatype Outcome = Outcome(state: State, decision: Decision, emitted: seq<KeyEvent>)

  /** A raw hook notification: the low-level keyboard hook's code, message and
      virtual key, or the mouse hook's code and message. `title` is the
      foreground window's title at the time of the call. */
  datatype Event =
    | KeyboardEvent(nCode: int, wParam: int, vkCode: int, title: string)
    | MouseEvent(nCode: int, message: int, title: string)

  /** Passing the event on, with no other effect. */
  function PassOn(s: State): Outcome
  {
    Outcome(s, PassThrough, [])
  }

  /** The event SendKey(isKeyDown) sends for the configured output key. */
  function SendKey(s: State, isKeyDown: bool): KeyEvent
  {
    KeyEvent(ToByte(s.outputKey), s.outputScanCode, !isKeyDown)
  }

  /** One output tap: release, then press. */
  function Tap(s: State): seq<KeyEvent>
  {
    [SendKey(s, false), SendKey(s, true)]
  }

  /** The edge-triggered part both callbacks run for an event of the
      configured source. */
  function Engage(s: State, isDown: bool, focused: bool): (o: Outcome)
    ensures o.decision == PassThrough <==> !focused
    ensures !focused ==> o.state == s
    ensures focused ==> o.state == s.(isInputPressed := isDown)
    ensures o.emitted != [] <==> focused && isDown != s.isInputPressed
    ensures o.emitted == [] || o.emitted == Tap(s)
  {
    if !focused then PassOn(s)
    else if isDown && !s.isInputPressed then Outcome(s.(isInputPressed := true), Suppress, Tap(s))
    else if !isDown && s.isInputPressed then Outcome(s.(isInputPressed := false), Suppress, Tap(s))
    else Outcome(s, Suppress, [])
  }

  /** KeyboardHookCallback. Any message other than WM_KEYDOWN reads as a release. */
  function KeyboardStep(s: State, nCode: int, wParam: int, vkCode: int, title: string): (o: Outcome)
    ensures o.decision == PassThrough ==> o == PassOn(s)
    ensures o.emitted == [] || o.emitted == Tap(s)
    ensures o.emitted != [] ==> !s.isInputMouse && vkCode == s.inputKey && IsOsuActive(title)
  {
    if nCode < 0 then PassOn(s)
    else if s.waitingForInput then
      Outcome(s.(inputKey := vkCode, isInputMouse := false, waitingForInput := false), Suppress, [])
    else if s.waitingForOutput then
      Outcome(s.(outputKey := vkCode, outputScanCode := ScanCodeFor(vkCode), waitingForOutput := false), Suppress, [])
    else if !s.isInputMouse && vkCode == s.inputKey then
      Engage(s, wParam == WM_KEYDOWN, IsOsuActive(title))
    else PassOn(s)
  }

  /** MouseHookCallback. It never looks at `waitingForOutput`. */
  function MouseStep(s: State, nCode: int, message: int, title: string): (o: Outcome)
    ensures o.decision == PassThrough ==> o == PassOn(s)
    ensures o.emitted == [] || o.emitted == Tap(s)
    ensures o.emitted != [] ==> s.isInputMouse && IsMouseButtonMessage(message, s.inputKey).isButton && IsOsuActive(title)
  {
    if nCode < 0 then PassOn(s)
    else if s.waitingForInput then
      if IsMouseDown(message) then
        Outcome(s.(inputKey := message, isInputMouse := true, waitingForInput := false), Suppress, [])
      else PassOn(s)
    else if s.isInputMouse && IsMouseButtonMessage(message, s.inputKey).isButton then
      Engage(s, IsMouseButtonMessage(message, s.inputKey).isDown, IsOsuActive(title))
    else PassOn(s)
  }

  /** The callback the event is delivered to. */
  function Step(s: State, e: Event): Outcome
  {
    match e
    case KeyboardEvent(nCode, wParam, vkCode, title) => KeyboardStep(s, nCode, wParam, vkCode, title)
    case MouseEvent(nCode, message, title) => MouseStep(s, nCode, message, title)
  }

  datatype Trace = Trace(final: State, emitted: seq<KeyEvent>)

  /** Delivering a sequence of events one after the other. */
  function Run(s: State, events: seq<Event>): Trace
    decreases |events|
  {
    if events == [] then Trace(s, [])
    else
      var o := Step(s, events[0]);
      var t := Run(o.state, events[1..]);
      Trace(t.final, o.emitted + t.emitted)
  }

  // ---------------------------------------------------------------------
  // The capture flags and the self-mapping check

  /** The capture flow raising `waitingForInput` for the hook to see. */
  function StartInputCapture(s: State): State
  {
    s.(waitingForInput := true)
  }

  /** The capture flow raising `waitingForOutput` for the hook to see. */
  function StartOutputCapture(s: State): State
  {
    s.(waitingForOutput := true)
  }

  predicate Idle(s: State)
  {
    !s.waitingForInput && !s.waitingForOutput
  }

  /** The warning condition of the capture flow: a key mapped to itself. */
  predicate IsSelfMapping(s: State)
  {
    !s.isInputMouse && s.inputKey == s.outputKey
  }

  // ---------------------------------------------------------------------
  // A uniform view of the two kinds of source

  /** The physical input being watched. */
  datatype InputSource = Keyboard(code: int) | MouseButton(code: int)

  function SourceOf(s: State): InputSource
  {
    if s.isInputMouse then MouseButton(s.inputKey) else Keyboard(s.inputKey)
  }

  /** A raw notification read as an edge of a source; a mouse button is named
      by its down message. */
  datatype Classified = Classified(source: InputSource, isDown: bool)

  /** Input classifier: every keyboard notification is an edge of its key;
      a mouse notification is an edge only for the four buttons' down and up
      messages (movement, wheel and the rest classify as nothing). */
  function Classify(e: Event): (c: Option<Classified>)
    ensures e.KeyboardEvent? ==> c == Some(Classified(Keyboard(e.vkCode), e.wParam == WM_KEYDOWN))
    ensures e.MouseEvent? && c.Some? ==>
      c.value.source.MouseButton? && IsMouseButtonMessage(e.message, c.value.source.code).isButton &&
      c.value.isDown == IsMouseButtonMessage(e.message, c.value.source.code).isDown
    ensures e.MouseEvent? ==> (c.Some? <==> exists b :: IsMouseButtonMessage(e.message, b).isButton)
  {
    match e
    case KeyboardEvent(_, wParam, vkCode, _) => Some(Classified(Keyboard(vkCode), wParam == WM_KEYDOWN))
    case MouseEvent(_, message, _) =>
      if IsMouseDown(message) then Some(Classified(MouseButton(message), true))
      else if IsMouseDown(message - 1) then Some(Classified(MouseButton(message - 1), false))
      else None
  }

  /** The self-mapping warning fires exactly when the source is the keyboard
      key that is also the output key; a mouse source never triggers it. */
  lemma SelfMappingIffSameKey(s: State)
    ensures IsSelfMapping(s) <==> SourceOf(s) == Keyboard(s.outputKey)
    ensures s.isInputMouse ==> !IsSelfMapping(s)
  {
  }

  // ---------------------------------------------------------------------
  // One event

  /** A callback given a negative hook code does nothing but pass the event on. */
  lemma NegativeCodeIsIgnored(s: State, e: Event)
    requires e.nCode < 0
    ensures Step(s, e) == PassOn(s)
  {
  }

  /** Passing an event on never has a side effect. */
  lemma PassThroughHasNoEffect(s: State, e: Event)
    ensures Step(s, e).decision == PassThrough ==> Step(s, e) == PassOn(s)
  {
  }

  /** Whatever a callback sends is exactly one tap of the configured output
      key, and it sends one only for a genuine edge of the source while the
      game is focused: the press state flips and the event is swallowed. */
  lemma EmissionIsOneTap(s: State, e: Event)
    ensures Step(s, e).emitted == [] || Step(s, e) == Outcome(s.(isInputPressed := !s.isInputPressed), Suppress, Tap(s))
    ensures Step(s, e).emitted != [] ==>
      e.nCode >= 0 && IsOsuActive(e.title) && !s.waitingForInput &&
      Classify(e).Some? && Classify(e).value.source == SourceOf(s) &&
      Classify(e).value.isDown != s.isInputPressed
  {
    var o := Step(s, e);
    if o.emitted != [] && e.MouseEvent? {
      MouseDownIsOwnButton(s.inputKey);
    }
  }

  /** While waiting for the input source, any keyboard event (a release too)
      becomes the source and is swallowed; nothing else changes. */
  lemma KeyboardCapturesInput(s: State, nCode: int, wParam: int, vkCode: int, title: string)
    requires nCode >= 0 && s.waitingForInput
    ensures KeyboardStep(s, nCode, wParam, vkCode, title) ==
      Outcome(s.(inputKey := vkCode, isInputMouse := false, waitingForInput := false), Suppress, [])
    ensures SourceOf(KeyboardStep(s, nCode, wParam, vkCode, title).state) == Keyboard(vkCode)
  {
  }

  /** While waiting for the output key only, a keyboard event becomes the
      output key with its scan code and is swallowed; nothing else changes. */
  lemma KeyboardCapturesOutput(s: State, nCode: int, wParam: int, vkCode: int, title: string)
    requires nCode >= 0 && !s.waitingForInput && s.waitingForOutput
    ensures KeyboardStep(s, nCode, wParam, vkCode, title) ==
      Outcome(s.(outputKey := vkCode, outputScanCode := ScanCodeFor(vkCode), waitingForOutput := false), Suppress, [])
  {
  }

  /** While waiting for the input source, a mouse button-down becomes the
      source and is swallowed; every other mouse message passes untouched. */
  lemma MouseCapturesInput(s: State, nCode: int, message: int, title: string)
    requires nCode >= 0 && s.waitingForInput
    ensures IsMouseDown(message) ==>
      MouseStep(s, nCode, message, title) ==
        Outcome(s.(inputKey := message, isInputMouse := true, waitingForInput := false), Suppress, [])
    ensures IsMouseDown(message) ==> SourceOf(MouseStep(s, nCode, message, title).state) == MouseButton(message)
    ensures !IsMouseDown(message) ==> MouseStep(s, nCode, message, title) == PassOn(s)
  {
  }

  /** The mouse callback behaves the same whether or not the output key is
      being captured: a mouse source still remaps during output capture. */
  lemma MouseIgnoresOutputCapture(s: State, nCode: int, message: int, title: string)
    ensures var o, o' := MouseStep(s, nCode, message, title),
                         MouseStep(s.(waitingForOutput := !s.waitingForOutput), nCode, message, title);
      o.decision == o'.decision && o.emitted == o'.emitted &&
      o.state == o'.state.(waitingForOutput := s.waitingForOutput)
  {
  }

  /** With no capture pending, both callbacks implement one remap engine over
      classified events: an edge of the configured source goes to the
      edge-triggered engine, and everything else passes through untouched. */
  lemma RemapIsUniform(s: State, e: Event)
    requires Idle(s) && e.nCode >= 0
    ensures var c := Classify(e);
      Step(s, e) ==
        if c.Some? && c.value.source == SourceOf(s) then Engage(s, c.value.isDown, IsOsuActive(e.title))
        else PassOn(s)
  {
    if e.MouseEvent? {
      MouseDownIsOwnButton(s.inputKey);
      MouseDownIsOwnButton(e.message);
    }
  }

  /** An edge of the configured source: while the game is focused the event is
      swallowed, the press state takes the edge's level, and one tap is sent
      exactly when that level differs from the recorded one (a repeat sends
      nothing); while it is not focused the event passes through and the
      press state is left as it was. */
  lemma MatchingEvent(s: State, e: Event, isDown: bool)
    requires Idle(s) && e.nCode >= 0
    requires Classify(e) == Some(Classified(SourceOf(s), isDown))
    ensures !IsOsuActive(e.title) ==> Step(s, e) == PassOn(s)
    ensures IsOsuActive(e.title) ==>
      Step(s, e) == Outcome(s.(isInputPressed := isDown), Suppress,
                            if isDown != s.isInputPressed then Tap(s) else [])
  {
    RemapIsUniform(s, e);
  }

  /** An event that is not an edge of the configured source passes through with
      no effect: another key, a keyboard event for a mouse source, a mouse event
      for a keyboard source, or an unrelated mouse message. */
  lemma NonMatchingPassesThrough(s: State, e: Event)
    requires Idle(s)
    requires Classify(e).None? || Classify(e).value.source != SourceOf(s)
    ensures Step(s, e) == PassOn(s)
  {
    if e.nCode >= 0 {
      RemapIsUniform(s, e);
    }
  }

  /** The capture sequence: after the input flag is raised, one keyboard event
      or mouse button-down sets the source; after the output flag is raised,
      one keyboard event sets the output key. The resulting mapping depends
      only on those two events, not on the state before, and it is a
      self-mapping exactly when both events named the same key. */
  lemma CaptureDeterminesMapping(s: State, first: Event, second: Event)
    requires first.nCode >= 0 && (first.KeyboardEvent? || IsMouseDown(first.message))
    requires second.KeyboardEvent? && second.nCode >= 0
    ensures var s1 := Step(StartInputCapture(s), first).state;
            var s2 := Step(StartOutputCapture(s1), second).state;
      Idle(s2) &&
      Classify(first).Some? && SourceOf(s2) == Classify(first).value.source &&
      s2.outputKey == second.vkCode && s2.outputScanCode == ScanCodeFor(second.vkCode) &&
      s2.isInputPressed == s.isInputPressed &&
      (IsSelfMapping(s2) <==> first.KeyboardEvent? && first.vkCode == second.vkCode)
  {
  }

  // ---------------------------------------------------------------------
  // Sequences of events

  /** The level of an edge of `source` that reaches the engine: an event with a
      non-negative code, delivered while the game is focused. */
  function EdgeOf(source: InputSource, e: Event): Option<bool>
  {
    var c := Classify(e);
    if e.nCode >= 0 && IsOsuActive(e.title) && c.Some? && c.value.source == source
    then Some(c.value.isDown) else None
  }

  /** The levels of the edges of `source` that reach the engine. */
  function Levels(source: InputSource, events: seq<Event>): seq<bool>
    decreases |events|
  {
    if events == [] then []
    else
      var edge := EdgeOf(source, events[0]);
      (if edge.Some? then [edge.value] else []) + Levels(source, events[1..])
  }

  /** With no capture pending, one event changes at most the press state, to
      the level of the edge it carries, and sends one tap when that level is new. */
  lemma IdleStep(s: State, e: Event)
    requires Idle(s)
    ensures var edge, o := EdgeOf(SourceOf(s), e), Step(s, e);
      o.state == (if edge.Some? then s.(isInputPressed := edge.value) else s) &&
      o.emitted == (if edge.Some? && edge.value != s.isInputPressed then Tap(s) else [])
  {
    if e.nCode >= 0 {
      RemapIsUniform(s, e);
    }
  }

  /** The number of genuine edges in a sequence of levels starting from
      `level`: a press while released or a release while pressed. */
  function Changes(level: bool, levels: seq<bool>): nat
    decreases |levels|
  {
    if levels == [] then 0
    else (if levels[0] != level then 1 else 0) + Changes(levels[0], levels[1..])
  }

  /** The level after a sequence of levels. */
  function FinalLevel(level: bool, levels: seq<bool>): bool
  {
    if levels == [] then level else levels[|levels| - 1]
  }

  /** `n` copies of `tap`, one after the other. */
  function Repeat(tap: seq<KeyEvent>, n: nat): seq<KeyEvent>
  {
    if n == 0 then [] else tap + Repeat(tap, n - 1)
  }

  lemma {:induction false} RepeatLength(tap: seq<KeyEvent>, n: nat)
    ensures |Repeat(tap, n)| == |tap| * n
  {
    if n > 0 {
      RepeatLength(tap, n - 1);
    }
  }

  /** With no capture pending, the output over any sequence of events is one
      tap per genuine edge of the source and nothing else; afterwards only the
      press state has changed, to the level of the last edge that reached the
      engine. */
  lemma {:induction false} TapsMatchEdges(s: State, events: seq<Event>)
    requires Idle(s)
    ensures var levels := Levels(SourceOf(s), events);
      Run(s, events).emitted == Repeat(Tap(s), Changes(s.isInputPressed, levels)) &&
      Run(s, events).final == s.(isInputPressed := FinalLevel(s.isInputPressed, levels))
    decreases |events|
  {
    if events != [] {
      var o := Step(s, events[0]);
      IdleStep(s, events[0]);
      TapsMatchEdges(o.state, events[1..]);
      assert SourceOf(o.state) == SourceOf(s) && Tap(o.state) == Tap(s);
      AddEdge(s.isInputPressed, EdgeOf(SourceOf(s), events[0]), Levels(SourceOf(s), events[1..]), Tap(s));
    }
  }

  /** Prepending one possible edge to a sequence of levels: the taps for the
      edge, followed by those for the rest, are the taps for the whole. */
  lemma AddEdge(level: bool, edge: Option<bool>, rest: seq<bool>, tap: seq<KeyEvent>)
    ensures var next := if edge.Some? then edge.value else level;
            var levels := (if edge.Some? then [edge.value] else []) + rest;
      (if edge.Some? && edge.value != level then tap else []) + Repeat(tap, Changes(next, rest))
        == Repeat(tap, Changes(level, levels)) &&
      FinalLevel(next, rest) == FinalLevel(level, levels)
  {
    if edge.Some? {
      var levels := [edge.value] + rest;
      assert levels[0] == edge.value && levels[1..] == rest;
    } else {
      assert [] + rest == rest;
    }
  }

  /** Over any sequence of events, twice as many key events are sent as there
      are genuine edges. */
  lemma SentCountIsTwiceEdges(s: State, events: seq<Event>)
    requires Idle(s)
    ensures |Run(s, events).emitted| == 2 * Changes(s.isInputPressed, Levels(SourceOf(s), events))
  {
    TapsMatchEdges(s, events);
    RepeatLength(Tap(s), Changes(s.isInputPressed, Levels(SourceOf(s), events)));
  }

  /** While the game is never focused nothing is ever sent, whatever is being
      captured, and the press state is never updated. */
  lemma {:induction false} NoOutputWithoutFocus(s: State, events: seq<Event>)
    requires forall i :: 0 <= i < |events| ==> !IsOsuActive(events[i].title)
    ensures Run(s, events).emitted == []
    ensures Run(s, events).final.isInputPressed == s.isInputPressed
    decreases |events|
  {
    if events != [] {
      EmissionIsOneTap(s, events[0]);
      NoOutputWithoutFocus(Step(s, events[0]).state, events[1..]);
    }
  }

  /** The keyboard scenario, for any source key `a`, any output key `b` and
      any title that passes the focus gate (for instance source A = 0x41,
      output B = 0x42, title "osu!"): the press sends [up b, down b], an
      auto-repeat sends nothing, the release sends [up b, down b] again. */
  lemma KeyboardScenario(a: int, b: int, title: string)
    requires 0 <= b < 0x100 && IsOsuActive(title)
    ensures var s := Initial.(inputKey := a, outputKey := b, outputScanCode := ScanCodeFor(b));
            var down, up := KeyboardEvent(0, WM_KEYDOWN, a, title), KeyboardEvent(0, WM_KEYUP, a, title);
            var tap := [KeyEvent(b as byte, ScanCodeFor(b), true), KeyEvent(b as byte, ScanCodeFor(b), false)];
      Run(s, [down]).emitted == tap && Run(s, [down]).final.isInputPressed &&
      Run(s, [down, down]).emitted == tap &&
      Run(s, [down, down, up]).emitted == tap + tap && !Run(s, [down, down, up]).final.isInputPressed
  {
    var s := Initial.(inputKey := a, outputKey := b, outputScanCode := ScanCodeFor(b));
    var down, up := KeyboardEvent(0, WM_KEYDOWN, a, title), KeyboardEvent(0, WM_KEYUP, a, title);
    assert EdgeOf(SourceOf(s), down) == Some(true);
    assert EdgeOf(SourceOf(s), up) == Some(false);
    var events := [down, down, up];
    assert Levels(SourceOf(s), events[2..]) == [false];
    assert Levels(SourceOf(s), events[1..]) == [true, false];
    assert Levels(SourceOf(s), events[..2][1..]) == [true];
    assert Levels(SourceOf(s), events[..2]) == [true, true];
    assert Levels(SourceOf(s), events) == [true, true, false];
    TapsMatchEdges(s, [down]);
    TapsMatchEdges(s, events[..2]);
    TapsMatchEdges(s, events);
    assert Changes(false, [true, true, false]) == 2;
    assert Repeat(Tap(s), 2) == Tap(s) + Tap(s);
  }

  /** The same events with the game not focused send nothing. */
  lemma UnfocusedScenario(a: int, b: int, title: string)
    requires !IsOsuActive(title)
    ensures var s := Initial.(inputKey := a, outputKey := b, outputScanCode := ScanCodeFor(b));
      Run(s, [KeyboardEvent(0, WM_KEYDOWN, a, title), KeyboardEvent(0, WM_KEYUP, a, title)]).emitted == []
  {
    var s := Initial.(inputKey := a, outputKey := b, outputScanCode := ScanCodeFor(b));
    NoOutputWithoutFocus(s, [KeyboardEvent(0, WM_KEYDOWN, a, title), KeyboardEvent(0, WM_KEYUP, a, title)]);
  }
}
