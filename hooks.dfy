/** The mapper's shared fields and the two low-level hook callbacks that
    update them in place. Each callback is proved to do what the matching
    function of the Remap module says, so every property proved there holds
    of the callbacks. */
module Hooks {
  import opened Win32
  import opened FocusGate
  import opened Remap

  class Mapper {
    var isInputPressed: bool
    var inputKey: int
    var isInputMouse: bool
    var outputKey: int
    var outputScanCode: byte
    var waitingForInput: bool
    var waitingForOutput: bool
    /** The `keybd_event` calls made so far, oldest first. */
    var sent: seq<KeyEvent>

    /** The fields as a value. */
    function Snapshot(): State
      reads this
    {
      State(isInputPressed, inputKey, isInputMouse, outputKey, outputScanCode, waitingForInput, waitingForOutput)
    }

    constructor ()
      ensures Snapshot() == Initial && sent == []
    {
      isInputPressed, inputKey, isInputMouse := false, 0, false;
      outputKey, outputScanCode := 0, 0;
      waitingForInput, waitingForOutput := false, false;
      sent := [];
    }

    /** The capture flow asking the hooks for the next input source. */
    method StartInputCapture()
      modifies this
      ensures Snapshot() == Remap.StartInputCapture(old(Snapshot())) && sent == old(sent)
    {
      waitingForInput := true;
    }

    /** The capture flow asking the keyboard hook for the next output key. */
    method StartOutputCapture()
      modifies this
      ensures Snapshot() == Remap.StartOutputCapture(old(Snapshot())) && sent == old(sent)
    {
      waitingForOutput := true;
    }

    /** The capture flow's check for a key mapped to itself. */
    method IsSelfMapped() returns (warn: bool)
      ensures warn <==> SourceOf(Snapshot()) == Keyboard(outputKey)
    {
      warn := !isInputMouse && inputKey == outputKey;
    }

    /** One synthetic key event for the output key: a press, or a release. */
    method SendKey(isKeyDown: bool)
      modifies this`sent
      ensures sent == old(sent) + [Remap.SendKey(Snapshot(), isKeyDown)]
    {
      sent := sent + [KeyEvent(ToByte(outputKey), outputScanCode, !isKeyDown)];
    }

    /** The keyboard hook: `wParam` is the message, `vkCode` the virtual key,
        `title` the foreground window's title. */
    method KeyboardHookCallback(nCode: int, wParam: int, vkCode: int, title: string) returns (d: Decision)
      modifies this
      ensures var o := KeyboardStep(old(Snapshot()), nCode, wParam, vkCode, title);
        Snapshot() == o.state && d == o.decision && sent == old(sent) + o.emitted
    {
      if nCode >= 0 {
        var isKeyDown := wParam == WM_KEYDOWN;

        if waitingForInput {
          inputKey := vkCode;
          isInputMouse := false;
          waitingForInput := false;
          return Suppress;
        } else if waitingForOutput {
          outputKey := vkCode;
          if vkCode == VK_Z {
            outputScanCode := 0x2C;
          } else if vkCode == VK_X {
            outputScanCode := 0x2D;
          } else {
            outputScanCode := 0;
          }
          waitingForOutput := false;
          return Suppress;
        }

        if !isInputMouse && vkCode == inputKey {
          if !IsOsuActive(title) {
            return PassThrough;
          }
          if isKeyDown && !isInputPressed {
            isInputPressed := true;
            SendKey(false);
            SendKey(true);
          } else if !isKeyDown && isInputPressed {
            isInputPressed := false;
            SendKey(false);
            SendKey(true);
          }
          return Suppress;
        }
      }
      return PassThrough;
    }

    /** The mouse hook: `message` is the mouse message, `title` the foreground
        window's title. */
    method MouseHookCallback(nCode: int, message: int, title: string) returns (d: Decision)
      modifies this
      ensures var o := MouseStep(old(Snapshot()), nCode, message, title);
        Snapshot() == o.state && d == o.decision && sent == old(sent) + o.emitted
    {
      if nCode >= 0 {
        if waitingForInput {
          if IsMouseDown(message) {
            inputKey := message;
            isInputMouse := true;
            waitingForInput := false;
            return Suppress;
          }
          return PassThrough;
        }

        if isInputMouse {
          var isMouseButton := IsMouseButtonMessage(message, inputKey);
          if isMouseButton.isButton {
            if !IsOsuActive(title) {
              return PassThrough;
            }
            if isMouseButton.isDown && !isInputPressed {
              isInputPressed := true;
              SendKey(false);
              SendKey(true);
            } else if !isMouseButton.isDown && isInputPressed {
              isInputPressed := false;
              SendKey(false);
              SendKey(true);
            }
            return Suppress;
          }
        }
      }
      return PassThrough;
    }
  }

  /** The mapper, from its initial state, configured through the hooks as A to
      B and then fed a press, an auto-repeat and a release of A while the game
      is focused, sends exactly two taps of B. */
  method CaptureThenRemap(title: string) returns (m: Mapper)
    requires IsOsuActive(title)
    ensures m.sent == [KeyEvent(0x42, 0, true), KeyEvent(0x42, 0, false),
                       KeyEvent(0x42, 0, true), KeyEvent(0x42, 0, false)]
    ensures !m.isInputPressed && !m.isInputMouse && m.inputKey == 0x41 && m.outputKey == 0x42
  {
    m := new Mapper();
    m.StartInputCapture();
    var d := m.KeyboardHookCallback(0, WM_KEYDOWN, 0x41, title);
    assert d == Suppress && m.inputKey == 0x41;
    m.StartOutputCapture();
    d := m.KeyboardHookCallback(0, WM_KEYDOWN, 0x42, title);
    assert d == Suppress && m.outputKey == 0x42 && m.sent == [];
    d := m.KeyboardHookCallback(0, WM_KEYDOWN, 0x41, title);
    assert d == Suppress && m.isInputPressed;
    d := m.KeyboardHookCallback(0, WM_KEYDOWN, 0x41, title);
    assert d == Suppress && |m.sent| == 2;
    d := m.KeyboardHookCallback(0, WM_KEYUP, 0x41, title);
    assert d == Suppress;
  }
}
