/** Window-message constants of the mapper and the pure helpers that classify
    raw hook notifications: mouse-button message tests, the fixed scan-code
    lookup for the output key, and the description of a mouse source. */
module Win32 {

  /** The C# `byte`. */
  newtype byte = x: int | 0 <= x < 0x100

  const WM_KEYDOWN: int := 0x0100
  const WM_KEYUP: int := 0x0101
  const WM_LBUTTONDOWN: int := 0x0201
  const WM_LBUTTONUP: int := 0x0202
  const WM_RBUTTONDOWN: int := 0x0204
  const WM_RBUTTONUP: int := 0x0205
  const WM_MBUTTONDOWN: int := 0x0207
  const WM_MBUTTONUP: int := 0x0208
  const WM_XBUTTONDOWN: int := 0x020B
  const WM_XBUTTONUP: int := 0x020C

  /** Virtual-key codes of the two keys that need a hardware scan code. */
  const VK_Z: int := 0x5A
  const VK_X: int := 0x58

  /** The unchecked C# cast `(byte)x`: keeps the low eight bits. */
  function ToByte(x: int): (b: byte)
    ensures 0 <= x < 0x100 ==> b as int == x
    ensures (x - b as int) % 0x100 == 0
  {
    (x % 0x100) as byte
  }

  /** One of the four button-down messages. */
  predicate IsMouseDown(message: int)
  {
    message == WM_LBUTTONDOWN || message == WM_RBUTTONDOWN ||
    message == WM_MBUTTONDOWN || message == WM_XBUTTONDOWN
  }

  /** The pair (return value, `out isDown`) of IsMouseButtonMessage. */
  datatype ButtonMatch = ButtonMatch(isButton: bool, isDown: bool)

  /** Does `message` belong to the button whose down message is `targetButton`?
      Every button's up message is its down message plus one. */
  function IsMouseButtonMessage(message: int, targetButton: int): (r: ButtonMatch)
    ensures r.isButton <==> IsMouseDown(targetButton) && (message == targetButton || message == targetButton + 1)
    ensures r.isDown <==> IsMouseDown(targetButton) && message == targetButton
    ensures !IsMouseDown(targetButton) ==> r == ButtonMatch(false, false)
  {
    if targetButton == WM_LBUTTONDOWN then
      ButtonMatch(message == WM_LBUTTONDOWN || message == WM_LBUTTONUP, message == WM_LBUTTONDOWN)
    else if targetButton == WM_RBUTTONDOWN then
      ButtonMatch(message == WM_RBUTTONDOWN || message == WM_RBUTTONUP, message == WM_RBUTTONDOWN)
    else if targetButton == WM_MBUTTONDOWN then
      ButtonMatch(message == WM_MBUTTONDOWN || message == WM_MBUTTONUP, message == WM_MBUTTONDOWN)
    else if targetButton == WM_XBUTTONDOWN then
      ButtonMatch(message == WM_XBUTTONDOWN || message == WM_XBUTTONUP, message == WM_XBUTTONDOWN)
    else
      ButtonMatch(false, false)
  }

  /** A button-down message is recognised as its own button's press, and the
      message after it as that button's release, which is never a down message. */
  lemma MouseDownIsOwnButton(message: int)
    ensures IsMouseDown(message) <==> IsMouseButtonMessage(message, message).isDown
    ensures IsMouseDown(message) ==> IsMouseButtonMessage(message + 1, message) == ButtonMatch(true, false)
    ensures IsMouseDown(message) ==> !IsMouseDown(message + 1)
  {
  }

  /** The hardware scan code sent with the output key: set-1 codes of Z and X,
      zero (none) for every other key. */
  function ScanCodeFor(vkCode: int): (code: byte)
    ensures code != 0 <==> vkCode == VK_Z || vkCode == VK_X
    ensures vkCode == VK_Z ==> code == 0x2C
    ensures vkCode == VK_X ==> code == 0x2D
  {
    if vkCode == VK_Z then 0x2C
    else if vkCode == VK_X then 0x2D
    else 0
  }

  /** The decimal digit character of `d`. */
  function DigitChar(d: nat): char
    requires d < 10
  {
    ('0' as int + d) as char
  }

  predicate IsDigit(c: char)
  {
    '0' <= c <= '9'
  }

  predicate AllDigits(s: string)
  {
    forall i :: 0 <= i < |s| ==> IsDigit(s[i])
  }

  /** Decimal digits of `n`, most significant first, without leading zeros. */
  function Digits(n: nat): (s: string)
    ensures |s| > 0 && AllDigits(s)
    ensures (s[0] == '0') <==> n == 0
  {
    if n < 10 then [DigitChar(n)] else Digits(n / 10) + [DigitChar(n % 10)]
  }

  /** The value of a string of decimal digits. */
  function DigitsValue(s: string): nat
    requires AllDigits(s)
  {
    if s == [] then 0 else DigitsValue(s[..|s| - 1]) * 10 + (s[|s| - 1] as int - '0' as int)
  }

  /** How C# interpolation `{n}` writes an int: optional minus sign, then digits. */
  function Decimal(n: int): (s: string)
  {
    if n < 0 then "-" + Digits(-n) else Digits(n)
  }

  /** Reads back what Decimal writes. */
  function ParseDecimal(s: string): int
  {
    if |s| > 0 && s[0] == '-' && AllDigits(s[1..]) then -(DigitsValue(s[1..]) as int)
    else if AllDigits(s) then DigitsValue(s)
    else 0
  }

  lemma {:induction false} DigitsRoundTrip(n: nat)
    ensures DigitsValue(Digits(n)) == n
  {
    if n >= 10 {
      DigitsRoundTrip(n / 10);
      var s := Digits(n);
      assert s[..|s| - 1] == Digits(n / 10);
    }
  }

  lemma DecimalRoundTrip(n: int)
    ensures ParseDecimal(Decimal(n)) == n
  {
    if n < 0 {
      DigitsRoundTrip(-n);
      assert Decimal(n)[1..] == Digits(-n);
    } else {
      DigitsRoundTrip(n);
    }
  }

  /** The operator-facing description of a mouse source. */
  function MouseButtonName(button: int): string
  {
    if button == WM_LBUTTONDOWN then "Left Mouse"
    else if button == WM_RBUTTONDOWN then "Right Mouse"
    else if button == WM_MBUTTONDOWN then "Middle Mouse"
    else if button == WM_XBUTTONDOWN then "Extra Mouse"
    else "Mouse Button " + Decimal(button)
  }

  /** Different buttons are never described by the same text, and the four
      known buttons are the only ones with a name of their own. */
  lemma MouseButtonNameInjective(a: int, b: int)
    ensures MouseButtonName(a) == MouseButtonName(b) ==> a == b
    ensures IsMouseDown(a) <==> MouseButtonName(a)[..3] != "Mou"
  {
    var prefix := "Mouse Button ";
    if !IsMouseDown(a) {
      var head := MouseButtonName(a)[..3];
      assert head[0] == 'M' && head[1] == 'o' && head[2] == 'u';
      assert head == "Mou";
    } else {
      var head := MouseButtonName(a)[..3];
      assert head[0] != 'M' || head[1] != 'o';
    }
    if !IsMouseDown(a) && !IsMouseDown(b) && MouseButtonName(a) == MouseButtonName(b) {
      var na, nb := MouseButtonName(a), MouseButtonName(b);
      assert na[|prefix|..] == Decimal(a);
      assert nb[|prefix|..] == Decimal(b);
      DecimalRoundTrip(a);
      DecimalRoundTrip(b);
    }
  }
}
