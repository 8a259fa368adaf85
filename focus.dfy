/** The focus gate: the mapper acts only while the foreground window's title
    names the game. The title is read into a 256-character buffer, so at most
    255 characters of it are seen; it is lower-cased and searched for "osu!". */
module FocusGate {

  /** `nChars`, the capacity (terminator included) of the title buffer. */
  const TitleBufferSize: nat := 256

  /** The identifying substring of the target window's title. */
  const Marker: string := "osu!"

  /** What the title buffer receives: the title, cut to the buffer's capacity
      less one character for the terminator. */
  function WindowText(title: string): (text: string)
    ensures |text| == if |title| < TitleBufferSize then |title| else TitleBufferSize - 1
    ensures text == title[..|text|]
  {
    if |title| < TitleBufferSize then title else title[..TitleBufferSize - 1]
  }

  /** ASCII lower-casing of one character. */
  function LowerChar(c: char): char
  {
    if 'A' <= c <= 'Z' then (c as int - 'A' as int + 'a' as int) as char else c
  }

  /** ASCII lower-casing of a string. */
  function LowerAscii(s: string): (r: string)
    ensures |r| == |s|
    ensures forall i :: 0 <= i < |s| ==> r[i] == LowerChar(s[i])
  {
    if s == [] then [] else [LowerChar(s[0])] + LowerAscii(s[1..])
  }

  /** Ordinal substring search, as `String.Contains(string)` does it. */
  function Contains(s: string, t: string): bool
    ensures Contains(s, t) ==> |t| <= |s|
    ensures |t| == 0 ==> Contains(s, t)
    decreases |s|
  {
    if |s| < |t| then false
    else s[..|t|] == t || Contains(s[1..], t)
  }

  /** `t` occurs in `s` starting at index `i`. */
  predicate OccursAt(s: string, t: string, i: int)
  {
    0 <= i && i + |t| <= |s| && s[i..i + |t|] == t
  }

  /** Contains finds exactly the occurrences of `t` in `s`. */
  lemma {:induction false} ContainsIffOccurs(s: string, t: string)
    ensures Contains(s, t) <==> exists i :: OccursAt(s, t, i)
    decreases |s|
  {
    if |s| >= |t| && s[..|t|] == t {
      assert OccursAt(s, t, 0);
    } else if |s| >= |t| {
      ContainsIffOccurs(s[1..], t);
      if Contains(s[1..], t) {
        var j :| OccursAt(s[1..], t, j);
        assert s[1..][j..j + |t|] == s[j + 1..j + 1 + |t|];
        assert OccursAt(s, t, j + 1);
      }
      if i :| OccursAt(s, t, i) {
        assert i > 0;
        assert s[1..][i - 1..i - 1 + |t|] == s[i..i + |t|];
        assert OccursAt(s[1..], t, i - 1);
      }
    }
  }

  /** Lower-casing commutes with taking a slice. */
  lemma LowerAsciiSlice(s: string, i: int, j: int)
    requires 0 <= i <= j <= |s|
    ensures LowerAscii(s)[i..j] == LowerAscii(s[i..j])
  {
  }

  /** IsOsuActive, with the window title as a parameter. A focused title is
      at least as long as the marker. */
  predicate IsOsuActive(title: string)
    ensures IsOsuActive(title) ==> |Marker| <= |title|
  {
    var text := WindowText(title);
    |text| > 0 && Contains(LowerAscii(text), Marker)
  }

  /** The title shows "osu!", in any ASCII letter case, at index `i`, within
      the part of the title that fits the buffer. */
  predicate MarkerAt(title: string, i: int)
  {
    0 <= i && i + |Marker| <= |title| && i + |Marker| < TitleBufferSize &&
    LowerAscii(title[i..i + |Marker|]) == Marker
  }

  /** The target window is focused exactly when some four characters among the
      first 255 of its title spell "osu!" in any ASCII letter case. */
  lemma IsOsuActiveIffMarker(title: string)
    ensures IsOsuActive(title) <==> exists i :: MarkerAt(title, i)
  {
    var text := WindowText(title);
    var lower := LowerAscii(text);
    ContainsIffOccurs(lower, Marker);
    if i :| OccursAt(lower, Marker, i) {
      LowerAsciiSlice(text, i, i + |Marker|);
      assert text[i..i + |Marker|] == title[i..i + |Marker|];
      assert MarkerAt(title, i);
    }
    if i :| MarkerAt(title, i) {
      LowerAsciiSlice(text, i, i + |Marker|);
      assert text[i..i + |Marker|] == title[i..i + |Marker|];
      assert OccursAt(lower, Marker, i);
    }
  }

  /** An empty or unreadable title never counts as focused. */
  lemma EmptyTitleIsNotActive()
    ensures !IsOsuActive("")
  {
  }

  /** The gate ignores ASCII letter case: lower-casing the title first changes nothing. */
  lemma IsOsuActiveIgnoresCase(title: string)
    ensures IsOsuActive(LowerAscii(title)) == IsOsuActive(title)
  {
    var text, ltext := WindowText(title), WindowText(LowerAscii(title));
    assert ltext == LowerAscii(text);
    assert LowerAscii(ltext) == LowerAscii(text);
  }

  /** Typical game window titles pass the gate. */
  lemma GameTitlesAreActive()
    ensures IsOsuActive("osu!")
    ensures IsOsuActive("OSU! (Beta)")
  {
    var lower := LowerAscii("osu!");
    assert lower[0] == 'o' && lower[1] == 's' && lower[2] == 'u' && lower[3] == '!';
    assert lower[..4] == Marker;
    var title := "OSU! (Beta)";
    var upper := LowerAscii(title);
    assert upper[0] == 'o' && upper[1] == 's' && upper[2] == 'u' && upper[3] == '!';
    assert upper[..4] == Marker;
  }
}
