/** The draggable match countdown: remaining time, its mm:ss text and
    colour, and the drag/minimise behaviour of the floating panel. */
module Timer {
  import opened Text

  const MinuteMs: int := 60000
  /** Distance kept between the panel's corner and the right/bottom edge. */
  const EdgeMargin: int := 50

  /** Zero-padded minutes, a colon, zero-padded seconds. */
  function FormatTime(ms: nat): (r: string)
    ensures ':' in r && |r| >= 5
    ensures var k := FirstIndex(r, ':');
      |r| == k + 3 && k >= 2 && AllDigits(r[..k]) && AllDigits(r[k + 1..])
  {
    var totalSeconds := ms / 1000;
    var m := PadStart2(NatToString(totalSeconds / 60));
    var s := PadStart2(NatToString(totalSeconds % 60));
    PadKeepsValue(NatToString(totalSeconds / 60));
    PadKeepsValue(NatToString(totalSeconds % 60));
    ColonSplit(m, s);
    m + ":" + s
  }

  /** A digit string, a colon and another digit string split back at the
      first colon. */
  lemma ColonSplit(m: string, s: string)
    requires AllDigits(m) && AllDigits(s)
    ensures var r := m + ":" + s;
      ':' in r && FirstIndex(r, ':') == |m| && r[..|m|] == m && r[|m| + 1..] == s
  {
    var r := m + ":" + s;
    assert r[|m|] == ':';
    assert r[..|m|] == m;
    assert r[|m| + 1..] == s;
    forall j | 0 <= j < |m| ensures m[j] != ':' { assert IsDigit(m[j]); }
    FirstIndexAt(r, ':', |m|);
  }

  /** Leading zeros do not change a digit string's value. */
  lemma {:induction false} LeadingZero(s: string)
    requires AllDigits(s)
    ensures DigitsValue("0" + s) == DigitsValue(s)
    decreases |s|
  {
    if s != [] {
      var t := "0" + s;
      assert t[..|t| - 1] == "0" + s[..|s| - 1];
      LeadingZero(s[..|s| - 1]);
    }
  }

  lemma PadKeepsValue(s: string)
    requires AllDigits(s)
    ensures AllDigits(PadStart2(s)) && DigitsValue(PadStart2(s)) == DigitsValue(s)
  {
    if |s| == 0 {
      assert DigitsValue("00") == DigitsValue("0") == 0 by {
        assert "00"[..1] == "0";
        assert "0"[..0] == [];
      }
    } else if |s| == 1 {
      LeadingZero(s);
    }
  }

  /** Reading the text back: minutes·60 + seconds is the number of whole
      seconds left, and the seconds field is below 60. */
  lemma FormatTimeReadsBack(ms: nat)
    ensures var r := FormatTime(ms); var k := FirstIndex(r, ':');
      DigitsValue(r[k + 1..]) < 60
      && DigitsValue(r[..k]) * 60 + DigitsValue(r[k + 1..]) == ms / 1000
  {
    var totalSeconds := ms / 1000;
    var mt := NatToString(totalSeconds / 60);
    var st := NatToString(totalSeconds % 60);
    var m := PadStart2(mt);
    var s := PadStart2(st);
    PadKeepsValue(mt);
    PadKeepsValue(st);
    ColonSplit(m, s);
    assert FormatTime(ms) == m + ":" + s;
    DigitsValueOfNatToString(totalSeconds / 60);
    DigitsValueOfNatToString(totalSeconds % 60);
  }

  /** How urgent the displayed colour is; a larger level is more urgent. */
  function Urgency(color: string): int {
    if color == "text-loseRed" then 3
    else if color == "text-statusAttempted" then 2
    else if color == "text-statusSolved" then 1
    else 0
  }

  function GetTimerColor(isMatchOver: bool, timeLeft: int): (c: string)
    ensures (isMatchOver || timeLeft == 0) <==> c == "text-text"
    ensures !isMatchOver && timeLeft != 0 ==>
      ((timeLeft < 5 * MinuteMs <==> c == "text-loseRed")
       && (5 * MinuteMs <= timeLeft < 15 * MinuteMs <==> c == "text-statusAttempted")
       && (timeLeft >= 15 * MinuteMs <==> c == "text-statusSolved"))
  {
    if isMatchOver || timeLeft == 0 then "text-text"
    else if timeLeft < 5 * MinuteMs then "text-loseRed"
    else if timeLeft < 15 * MinuteMs then "text-statusAttempted"
    else "text-statusSolved"
  }

  /** While the match runs, less time left never shows a calmer colour. */
  lemma ColourGrowsMoreUrgent(a: int, b: int)
    requires 0 < a <= b
    ensures Urgency(GetTimerColor(false, a)) >= Urgency(GetTimerColor(false, b))
  {
  }

  /** `Math.max(0, Math.min(v, limit))`. */
  function ClampToScreen(v: int, limit: int): (r: int)
    ensures r >= 0
    ensures 0 <= v <= limit ==> r == v
    ensures limit >= 0 ==> r <= limit
    ensures limit < 0 ==> r == 0
  {
    if v < limit then (if v < 0 then 0 else v) else (if limit < 0 then 0 else limit)
  }

  class DraggableTimer {
    var timeLeft: int
    var expirations: nat
    var intervalRunning: bool
    var isMinimized: bool
    var x: int
    var y: int
    var isDragging: bool
    var offsetX: int
    var offsetY: int
    var hasDragged: bool

    ghost predicate Valid()
      reads this
    {
      timeLeft >= 0
    }

    constructor(innerWidth: int)
      ensures Valid() && timeLeft == 0 && expirations == 0 && !intervalRunning
      ensures !isMinimized && x == innerWidth - 220 && y == 100 && !isDragging && !hasDragged
    {
      timeLeft := 0;
      expirations := 0;
      intervalRunning := false;
      isMinimized := false;
      x := innerWidth - 220;
      y := 100;
      isDragging := false;
      offsetX := 0;
      offsetY := 0;
      hasDragged := false;
    }

    /** One run of `calculateTime`: the end is the start plus the duration;
        a positive remainder is shown, otherwise zero is shown and the
        expiry callback (when given) fires. Nothing happens once the match
        is over. */
    method CalculateTime(startMs: int, durationMinutes: int, isMatchOver: bool, nowMs: int, hasExpireHandler: bool)
      requires Valid()
      modifies this`timeLeft, this`expirations
      ensures Valid()
      ensures isMatchOver ==> timeLeft == old(timeLeft) && expirations == old(expirations)
      ensures !isMatchOver ==>
        (var remaining := startMs + durationMinutes * MinuteMs - nowMs;
         (remaining > 0 ==> timeLeft == remaining && expirations == old(expirations))
         && (remaining <= 0 ==>
               (timeLeft == 0 && expirations == old(expirations) + (if hasExpireHandler then 1 else 0))))
    {
      if isMatchOver {
        return;
      }
      var endTime := startMs + durationMinutes * MinuteMs;
      var diff := endTime - nowMs;
      if diff <= 0 {
        timeLeft := 0;
        if hasExpireHandler {
          expirations := expirations + 1;
        }
        return;
      }
      timeLeft := diff;
    }

    /** The countdown effect: compute once, and keep an interval only while
        the match is not over. */
    method RunCountdownEffect(startMs: int, durationMinutes: int, isMatchOver: bool, nowMs: int, hasExpireHandler: bool)
      requires Valid()
      modifies this`timeLeft, this`expirations, this`intervalRunning
      ensures Valid()
      ensures intervalRunning <==> !isMatchOver
      ensures isMatchOver ==> timeLeft == old(timeLeft) && expirations == old(expirations)
      ensures !isMatchOver ==>
        (var remaining := startMs + durationMinutes * MinuteMs - nowMs;
         timeLeft == (if remaining > 0 then remaining else 0)
         && expirations == old(expirations) + (if remaining <= 0 && hasExpireHandler then 1 else 0))
    {
      CalculateTime(startMs, durationMinutes, isMatchOver, nowMs, hasExpireHandler);
      intervalRunning := !isMatchOver;
    }

    /** Pressing the mouse on the panel (not on its button) starts a drag. */
    method MouseDown(onButton: bool, clientX: int, clientY: int)
      modifies this`isDragging, this`hasDragged, this`offsetX, this`offsetY
      ensures onButton ==> isDragging == old(isDragging) && hasDragged == old(hasDragged)
                            && offsetX == old(offsetX) && offsetY == old(offsetY)
      ensures !onButton ==> isDragging && !hasDragged && offsetX == clientX - x && offsetY == clientY - y
    {
      if onButton {
        return;
      }
      hasDragged := false;
      isDragging := true;
      offsetX := clientX - x;
      offsetY := clientY - y;
    }

    /** A move while dragging places the panel under the pointer, kept on
        screen. */
    method MouseMove(clientX: int, clientY: int, innerWidth: int, innerHeight: int)
      modifies this`hasDragged, this`x, this`y
      ensures !old(isDragging) ==> x == old(x) && y == old(y) && hasDragged == old(hasDragged)
      ensures old(isDragging) ==>
        (hasDragged && x == ClampToScreen(clientX - offsetX, innerWidth - EdgeMargin)
         && y == ClampToScreen(clientY - offsetY, innerHeight - EdgeMargin))
      ensures old(isDragging) ==> 0 <= x && 0 <= y
      ensures old(isDragging) && innerWidth >= EdgeMargin ==> x <= innerWidth - EdgeMargin
      ensures old(isDragging) && innerHeight >= EdgeMargin ==> y <= innerHeight - EdgeMargin
    {
      if !isDragging {
        return;
      }
      hasDragged := true;
      x := ClampToScreen(clientX - offsetX, innerWidth - EdgeMargin);
      y := ClampToScreen(clientY - offsetY, innerHeight - EdgeMargin);
    }

    method MouseUp()
      modifies this`isDragging
      ensures !isDragging
    {
      isDragging := false;
    }

    method Minimize()
      modifies this`isMinimized
      ensures isMinimized
    {
      isMinimized := true;
    }

    /** A click on the minimised icon expands it unless the press that
        preceded it turned into a drag. */
    method ClickMinimized()
      modifies this`isMinimized
      ensures isMinimized == (old(isMinimized) && hasDragged)
    {
      if !hasDragged {
        isMinimized := false;
      }
    }
  }

  /** A press, a move while dragging, and a click never expands the
      minimised icon; a press and a click without a move do. */
  method DragThenClick(t: DraggableTimer, cx: int, cy: int, w: int, h: int, moved: bool)
    requires t.isMinimized
    modifies t
    ensures t.isMinimized <==> moved
  {
    t.MouseDown(false, cx, cy);
    if moved {
      t.MouseMove(cx + 1, cy, w, h);
    }
    t.MouseUp();
    t.ClickMinimized();
  }
}
