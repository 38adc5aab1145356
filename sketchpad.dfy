/** The browser side of the sketchpad: the pen state that the mouse and
    touch handlers keep while a digit is drawn, the visibility toggle of the
    result panels, and the pixel loops that decide whether anything was
    drawn and extract the alpha channel of the canvas. Canvas drawing is
    recorded as a list of segments instead of being rendered. */
module Sketchpad {
  import opened Wrappers

  /** A JavaScript variable holding a canvas coordinate, or still undefined. */
  datatype Coord = Undefined | At(n: int)

  /** The value -1 that marks lastX and lastY as having no good value. */
  const Unset: Coord := At(-1)

  /** The line width every handler draws with. */
  const LineWidth: int := 10

  /** One call of drawLine: a line from one point to another. */
  datatype Segment = Segment(fromX: Coord, fromY: Coord, toX: Coord, toY: Coord, width: int)

  /** The script's globals that the handlers update, and what has been drawn. */
  datatype PenState = PenState(mouseX: Coord, mouseY: Coord, mouseDown: int,
                               touchX: Coord, touchY: Coord,
                               lastX: Coord, lastY: Coord, drawn: seq<Segment>)

  /** The globals as declared: `var mouseX, mouseY, mouseDown = 0` and
      `var lastX, lastY = -1` give values only to mouseDown and lastY. */
  const Initial: PenState := PenState(Undefined, Undefined, 0, Undefined, Undefined, Undefined, Unset, [])

  // ---------------------------------------------------------------------
  // The handlers as functions of the pen state
  // ---------------------------------------------------------------------

  /** drawLine(ctx, x, y, size): when lastX is -1 the line starts at (x, y)
      itself, otherwise at (lastX, lastY); afterwards (x, y) is the last
      position. The test is JavaScript's loose equality with -1, which an
      undefined lastX does not pass. */
  function Draw(s: PenState, x: Coord, y: Coord, size: int): (t: PenState)
    ensures t.lastX == x && t.lastY == y
    ensures t.drawn == s.drawn + [if s.lastX == Unset then Segment(x, y, x, y, size)
                                  else Segment(s.lastX, s.lastY, x, y, size)]
    ensures t.(lastX := s.lastX, lastY := s.lastY, drawn := s.drawn) == s
  {
    var fromX := if s.lastX == Unset then x else s.lastX;
    var fromY := if s.lastX == Unset then y else s.lastY;
    s.(lastX := x, lastY := y, drawn := s.drawn + [Segment(fromX, fromY, x, y, size)])
  }

  /** The events the handlers are registered for. The position a move or a
      touch carries is what getMousePos or getTouchPos read from it: None
      when they leave the position as it was (neither offsetX nor layerX is
      set, or there is not exactly one touch). */
  datatype Event =
    | MouseDown
    | MouseUp
    | MouseMove(pos: Option<(int, int)>)
    | TouchStart(pos: Option<(int, int)>)
    | TouchMove(pos: Option<(int, int)>)
    | TouchEnd

  /** getMousePos: only mouseX and mouseY can change, and they change
      to the position the event carries, if any. */
  function MousePos(s: PenState, pos: Option<(int, int)>): (t: PenState)
    ensures t.(mouseX := s.mouseX, mouseY := s.mouseY) == s
    ensures pos.None? ==> t == s
    ensures pos.Some? ==> t.mouseX == At(pos.value.0) && t.mouseY == At(pos.value.1)
  {
    match pos
    case None => s
    case Some(p) => s.(mouseX := At(p.0), mouseY := At(p.1))
  }

  /** getTouchPos: only touchX and touchY can change, and they change
      to the position the touch carries, if any. */
  function TouchPos(s: PenState, pos: Option<(int, int)>): (t: PenState)
    ensures t.(touchX := s.touchX, touchY := s.touchY) == s
    ensures pos.None? ==> t == s
    ensures pos.Some? ==> t.touchX == At(pos.value.0) && t.touchY == At(pos.value.1)
  {
    match pos
    case None => s
    case Some(p) => s.(touchX := At(p.0), touchY := At(p.1))
  }

  /** What each handler does to the pen state. A handler draws at most one
      line and never removes one. */
  function Step(s: PenState, e: Event): (t: PenState)
    ensures t.drawn == s.drawn || (|t.drawn| == |s.drawn| + 1 && t.drawn[..|s.drawn|] == s.drawn)
  {
    match e
    case MouseDown => Draw(s.(mouseDown := 1), s.mouseX, s.mouseY, LineWidth)
    case MouseUp => s.(mouseDown := 0, lastX := Unset, lastY := Unset)
    case MouseMove(pos) =>
      var t := MousePos(s, pos);
      if t.mouseDown == 1 then Draw(t, t.mouseX, t.mouseY, LineWidth) else t
    case TouchStart(pos) =>
      var t := TouchPos(s, pos);
      Draw(t, t.touchX, t.touchY, LineWidth)
    case TouchMove(pos) =>
      var t := TouchPos(s, pos);
      Draw(t, t.touchX, t.touchY, LineWidth)
    case TouchEnd => s.(lastX := Unset, lastY := Unset)
  }

  /** The state after a sequence of events. */
  function Replay(s: PenState, events: seq<Event>): PenState
    decreases |events|
  {
    if |events| == 0 then s else Replay(Step(s, events[0]), events[1..])
  }

  /** Replaying a then b is replaying b from where a ended. */
  lemma {:induction false} ReplayAppend(s: PenState, a: seq<Event>, b: seq<Event>)
    ensures Replay(s, a + b) == Replay(Replay(s, a), b)
    decreases |a|
  {
    if |a| == 0 {
      assert a + b == b;
    } else {
      assert (a + b)[1..] == a[1..] + b;
      ReplayAppend(Step(s, a[0]), a[1..], b);
    }
  }

  // ---------------------------------------------------------------------
  // Properties of the handlers
  // ---------------------------------------------------------------------

  /** Releasing the mouse clears the button and marks the last position as
      unset; ending a touch marks the last position as unset and keeps the
      button state. Neither draws. */
  lemma ReleaseResets(s: PenState)
    ensures Step(s, MouseUp) == s.(mouseDown := 0, lastX := Unset, lastY := Unset)
    ensures Step(s, TouchEnd) == s.(lastX := Unset, lastY := Unset)
    ensures Step(s, TouchEnd).mouseDown == s.mouseDown
  {
  }

  /** A mouse move draws exactly when the button is down, and then draws
      one line to the new mouse position. */
  lemma MouseMoveDrawsOnlyWhenDown(s: PenState, pos: Option<(int, int)>)
    ensures |Step(s, MouseMove(pos)).drawn| == |s.drawn| + 1 <==> s.mouseDown == 1
    ensures s.mouseDown != 1 ==> Step(s, MouseMove(pos)).drawn == s.drawn
    ensures s.mouseDown == 1 ==>
      Step(s, MouseMove(pos)).drawn[|s.drawn|].toX == MousePos(s, pos).mouseX
  {
  }

  /** Pressing the button sets it and draws a line to the mouse position. */
  lemma MouseDownDraws(s: PenState)
    ensures Step(s, MouseDown).mouseDown == 1
    ensures |Step(s, MouseDown).drawn| == |s.drawn| + 1
    ensures Step(s, MouseDown).drawn[|s.drawn|].toX == s.mouseX
    ensures Step(s, MouseDown).drawn[|s.drawn|].toY == s.mouseY
  {
  }

  /** After a release the next line is a dot at the new position. */
  lemma StrokeAfterReleaseIsDot(s: PenState, release: Event, next: Event)
    requires release == MouseUp || release == TouchEnd
    requires next.TouchStart? || next.TouchMove?
    requires next.pos.Some?
    ensures var t := Step(Step(s, release), next);
      var p := next.pos.value;
      t.drawn == s.drawn + [Segment(At(p.0), At(p.1), At(p.0), At(p.1), LineWidth)]
  {
  }

  /** Within a stroke, each line starts where the previous one ended, unless
      that point had the coordinate -1, which drawLine mistakes for the
      unset marker. */
  lemma StrokeConnects(s: PenState, a: (int, int), b: (int, int))
    requires s.mouseDown == 1
    ensures var t := Step(s, MouseMove(Some(a)));
      var u := Step(t, MouseMove(Some(b)));
      u.drawn == t.drawn + [if a.0 == -1 then Segment(At(b.0), At(b.1), At(b.0), At(b.1), LineWidth)
                            else Segment(At(a.0), At(a.1), At(b.0), At(b.1), LineWidth)]
  {
  }

  /** Before the first release lastX is undefined, not -1, so the first
      press draws its line from (undefined, -1) rather than a dot at the
      mouse position. */
  lemma FirstPressNotAnchored(x: int, y: int)
    ensures Step(Step(Initial, MouseMove(Some((x, y)))), MouseDown).drawn
         == [Segment(Undefined, Unset, At(x), At(y), LineWidth)]
  {
  }

  /** Handlers only ever add lines: what was drawn stays drawn. */
  lemma {:induction false} DrawnOnlyGrows(s: PenState, events: seq<Event>)
    ensures |s.drawn| <= |Replay(s, events).drawn|
    ensures Replay(s, events).drawn[..|s.drawn|] == s.drawn
    decreases |events|
  {
    if |events| > 0 {
      var t := Step(s, events[0]);
      assert |s.drawn| <= |t.drawn| && t.drawn[..|s.drawn|] == s.drawn;
      DrawnOnlyGrows(t, events[1..]);
      assert Replay(s, events) == Replay(t, events[1..]);
    }
  }

  /** The button state is always 0 or 1. */
  lemma {:induction false} MouseDownStaysBinary(s: PenState, events: seq<Event>)
    requires s.mouseDown == 0 || s.mouseDown == 1
    ensures Replay(s, events).mouseDown == 0 || Replay(s, events).mouseDown == 1
    decreases |events|
  {
    if |events| > 0 {
      MouseDownStaysBinary(Step(s, events[0]), events[1..]);
    }
  }

  /** Moving the mouse with the button up never draws. */
  lemma {:induction false} MovesWhileUpDrawNothing(s: PenState, events: seq<Event>)
    requires s.mouseDown != 1
    requires forall i :: 0 <= i < |events| ==> events[i].MouseMove?
    ensures Replay(s, events).drawn == s.drawn
    ensures Replay(s, events).lastX == s.lastX && Replay(s, events).lastY == s.lastY
    decreases |events|
  {
    if |events| > 0 {
      var t := Step(s, events[0]);
      assert t.drawn == s.drawn && t.mouseDown == s.mouseDown && t.lastX == s.lastX && t.lastY == s.lastY;
      MovesWhileUpDrawNothing(t, events[1..]);
    }
  }

  // ---------------------------------------------------------------------
  // The pen as the page keeps it
  // ---------------------------------------------------------------------

  /** The script's globals, updated in place by the handlers. */
  class Pen {
    var mouseX: Coord
    var mouseY: Coord
    var mouseDown: int
    var touchX: Coord
    var touchY: Coord
    var lastX: Coord
    var lastY: Coord
    var drawn: seq<Segment>

    ghost function State(): PenState
      reads this
    {
      PenState(mouseX, mouseY, mouseDown, touchX, touchY, lastX, lastY, drawn)
    }

    constructor ()
      ensures State() == Initial
    {
      mouseX, mouseY, mouseDown := Undefined, Undefined, 0;
      touchX, touchY := Undefined, Undefined;
      lastX, lastY := Undefined, Unset;
      drawn := [];
    }

    /** drawLine */
    method DrawLine(x: Coord, y: Coord, size: int)
      modifies this
      ensures State() == Draw(old(State()), x, y, size)
    {
      if lastX == Unset {
        lastX := x;
        lastY := y;
      }
      drawn := drawn + [Segment(lastX, lastY, x, y, size)];
      lastX := x;
      lastY := y;
    }

    /** sketchpad_mouseDown */
    method OnMouseDown()
      modifies this
      ensures State() == Step(old(State()), MouseDown)
    {
      mouseDown := 1;
      DrawLine(mouseX, mouseY, LineWidth);
    }

    /** sketchpad_mouseUp */
    method OnMouseUp()
      modifies this
      ensures State() == Step(old(State()), MouseUp)
    {
      mouseDown := 0;
      lastX := Unset;
      lastY := Unset;
    }

    /** sketchpad_mouseMove, with the position getMousePos reads. */
    method OnMouseMove(pos: Option<(int, int)>)
      modifies this
      ensures State() == Step(old(State()), MouseMove(pos))
    {
      if pos.Some? {
        mouseX, mouseY := At(pos.value.0), At(pos.value.1);
      }
      if mouseDown == 1 {
        DrawLine(mouseX, mouseY, LineWidth);
      }
    }

    /** sketchpad_touchStart, with the position getTouchPos reads. */
    method OnTouchStart(pos: Option<(int, int)>)
      modifies this
      ensures State() == Step(old(State()), TouchStart(pos))
    {
      if pos.Some? {
        touchX, touchY := At(pos.value.0), At(pos.value.1);
      }
      DrawLine(touchX, touchY, LineWidth);
    }

    /** sketchpad_touchMove, with the position getTouchPos reads. */
    method OnTouchMove(pos: Option<(int, int)>)
      modifies this
      ensures State() == Step(old(State()), TouchMove(pos))
    {
      if pos.Some? {
        touchX, touchY := At(pos.value.0), At(pos.value.1);
      }
      DrawLine(touchX, touchY, LineWidth);
    }

    /** sketchpad_touchEnd */
    method OnTouchEnd()
      modifies this
      ensures State() == Step(old(State()), TouchEnd)
    {
      lastX := Unset;
      lastY := Unset;
    }
  }

  // ---------------------------------------------------------------------
  // Visibility of the result panels
  // ---------------------------------------------------------------------

  /** toggleVisibility: "hidden" becomes "visible", anything else
      "hidden". */
  function Toggle(visibility: string): (r: string)
    ensures r == "visible" || r == "hidden"
    ensures r == "visible" <==> visibility == "hidden"
  {
    if visibility == "hidden" then "visible" else "hidden"
  }

  /** Toggling twice restores "hidden" and "visible"; any other value,
      such as the empty inline style an element starts with, ends up
      "hidden" after one toggle and "visible" after two. */
  lemma ToggleTwice(visibility: string)
    ensures Toggle(Toggle(visibility)) == visibility <==> visibility == "hidden" || visibility == "visible"
    ensures visibility != "hidden" && visibility != "visible" ==> Toggle(Toggle(visibility)) == "visible"
  {
  }

  // ---------------------------------------------------------------------
  // getImage
  // ---------------------------------------------------------------------

  /** The blank-canvas loop of getImage from index i on, with counter
      non-positive values seen so far: null (None) when the loop runs out,
      false when it reaches the last index having seen only non-positive
      values, true at the first positive value before that. */
  function Scan(px: seq<int>, i: nat, counter: nat): (r: Option<bool>)
    decreases |px| - i
  {
    if i >= |px| then None
    else if i == |px| - 1 && counter != 0 && counter == |px| - 1 then Some(false)
    else if px[i] != 0 && px[i] > 0 then Some(true)
    else Scan(px, i + 1, counter + 1)
  }

  /** From index i with a counter equal to i, over non-positive values so
      far, the scan answers true iff some value before the last one is
      positive; the last value is never looked at once there are two. */
  lemma {:induction false} ScanMeaning(px: seq<int>, i: nat)
    requires i < |px|
    requires forall j :: 0 <= j < i ==> px[j] <= 0
    ensures |px| == 1 ==> Scan(px, i, i) == (if px[0] > 0 then Some(true) else None)
    ensures |px| >= 2 ==> Scan(px, i, i) == Some(exists j :: i <= j < |px| - 1 && px[j] > 0)
    decreases |px| - i
  {
    if |px| >= 2 && i < |px| - 1 && px[i] <= 0 {
      ScanMeaning(px, i + 1);
    }
  }

  /** What getImage returns: whether anything was drawn. */
  function DrawnOn(px: seq<int>): (r: Option<bool>)
    ensures |px| == 0 ==> r == None
    ensures |px| == 1 ==> (r == Some(true) <==> px[0] > 0) && (r == None <==> px[0] <= 0)
    ensures |px| >= 2 ==> r.Some? && (r.value <==> exists j :: 0 <= j < |px| - 1 && px[j] > 0)
  {
    if |px| > 0 then ScanMeaning(px, 0); Scan(px, 0, 0) else Scan(px, 0, 0)
  }

  /** The second loop of getImage: every fourth value starting at index 3
      (the alpha channel), undefined (None) where i + 3 runs past the end. */
  function Alpha(px: seq<int>): (r: seq<Option<int>>)
    ensures |r| == (|px| + 3) / 4
    ensures forall k :: 0 <= k < |r| ==> r[k] == if 4 * k + 3 < |px| then Some(px[4 * k + 3]) else None
  {
    seq((|px| + 3) / 4, k requires 0 <= k < (|px| + 3) / 4 =>
      if 4 * k + 3 < |px| then Some(px[4 * k + 3]) else None)
  }

  /** For a whole number of RGBA pixels, the alpha channel holds one defined
      value per pixel, the fourth of its four. */
  lemma AlphaOfPixels(px: seq<int>)
    requires |px| % 4 == 0
    ensures |Alpha(px)| == |px| / 4
    ensures forall k :: 0 <= k < |px| / 4 ==> Alpha(px)[k] == Some(px[4 * k + 3])
  {
  }

  /** Otherwise the last value pushed is undefined. */
  lemma AlphaOfPartialPixel(px: seq<int>)
    requires |px| % 4 != 0
    ensures |Alpha(px)| == |px| / 4 + 1
    ensures Alpha(px)[|px| / 4] == None
  {
  }

  /** getImage's two loops over the canvas data: the blank check with its
      counter and early exits, then the alpha extraction with stride 4. */
  method GetImage(px: seq<int>) returns (result: Option<bool>, image: seq<Option<int>>)
    ensures result == DrawnOn(px)
    ensures image == Alpha(px)
  {
    result := None;
    var counter: nat := 0;
    var last := |px| - 1;
    var i := 0;
    while i < |px|
      invariant 0 <= i <= |px| && counter == i
      invariant Scan(px, i, counter) == Scan(px, 0, 0)
    {
      if i == last && counter != 0 && counter == last {
        result := Some(false);
        break;
      } else if px[i] != 0 && px[i] > 0 {
        result := Some(true);
        break;
      } else {
        counter := counter + 1;
        i := i + 1;
      }
    }
    image := [];
    var j := 0;
    while j < |px|
      invariant 0 <= j <= |px| + 3 && j % 4 == 0
      invariant |image| == j / 4
      invariant forall k :: 0 <= k < j / 4 ==> image[k] == if 4 * k + 3 < |px| then Some(px[4 * k + 3]) else None
    {
      image := image + [if j + 3 < |px| then Some(px[j + 3]) else None];
      j := j + 4;
    }
  }
}
