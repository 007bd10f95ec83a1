/** The swipe, tap and drag rules of an article card. Event objects are reduced
    to their vertical coordinate `clientY`. */
module Gestures {
  import opened Wrappers

  /** What a gesture asks for: nothing at all (the handler returned early), open
      the detail view, show the next or the previous article, or nothing. */
  datatype Action = Ignored | Tap | ShowNext | ShowPrevious | NoAction

  /** A touch that moves farther than this (strictly) is no longer a tap. */
  const MoveSlop: int := 10
  /** A touch that ends closer than this (strictly) and never moved is a tap. */
  const TapSlop: int := 50
  /** A vertical travel beyond this (strictly) is a swipe or a drag. */
  const SwipeDistance: int := 80

  function Abs(x: int): nat {
    if x < 0 then -x else x
  }

  /** The decision of `touchend` for a travel of `dy` (end minus start). */
  function TouchDecision(dy: int, moved: bool): (a: Action)
    ensures a == Tap <==> Abs(dy) < TapSlop && !moved
    ensures a == ShowNext <==> !(Abs(dy) < TapSlop && !moved) && dy < -SwipeDistance
    ensures a == ShowPrevious <==> !(Abs(dy) < TapSlop && !moved) && dy > SwipeDistance
    ensures a == NoAction <==> !(Abs(dy) < TapSlop && !moved) && -SwipeDistance <= dy <= SwipeDistance
  {
    if Abs(dy) < 50 && !moved then Tap
    else if dy < -80 then ShowNext
    else if dy > 80 then ShowPrevious
    else NoAction
  }

  /** The decision of `mouseup`: the same thresholds, and never a tap. */
  function DragDecision(dy: int): (a: Action)
    ensures a != Tap && a != Ignored
    ensures a == ShowNext <==> dy < -SwipeDistance
    ensures a == ShowPrevious <==> dy > SwipeDistance
  {
    if dy < -80 then ShowNext else if dy > 80 then ShowPrevious else NoAction
  }

  /** A touch that is not a tap is judged exactly like a mouse drag. */
  lemma TouchSwipeIsDrag(dy: int, moved: bool)
    ensures TouchDecision(dy, moved) != Tap ==> TouchDecision(dy, moved) == DragDecision(dy)
  {
  }

  /** The per-card gesture state: the touch start, whether the touch moved, and
      the mouse-down position (None stands for null). */
  class CardGestures {
    var startY: Option<int>
    var moved: bool
    var mdStart: Option<int>

    /** `!startY` is false: a touch is being followed. A start at clientY 0 is not. */
    predicate Tracking()
      reads this
    {
      startY.Some? && startY.value != 0
    }

    constructor ()
      ensures startY == None && !moved && mdStart == None
    {
      startY, moved, mdStart := None, false, None;
    }

    method TouchStart(y: int)
      modifies this`startY, this`moved
      ensures startY == Some(y) && !moved
    {
      startY := Some(y);
      moved := false;
    }

    method TouchMove(y: int)
      modifies this`moved
      ensures moved == (old(moved) || (Tracking() && Abs(y - startY.value) > MoveSlop))
    {
      if !Tracking() {
        return;
      }
      var dy := y - startY.value;
      if Abs(dy) > 10 {
        moved := true;
      }
    }

    method TouchEnd(y: int) returns (a: Action)
      modifies this`startY
      ensures !old(Tracking()) ==> a == Ignored && startY == old(startY)
      ensures old(Tracking()) ==> a == TouchDecision(y - old(startY).value, moved) && startY == None
    {
      if !Tracking() {
        return Ignored;
      }
      var dy := y - startY.value;
      startY := None;
      if Abs(dy) < 50 && !moved {
        return Tap;
      }
      if dy < -80 {
        a := ShowNext;
      } else if dy > 80 {
        a := ShowPrevious;
      } else {
        a := NoAction;
      }
    }

    method MouseDown(y: int)
      modifies this`mdStart
      ensures mdStart == Some(y)
    {
      mdStart := Some(y);
    }

    method MouseUp(y: int) returns (a: Action)
      modifies this`mdStart
      ensures old(mdStart).None? ==> a == Ignored
      ensures old(mdStart).Some? ==> a == DragDecision(y - old(mdStart).value)
      ensures mdStart == None
    {
      if mdStart.None? {
        return Ignored;
      }
      var dy := y - mdStart.value;
      mdStart := None;
      if dy < -80 {
        a := ShowNext;
      } else if dy > 80 {
        a := ShowPrevious;
      } else {
        a := NoAction;
      }
    }
  }

  /** A touch that starts at clientY 0 is ignored, while a mouse drag from 0 is not
      (`!startY` against `mdStart === null`). */
  method StartAtZero() returns (touch: Action, mouse: Action)
    ensures touch == Ignored && mouse == ShowNext
  {
    var g := new CardGestures();
    g.TouchStart(0);
    g.TouchMove(-200);
    touch := g.TouchEnd(-200);
    g.MouseDown(0);
    mouse := g.MouseUp(-200);
  }

  /** A short touch is a tap, unless some move along the way went past the slop. */
  method WobblyTouch() returns (still: Action, wobbly: Action)
    ensures still == Tap && wobbly == NoAction
  {
    var g := new CardGestures();
    g.TouchStart(300);
    still := g.TouchEnd(330);
    g.TouchStart(300);
    g.TouchMove(315);
    wobbly := g.TouchEnd(330);
  }
}
