/** The draggable profile image (`initDraggableProfile`): an Idle/Dragging
    state machine over the closure variables `isDragging`, `initialX/Y`,
    `currentX/Y` and `xOffset/yOffset`. The transition functions below are the
    specification; `DragController` is the closure itself, whose three handlers
    are proved to follow them. */
module Drag {

  /** A pointer position in client pixels. */
  datatype Point = Point(x: int, y: int)

  /** Mouse events carry `clientX/clientY`; touch events carry the same
      coordinates on their first touch point, `touches[0]`. */
  datatype PointerEvent = Mouse(clientX: int, clientY: int) | Touch(first: Point)

  function Position(e: PointerEvent): Point
  {
    match e
    case Mouse(x, y) => Point(x, y)
    case Touch(p) => p
  }

  /** Where a press landed, relative to the profile element (the press
      listeners sit on the profile element, so a press is never outside it;
      `Elsewhere` is a deeper descendant than a direct child). */
  datatype Target = ProfileElement | DirectChild | Elsewhere

  /** A JavaScript variable that is either still `undefined` or holds a number. */
  datatype Coord = Undefined | Num(n: int)

  datatype DragState = DragState(
    isDragging: bool,
    initialX: Coord, initialY: Coord,
    currentX: Coord, currentY: Coord,
    xOffset: int, yOffset: int)

  /** The closure's state when `initDraggableProfile` has just run. */
  const Initial := DragState(false, Undefined, Undefined, Undefined, Undefined, 0, 0)

  /** What the handlers keep true: while dragging the origin is defined; the
      last written translation is the accumulated offset; before any move the
      offset is still zero. */
  predicate Inv(s: DragState)
  {
    && (s.isDragging ==> s.initialX.Num? && s.initialY.Num?)
    && s.currentX.Num? == s.currentY.Num?
    && (s.currentX.Num? ==> s.currentX.n == s.xOffset && s.currentY.n == s.yOffset)
    && (s.currentX.Undefined? ==> s.xOffset == 0 && s.yOffset == 0)
  }

  /** The translation applied to the element: the one the last move wrote, or
      none (the identity) before the first move. */
  function Translation(s: DragState): Point
  {
    if s.currentX.Num? && s.currentY.Num? then Point(s.currentX.n, s.currentY.n) else Point(0, 0)
  }

  /** `dragStart`: record the origin as pointer minus accumulated offset, and
      start dragging only when the target is the element or a direct child. */
  function Press(s: DragState, target: Target, p: Point): DragState
  {
    s.(initialX := Num(p.x - s.xOffset),
       initialY := Num(p.y - s.yOffset),
       isDragging := if target != Elsewhere then true else s.isDragging)
  }

  /** `drag`: while dragging, the translation is pointer minus origin and it
      becomes the new accumulated offset; otherwise nothing happens. */
  function Move(s: DragState, p: Point): DragState
    requires s.isDragging ==> s.initialX.Num? && s.initialY.Num?
  {
    if !s.isDragging then s
    else
      var cx := p.x - s.initialX.n;
      var cy := p.y - s.initialY.n;
      s.(currentX := Num(cx), currentY := Num(cy), xOffset := cx, yOffset := cy)
  }

  /** `dragEnd`: copy the current translation into the origin and go idle. */
  function Release(s: DragState): DragState
  {
    s.(initialX := s.currentX, initialY := s.currentY, isDragging := false)
  }

  /** The six listeners reduced to three kinds of event. */
  datatype DragEvent = Down(target: Target, down: PointerEvent) | Over(over: PointerEvent) | Up

  function Step(s: DragState, ev: DragEvent): (r: DragState)
    requires Inv(s)
    ensures Inv(r)
  {
    match ev
    case Down(t, e) => Press(s, t, Position(e))
    case Over(e) => Move(s, Position(e))
    case Up => Release(s)
  }

  /** The state after a whole sequence of events. */
  function Run(s: DragState, evs: seq<DragEvent>): (r: DragState)
    requires Inv(s)
    ensures Inv(r)
    decreases |evs|
  {
    if evs == [] then s else Run(Step(s, evs[0]), evs[1..])
  }

  lemma RunCons(s: DragState, ev: DragEvent, evs: seq<DragEvent>)
    requires Inv(s)
    ensures Run(s, [ev] + evs) == Run(Step(s, ev), evs)
  {
    assert ([ev] + evs)[1..] == evs;
  }

  /** Pointer moves change nothing while idle, and a press that is not on the
      element or a direct child records an origin but does not start a drag:
      no offset or translation changes until a qualifying press. */
  lemma {:induction false} NoDragWithoutQualifyingPress(s: DragState, evs: seq<DragEvent>)
    requires Inv(s) && !s.isDragging
    requires forall i :: 0 <= i < |evs| && evs[i].Down? ==> evs[i].target == Elsewhere
    ensures !Run(s, evs).isDragging
    ensures Run(s, evs).xOffset == s.xOffset && Run(s, evs).yOffset == s.yOffset
    ensures Translation(Run(s, evs)) == Translation(s)
    decreases |evs|
  {
    if evs != [] {
      var s' := Step(s, evs[0]);
      assert !s'.isDragging && s'.xOffset == s.xOffset && s'.yOffset == s.yOffset;
      assert Translation(s') == Translation(s);
      NoDragWithoutQualifyingPress(s', evs[1..]);
    }
  }

  /** Moves only: the origin stays fixed and, once one move happened, the offset
      is the last pointer position minus that origin. */
  lemma {:induction false} MovesFromOrigin(s: DragState, moves: seq<DragEvent>)
    requires Inv(s) && s.isDragging
    requires forall i :: 0 <= i < |moves| ==> moves[i].Over?
    ensures Run(s, moves).isDragging
    ensures Run(s, moves).initialX == s.initialX && Run(s, moves).initialY == s.initialY
    ensures moves != [] ==>
      var p := Position(moves[|moves| - 1].over);
      Run(s, moves).xOffset == p.x - s.initialX.n && Run(s, moves).yOffset == p.y - s.initialY.n
    decreases |moves|
  {
    if moves != [] {
      var s' := Step(s, moves[0]);
      MovesFromOrigin(s', moves[1..]);
    }
  }

  /** During a gesture the applied translation is the offset accumulated before
      the press plus the pointer displacement since the press, per axis. */
  lemma GestureTranslation(s: DragState, target: Target, press: PointerEvent, moves: seq<DragEvent>)
    requires Inv(s) && target != Elsewhere && moves != []
    requires forall i :: 0 <= i < |moves| ==> moves[i].Over?
    ensures var t := Run(s, [Down(target, press)] + moves);
            var p0, p := Position(press), Position(moves[|moves| - 1].over);
            t.isDragging && Translation(t) == Point(s.xOffset + (p.x - p0.x), s.yOffset + (p.y - p0.y))
  {
    RunCons(s, Down(target, press), moves);
    MovesFromOrigin(Press(s, target, Position(press)), moves);
  }

  /** Release always goes idle and keeps the accumulated offset and the
      applied translation. */
  lemma ReleaseKeepsOffset(s: DragState)
    requires Inv(s)
    ensures !Release(s).isDragging
    ensures Release(s).xOffset == s.xOffset && Release(s).yOffset == s.yOffset
    ensures Translation(Release(s)) == Translation(s)
  {
  }

  /** The worked example: from an accumulated offset of (10,20), a press and a
      move by (+5,+5) give (15,25); release keeps it; the next gesture starts
      from that baseline, so a further move by (+1,-2) gives (16,23). */
  lemma BaselineSurvivesRelease(s: DragState, p: Point, q: Point)
    requires Inv(s) && s.xOffset == 10 && s.yOffset == 20
    ensures var a := Run(s, [Down(ProfileElement, Mouse(p.x, p.y)), Over(Mouse(p.x + 5, p.y + 5))]);
            Translation(a) == Point(15, 25)
            && var b := Run(a, [Up]);
            !b.isDragging && Translation(b) == Point(15, 25)
            && Translation(Run(b, [Down(DirectChild, Touch(q)), Over(Touch(Point(q.x + 1, q.y - 2)))])) == Point(16, 23)
  {
    var down := Down(ProfileElement, Mouse(p.x, p.y));
    var over := Over(Mouse(p.x + 5, p.y + 5));
    GestureTranslation(s, ProfileElement, Mouse(p.x, p.y), [over]);
    assert [down, over] == [down] + [over];
    var a := Run(s, [down, over]);
    RunCons(a, Up, []);
    var b := Run(a, [Up]);
    ReleaseKeepsOffset(a);
    var over2 := Over(Touch(Point(q.x + 1, q.y - 2)));
    GestureTranslation(b, DirectChild, Touch(q), [over2]);
    assert [Down(DirectChild, Touch(q)), over2] == [Down(DirectChild, Touch(q))] + [over2];
  }

  /** The closure of `initDraggableProfile`, with one field per variable. The
      'dragging' class on the element is added and removed exactly when
      `isDragging` is set and cleared, so it is not a separate field. */
  class DragController {
    var isDragging: bool
    var initialX: Coord
    var initialY: Coord
    var currentX: Coord
    var currentY: Coord
    var xOffset: int
    var yOffset: int

    function State(): DragState
      reads this
    {
      DragState(isDragging, initialX, initialY, currentX, currentY, xOffset, yOffset)
    }

    ghost predicate Valid()
      reads this
    {
      Inv(State())
    }

    constructor ()
      ensures Valid() && State() == Initial
    {
      isDragging := false;
      initialX, initialY := Undefined, Undefined;
      currentX, currentY := Undefined, Undefined;
      xOffset, yOffset := 0, 0;
    }

    /** `dragStart` for `mousedown` and `touchstart`. */
    method DragStart(e: PointerEvent, target: Target)
      requires Valid()
      modifies this
      ensures Valid() && State() == Press(old(State()), target, Position(e))
    {
      var p := Position(e);
      initialX := Num(p.x - xOffset);
      initialY := Num(p.y - yOffset);
      if target == ProfileElement || target == DirectChild {
        isDragging := true;
      }
    }

    /** `drag` for `mousemove` and `touchmove` anywhere in the document. */
    method Drag(e: PointerEvent)
      requires Valid()
      modifies this
      ensures Valid() && State() == Move(old(State()), Position(e))
    {
      if isDragging {
        var p := Position(e);
        currentX := Num(p.x - initialX.n);
        currentY := Num(p.y - initialY.n);
        xOffset := currentX.n;
        yOffset := currentY.n;
      }
    }

    /** `dragEnd` for `mouseup` and `touchend` anywhere in the document. */
    method DragEnd()
      requires Valid()
      modifies this
      ensures Valid() && State() == Release(old(State()))
    {
      initialX := currentX;
      initialY := currentY;
      isDragging := false;
    }
  }
}
