/**
 * The floating pet: a widget the user drags with the mouse or a finger,
 * which keeps sliding after release, slowing down frame by frame, and
 * bounces softly off the edges of the window.
 *
 * The pure part (Bounce, Step, Settle) describes what one boundary check,
 * one animation frame and a whole coasting run do to the widget's motion;
 * the class FloatingPet holds the mutable record the page keeps and its
 * methods are proved against those functions.
 */
module Pet {
  import opened Geometry
  import opened Wrappers
  import opened PositionStore

  /** Storage key of the pet's position. */
  const PetKey: string := "mmPetPosition"
  /** Where the pet appears when nothing is stored. */
  const DefaultPosition: Vec := Vec(100.0, 100.0)
  /** Per-frame damping of the velocity while coasting. */
  const InertiaFactor: real := 0.9
  /** Coasting continues while some velocity component exceeds this (px/ms). */
  const MinVelocity: real := 0.1
  /** Nominal length of one animation frame (ms). */
  const FrameMillis: real := 16.0
  /** Distance kept from a window edge after a bounce (px). */
  const Margin: real := 10.0
  /** Fraction of the speed kept by a bounce. */
  const Restitution: real := 0.6

  /** A bounding client rectangle. */
  datatype Rect = Rect(left: real, top: real, width: real, height: real) {
    function Right(): real { left + width }
    function Bottom(): real { top + height }
  }

  /** The inner size of the browser window. */
  datatype Viewport = Viewport(width: real, height: real)

  /**
   * Where the element's box lies before its translation and how large it is;
   * its bounding rectangle moves with the translation `at`.
   */
  datatype Layout = Layout(origin: Vec, width: real, height: real)

  function RectAt(layout: Layout, at: Vec): Rect {
    Rect(layout.origin.x + at.x, layout.origin.y + at.y, layout.width, layout.height)
  }

  /**
   * The part of the pet's record that dragging, coasting and bouncing move:
   * the drag offset, the displayed translation and the velocity (px/ms).
   */
  datatype Motion = Motion(offset: Vec, current: Vec, velocity: Vec)

  /** The coasting condition: some velocity component still exceeds the minimum. */
  predicate Moving(v: Vec) {
    Abs(v.x) > MinVelocity || Abs(v.y) > MinVelocity
  }

  function Speed(v: Vec): real {
    Max(Abs(v.x), Abs(v.y))
  }

  /** Hundredths of the speed, rounded down: the budget that every coasting frame spends. */
  function Budget(v: Vec): nat {
    var b := (Speed(v) * 100.0).Floor;
    assert b as real > Speed(v) * 100.0 - 1.0;
    b
  }

  /** The outcome of checking one axis: the target offset and the new velocity component. */
  datatype AxisOutcome = AxisOutcome(target: real, velocity: real)

  /**
   * The boundary check along one axis. `low` and `high` are the rectangle's
   * edges on that axis, `extent` its size and `limit` the window's size.
   * Past the low edge, the target is `Margin - current` and the velocity
   * points back into the window; past the high edge, the target keeps the
   * rectangle `Margin` inside it and the velocity points back as well. A
   * bounce keeps `Restitution` of the speed, so it never speeds anything up.
   */
  function BounceAxis(low: real, high: real, extent: real, limit: real,
                      offset: real, current: real, v: real): (r: AxisOutcome)
    ensures Abs(r.velocity) <= Abs(v)
    ensures low < 0.0 ==>
      r.target == Margin - current && r.velocity >= 0.0 && Abs(r.velocity) == Restitution * Abs(v)
    ensures low >= 0.0 && high > limit ==>
      r.target == limit - extent - Margin && r.velocity <= 0.0 && Abs(r.velocity) == Restitution * Abs(v)
    ensures low >= 0.0 && high <= limit ==> r == AxisOutcome(offset, v)
  {
    if low < 0.0 then AxisOutcome(-current + Margin, Abs(v) * Restitution)
    else if high > limit then AxisOutcome(limit - extent - Margin, -Abs(v) * Restitution)
    else AxisOutcome(offset, v)
  }

  function BounceX(m: Motion, rect: Rect, view: Viewport): AxisOutcome {
    BounceAxis(rect.left, rect.Right(), rect.width, view.width, m.offset.x, m.current.x, m.velocity.x)
  }

  function BounceY(m: Motion, rect: Rect, view: Viewport): AxisOutcome {
    BounceAxis(rect.top, rect.Bottom(), rect.height, view.height, m.offset.y, m.current.y, m.velocity.y)
  }

  /**
   * `checkBoundaries` on a motion, given the element's rectangle and the
   * window: each velocity component is kept or reflected and damped, the
   * offset becomes the target of both axes, and the displayed translation
   * is rewritten only when that target differs from the old offset.
   */
  function Bounce(m: Motion, rect: Rect, view: Viewport): (r: Motion)
    ensures Abs(r.velocity.x) <= Abs(m.velocity.x) && Abs(r.velocity.y) <= Abs(m.velocity.y)
    ensures r.offset == Vec(BounceX(m, rect, view).target, BounceY(m, rect, view).target)
    ensures r.velocity == Vec(BounceX(m, rect, view).velocity, BounceY(m, rect, view).velocity)
    ensures r.current == if r.offset == m.offset then m.current else r.offset
    ensures rect.left >= 0.0 && rect.Right() <= view.width && rect.top >= 0.0 && rect.Bottom() <= view.height
      ==> r == m
  {
    var ax := BounceX(m, rect, view);
    var ay := BounceY(m, rect, view);
    var target := Vec(ax.target, ay.target);
    var v := Vec(ax.velocity, ay.velocity);
    if target != m.offset then Motion(target, target, v) else Motion(m.offset, m.current, v)
  }

  /**
   * One coasting frame: the offset advances by one frame's worth of
   * velocity and is displayed, the velocity is damped, and the boundary
   * check runs on the rectangle at the new translation. Every velocity
   * component ends at most `InertiaFactor` times its old size.
   */
  function Step(m: Motion, layout: Layout, view: Viewport): (r: Motion)
    ensures Abs(r.velocity.x) <= InertiaFactor * Abs(m.velocity.x)
    ensures Abs(r.velocity.y) <= InertiaFactor * Abs(m.velocity.y)
  {
    var moved := Vec(m.offset.x + m.velocity.x * FrameMillis, m.offset.y + m.velocity.y * FrameMillis);
    var damped := Vec(m.velocity.x * InertiaFactor, m.velocity.y * InertiaFactor);
    Bounce(Motion(moved, moved, damped), RectAt(layout, moved), view)
  }

  /** A frame taken while coasting spends at least one unit of the budget. */
  lemma StepSpendsBudget(m: Motion, layout: Layout, view: Viewport)
    requires Moving(m.velocity)
    ensures Budget(Step(m, layout, view).velocity) < Budget(m.velocity)
  {
    var v, w := m.velocity, Step(m, layout, view).velocity;
    assert Speed(w) <= InertiaFactor * Speed(v);
    assert Speed(v) > MinVelocity;
    assert Speed(w) * 100.0 <= Speed(v) * 100.0 - 1.0;
  }

  /**
   * The state a coasting run comes to rest in: frames are taken while the
   * motion is `Moving`. The run ends, the final velocity is below the
   * threshold in both components and no component has grown.
   */
  function Settle(m: Motion, layout: Layout, view: Viewport): (r: Motion)
    ensures !Moving(r.velocity)
    ensures Abs(r.velocity.x) <= Abs(m.velocity.x) && Abs(r.velocity.y) <= Abs(m.velocity.y)
    decreases Budget(m.velocity)
  {
    if Moving(m.velocity) then
      StepSpendsBudget(m, layout, view);
      Settle(Step(m, layout, view), layout, view)
    else
      m
  }

  /** The number of frames a coasting run takes before it comes to rest. */
  function Frames(m: Motion, layout: Layout, view: Viewport): nat
    decreases Budget(m.velocity)
  {
    if Moving(m.velocity) then
      StepSpendsBudget(m, layout, view);
      1 + Frames(Step(m, layout, view), layout, view)
    else
      0
  }

  /**
   * A coasting run takes no more frames than a hundred times its starting
   * speed: a pet released at 2 px/ms comes to rest within 200 frames.
   */
  lemma {:induction false} FramesWithinBudget(m: Motion, layout: Layout, view: Viewport)
    ensures Frames(m, layout, view) <= Budget(m.velocity)
    decreases Budget(m.velocity)
  {
    if Moving(m.velocity) {
      StepSpendsBudget(m, layout, view);
      FramesWithinBudget(Step(m, layout, view), layout, view);
    }
  }

  /** The velocity a drag sample gives: pointer travel over elapsed milliseconds, or the old velocity when no time elapsed. */
  function Sampled(previous: Vec, last: Vec, pointer: Vec, elapsed: int): (v: Vec)
    ensures elapsed > 0 ==> v.x * elapsed as real == pointer.x - last.x && v.y * elapsed as real == pointer.y - last.y
    ensures elapsed <= 0 ==> v == previous
  {
    if elapsed > 0 then
      Vec((pointer.x - last.x) / elapsed as real, (pointer.y - last.y) / elapsed as real)
    else
      previous
  }

  class FloatingPet {
    var isDragging: bool
    var currentX: real
    var currentY: real
    var initialX: real
    var initialY: real
    var xOffset: real
    var yOffset: real
    var velocity: Vec
    var lastX: real
    var lastY: real
    var timestamp: int
    const store: Storage

    function Kinematics(): Motion
      reads this
    {
      Motion(Vec(xOffset, yOffset), Vec(currentX, currentY), velocity)
    }

    /** The drag offset is the displayed translation, so a drag continues from where the pet is shown. */
    predicate Anchored()
      reads this
    {
      xOffset == currentX && yOffset == currentY
    }

    /**
     * The constructor and `init`: every field starts at zero, then the
     * stored position (or the default) is displayed. The drag offset is
     * left at zero, so a restored pet is not `Anchored`.
     */
    constructor (store: Storage)
      ensures this.store == store
      ensures Vec(currentX, currentY) == Restore(store.Get(PetKey), DefaultPosition)
      ensures !isDragging && xOffset == 0.0 && yOffset == 0.0 && velocity == Vec(0.0, 0.0)
      ensures initialX == 0.0 && initialY == 0.0 && lastX == 0.0 && lastY == 0.0 && timestamp == 0
      ensures Anchored() <==> Vec(currentX, currentY) == Vec(0.0, 0.0)
    {
      this.store := store;
      isDragging := false;
      initialX, initialY := 0.0, 0.0;
      xOffset, yOffset := 0.0, 0.0;
      velocity := Vec(0.0, 0.0);
      lastX, lastY, timestamp := 0.0, 0.0, 0;
      var p := Restore(store.Get(PetKey), DefaultPosition);
      currentX, currentY := p.x, p.y;
    }

    /** The constructor with the restored position also taken as the drag offset. */
    constructor Restored(store: Storage)
      ensures this.store == store
      ensures Vec(currentX, currentY) == Restore(store.Get(PetKey), DefaultPosition)
      ensures !isDragging && velocity == Vec(0.0, 0.0)
      ensures initialX == 0.0 && initialY == 0.0 && lastX == 0.0 && lastY == 0.0 && timestamp == 0
      ensures Anchored()
    {
      this.store := store;
      isDragging := false;
      initialX, initialY := 0.0, 0.0;
      velocity := Vec(0.0, 0.0);
      lastX, lastY, timestamp := 0.0, 0.0, 0;
      var p := Restore(store.Get(PetKey), DefaultPosition);
      currentX, currentY := p.x, p.y;
      xOffset, yOffset := p.x, p.y;
    }

    /**
     * `dragStart`: remembers where the pointer is relative to the offset,
     * starts a drag and takes the first velocity sample. Nothing that moves
     * the pet changes.
     */
    method DragStart(clientX: real, clientY: real, now: int)
      modifies this
      ensures initialX == clientX - xOffset && initialY == clientY - yOffset
      ensures isDragging && lastX == clientX && lastY == clientY && timestamp == now
      ensures Kinematics() == old(Kinematics())
    {
      initialX := clientX - xOffset;
      initialY := clientY - yOffset;
      isDragging := true;
      timestamp := now;
      lastX := clientX;
      lastY := clientY;
    }

    /**
     * `drag`: without a drag in progress nothing changes. During a drag the
     * offset follows the pointer, the pet is displayed there, the velocity
     * is taken from this sample and the previous one only (and kept when no
     * time elapsed), and this sample becomes the previous one.
     */
    method Drag(clientX: real, clientY: real, now: int)
      modifies this
      ensures !old(isDragging) ==> unchanged(this)
      ensures old(isDragging) ==>
        && xOffset == clientX - initialX && yOffset == clientY - initialY
        && currentX == xOffset && currentY == yOffset
        && velocity == Sampled(old(velocity), Vec(old(lastX), old(lastY)), Vec(clientX, clientY), now - old(timestamp))
        && lastX == clientX && lastY == clientY && timestamp == now
        && isDragging && initialX == old(initialX) && initialY == old(initialY)
      ensures old(Anchored()) ==> Anchored()
    {
      if isDragging {
        xOffset := clientX - initialX;
        yOffset := clientY - initialY;
        currentX, currentY := xOffset, yOffset;
        var deltaTime := now - timestamp;
        if deltaTime > 0 {
          velocity := Vec((clientX - lastX) / deltaTime as real, (clientY - lastY) / deltaTime as real);
        }
        lastX := clientX;
        lastY := clientY;
        timestamp := now;
      }
    }

    /**
     * `drag` as the `touchmove` listener calls it, with `e.touches[0]`: a
     * touch point has no `preventDefault`, so during a drag the call throws
     * before any field is written, and without a drag it does nothing.
     * `threw` says whether the call ended in that exception.
     */
    method TouchDrag(clientX: real, clientY: real, now: int) returns (threw: bool)
      ensures threw <==> isDragging
    {
      threw := isDragging;
    }

    /** `savePosition`: writes the displayed translation under the pet's key. */
    method SavePosition()
      modifies store
      ensures store.items == old(store.items)[PetKey := Vec(currentX, currentY)]
    {
      store.Set(PetKey, Vec(currentX, currentY));
    }

    /**
     * `checkBoundaries` with the element's current rectangle and the window:
     * the motion becomes `Bounce` of the old one; nothing else changes.
     */
    method CheckBoundaries(rect: Rect, view: Viewport)
      modifies this
      ensures Kinematics() == Bounce(old(Kinematics()), rect, view)
      ensures isDragging == old(isDragging) && initialX == old(initialX) && initialY == old(initialY)
      ensures lastX == old(lastX) && lastY == old(lastY) && timestamp == old(timestamp)
      ensures old(Anchored()) ==> Anchored()
    {
      var m := Kinematics();
      var ax := BounceX(m, rect, view);
      var ay := BounceY(m, rect, view);
      velocity := Vec(ax.velocity, ay.velocity);
      if ax.target != xOffset || ay.target != yOffset {
        xOffset, yOffset := ax.target, ay.target;
        currentX, currentY := ax.target, ay.target;
      }
    }

    /**
     * One frame of `applyInertia`. While moving, it takes a `Step` and
     * schedules the next frame; otherwise it saves the position and
     * schedules nothing.
     */
    method InertiaFrame(layout: Layout, view: Viewport) returns (scheduled: bool)
      modifies this, store
      ensures scheduled == Moving(old(velocity))
      ensures scheduled ==> Kinematics() == Step(old(Kinematics()), layout, view) && store.items == old(store.items)
      ensures !scheduled ==>
        Kinematics() == old(Kinematics()) && store.items == old(store.items)[PetKey := Vec(currentX, currentY)]
      ensures isDragging == old(isDragging) && initialX == old(initialX) && initialY == old(initialY)
      ensures lastX == old(lastX) && lastY == old(lastY) && timestamp == old(timestamp)
      ensures old(Anchored()) ==> Anchored()
    {
      if Moving(velocity) {
        xOffset := xOffset + velocity.x * FrameMillis;
        yOffset := yOffset + velocity.y * FrameMillis;
        currentX, currentY := xOffset, yOffset;
        velocity := Vec(velocity.x * InertiaFactor, velocity.y * InertiaFactor);
        CheckBoundaries(RectAt(layout, Vec(currentX, currentY)), view);
        scheduled := true;
      } else {
        SavePosition();
        scheduled := false;
      }
    }

    /**
     * The chain of frames `applyInertia` schedules, run to its end: the pet
     * comes to rest in `Settle` of its motion, and the store is written once,
     * with the final position.
     */
    method Coast(layout: Layout, view: Viewport)
      modifies this, store
      ensures Kinematics() == Settle(old(Kinematics()), layout, view)
      ensures store.items == old(store.items)[PetKey := Vec(currentX, currentY)]
      ensures isDragging == old(isDragging) && initialX == old(initialX) && initialY == old(initialY)
      ensures lastX == old(lastX) && lastY == old(lastY) && timestamp == old(timestamp)
      ensures old(Anchored()) ==> Anchored()
    {
      var scheduled := InertiaFrame(layout, view);
      while scheduled
        invariant Settle(Kinematics(), layout, view) == Settle(old(Kinematics()), layout, view)
        invariant scheduled ==> store.items == old(store.items)
        invariant !scheduled ==>
          !Moving(velocity) && store.items == old(store.items)[PetKey := Vec(currentX, currentY)]
        invariant isDragging == old(isDragging) && initialX == old(initialX) && initialY == old(initialY)
        invariant lastX == old(lastX) && lastY == old(lastY) && timestamp == old(timestamp)
        invariant old(Anchored()) ==> Anchored()
        decreases Budget(velocity) + (if scheduled then 1 else 0)
      {
        ghost var before := Kinematics();
        scheduled := InertiaFrame(layout, view);
        if scheduled {
          StepSpendsBudget(before, layout, view);
        }
      }
    }

    /**
     * `dragEnd`: the drag stops, the displayed position is saved and the
     * boundary check runs on the rectangle where the pet is shown.
     */
    method DragEnd(layout: Layout, view: Viewport)
      modifies this, store
      ensures !isDragging
      ensures store.items == old(store.items)[PetKey := Vec(old(currentX), old(currentY))]
      ensures Kinematics() == Bounce(old(Kinematics()), RectAt(layout, Vec(old(currentX), old(currentY))), view)
      ensures initialX == old(initialX) && initialY == old(initialY)
      ensures lastX == old(lastX) && lastY == old(lastY) && timestamp == old(timestamp)
      ensures old(Anchored()) ==> Anchored()
    {
      isDragging := false;
      SavePosition();
      CheckBoundaries(RectAt(layout, Vec(currentX, currentY)), view);
    }

    /**
     * A release followed by the animation frames it schedules, with no other
     * event in between: the pet bounces, coasts to rest, and the store ends
     * up holding the resting position.
     */
    method Release(layout: Layout, view: Viewport)
      modifies this, store
      ensures !isDragging
      ensures Kinematics() ==
        Settle(Bounce(old(Kinematics()), RectAt(layout, Vec(old(currentX), old(currentY))), view), layout, view)
      ensures !Moving(velocity)
      ensures store.items == old(store.items)[PetKey := Vec(currentX, currentY)]
      ensures initialX == old(initialX) && initialY == old(initialY)
      ensures lastX == old(lastX) && lastY == old(lastY) && timestamp == old(timestamp)
    {
      DragEnd(layout, view);
      Coast(layout, view);
    }
  }

  /**
   * Pressing and then moving without displacement (a `mousedown` and a
   * `mousemove` at the same point) leaves the drag offset where it was and
   * displays the pet there; a pet whose offset is its displayed position
   * does not move at all.
   */
  method PressInPlace(pet: FloatingPet, p: Vec, pressedAt: int, movedAt: int)
    modifies pet
    ensures pet.xOffset == old(pet.xOffset) && pet.yOffset == old(pet.yOffset)
    ensures pet.currentX == old(pet.xOffset) && pet.currentY == old(pet.yOffset)
    ensures old(pet.Anchored()) ==> pet.currentX == old(pet.currentX) && pet.currentY == old(pet.currentY)
  {
    pet.DragStart(p.x, p.y, pressedAt);
    pet.Drag(p.x, p.y, movedAt);
  }

  /**
   * As written, a finger drag does not move the pet: the press starts a
   * drag, and the move throws before anything changes.
   */
  method FingerDrag(pet: FloatingPet, from: Vec, to: Vec, pressedAt: int, movedAt: int) returns (threw: bool)
    modifies pet
    ensures threw
    ensures pet.currentX == old(pet.currentX) && pet.currentY == old(pet.currentY)
    ensures pet.xOffset == old(pet.xOffset) && pet.yOffset == old(pet.yOffset)
    ensures pet.velocity == old(pet.velocity)
  {
    pet.DragStart(from.x, from.y, pressedAt);
    threw := pet.TouchDrag(to.x, to.y, movedAt);
  }

  /**
   * With the touch point's move handled like a pointer move (the default
   * prevented on the touch event itself), the pet follows the finger: it is
   * displayed at its offset moved by the finger's travel, and the velocity
   * is that travel over the elapsed time.
   */
  method FingerDragCorrected(pet: FloatingPet, from: Vec, to: Vec, pressedAt: int, movedAt: int)
    modifies pet
    ensures pet.currentX == old(pet.xOffset) + (to.x - from.x) && pet.currentY == old(pet.yOffset) + (to.y - from.y)
    ensures old(pet.Anchored()) ==>
      pet.currentX == old(pet.currentX) + (to.x - from.x) && pet.currentY == old(pet.currentY) + (to.y - from.y)
    ensures movedAt > pressedAt ==>
      && pet.velocity.x * (movedAt - pressedAt) as real == to.x - from.x
      && pet.velocity.y * (movedAt - pressedAt) as real == to.y - from.y
  {
    pet.DragStart(from.x, from.y, pressedAt);
    pet.Drag(to.x, to.y, movedAt);
  }

  /**
   * As written, a pet restored at (300, 300) and pressed in place at
   * (350, 350) is displayed at (0, 0) after the first move.
   */
  method FirstDragAfterRestore() returns (restored: Vec, dragged: Vec)
    ensures restored == Vec(300.0, 300.0)
    ensures dragged == Vec(0.0, 0.0)
  {
    var store := new Storage(map[PetKey := Vec(300.0, 300.0)]);
    var pet := new FloatingPet(store);
    restored := Vec(pet.currentX, pet.currentY);
    PressInPlace(pet, Vec(350.0, 350.0), 1000, 1016);
    dragged := Vec(pet.currentX, pet.currentY);
  }

  /** With the corrected constructor, pressing in place after a restore leaves the pet where it was restored. */
  method FirstDragAfterRestoreCorrected(saved: map<string, Vec>, p: Vec) returns (restored: Vec, dragged: Vec)
    ensures restored == Restore(if PetKey in saved then Some(saved[PetKey]) else None, DefaultPosition)
    ensures dragged == restored
  {
    var store := new Storage(saved);
    var pet := new FloatingPet.Restored(store);
    restored := Vec(pet.currentX, pet.currentY);
    PressInPlace(pet, p, 1000, 1016);
    dragged := Vec(pet.currentX, pet.currentY);
  }
}
