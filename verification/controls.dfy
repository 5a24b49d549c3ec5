/** Keyboard input: which movement keys are held, how key-down and key-up
    events change them, and how the held keys become a movement (dx, dy). */
module Controls {

  /** The keys the game reacts to; every other key is OtherKey. */
  datatype Key = KeyA | KeyD | KeyW | KeyS | KeyEscape | KeyC | KeyB | KeyI | KeyP | OtherKey

  /** A window event; Quit and every event that is not a key press or release
      change no game variable. */
  datatype Event = KeyDown(key: Key) | KeyUp(key: Key) | Quit | OtherEvent

  /** The four movement flags: a (left), d (right), w (up), s (down). */
  datatype Held = Held(left: bool, right: bool, up: bool, down: bool)

  /** Player displacement requested for one frame; y grows downwards. */
  datatype Intent = Intent(dx: int, dy: int)

  predicate IsMovementKey(k: Key)
  {
    k == KeyA || k == KeyD || k == KeyW || k == KeyS
  }

  /** Whether key k's movement flag is set in h (false for non-movement keys). */
  function HeldFlag(h: Held, k: Key): bool
  {
    match k
    case KeyA => h.left
    case KeyD => h.right
    case KeyW => h.up
    case KeyS => h.down
    case _ => false
  }

  /** Key-down sets the flag of its movement key. */
  function Press(h: Held, k: Key): (r: Held)
    ensures forall m :: IsMovementKey(m) ==> HeldFlag(r, m) == (HeldFlag(h, m) || m == k)
  {
    match k
    case KeyA => h.(left := true)
    case KeyD => h.(right := true)
    case KeyW => h.(up := true)
    case KeyS => h.(down := true)
    case _ => h
  }

  /** Key-up clears the flag of its movement key. */
  function Release(h: Held, k: Key): (r: Held)
    ensures forall m :: IsMovementKey(m) ==> HeldFlag(r, m) == (HeldFlag(h, m) && m != k)
  {
    match k
    case KeyA => h.(left := false)
    case KeyD => h.(right := false)
    case KeyW => h.(up := false)
    case KeyS => h.(down := false)
    case _ => h
  }

  /** Releasing a key that was pressed on a frame where it was not held restores the flags. */
  lemma ReleaseUndoesPress(h: Held, k: Key)
    requires IsMovementKey(k) && !HeldFlag(h, k)
    ensures Release(Press(h, k), k) == h
  {
  }

  /** The movement of one frame: dx starts at 0, is set to +speed when right is
      held and then to -speed when left is held; dy likewise with up (-speed)
      and then down (+speed). Left thus wins over right, down over up. */
  function MoveIntent(h: Held, speed: int): (r: Intent)
    ensures r.dx in {-speed, 0, speed} && r.dy in {-speed, 0, speed}
    ensures h.left ==> r.dx == -speed
    ensures h.right && !h.left ==> r.dx == speed
    ensures !h.left && !h.right ==> r.dx == 0
    ensures h.down ==> r.dy == speed
    ensures h.up && !h.down ==> r.dy == -speed
    ensures !h.up && !h.down ==> r.dy == 0
  {
    var dx0, dy0 := 0, 0;
    var dx1 := if h.right then speed else dx0;
    var dx2 := if h.left then -speed else dx1;
    var dy1 := if h.up then -speed else dy0;
    var dy2 := if h.down then speed else dy1;
    Intent(dx2, dy2)
  }

  /** With a positive speed the sign of each component tells exactly which key won. */
  lemma IntentSigns(h: Held, speed: int)
    requires speed > 0
    ensures MoveIntent(h, speed).dx < 0 <==> h.left
    ensures MoveIntent(h, speed).dx > 0 <==> h.right && !h.left
    ensures MoveIntent(h, speed).dy > 0 <==> h.down
    ensures MoveIntent(h, speed).dy < 0 <==> h.up && !h.down
  {
  }
}
