/** Per-frame counters of two on-screen effects: the floating damage number
    (DamageText) and the screen fade (ScreenFade). Drawing is not modelled. */
module Effects {

  /** Camera displacement of one frame, applied to everything drawn in world space. */
  datatype Scroll = Scroll(dx: int, dy: int)

  /** The module-level screen_scroll list, which is never reassigned. */
  const ModuleScroll: Scroll := Scroll(0, 0)

  /** The number of updates after which a damage text is still shown. */
  const TextLifetime: nat := 30

  /** Position (top-left of its rectangle), update counter and removal flag of a damage text. */
  datatype TextState = TextState(x: int, y: int, counter: int, killed: bool)

  /** One update of a damage text: follow the camera, rise one pixel, count
      the update, and be removed once the counter exceeds 30. */
  function TextStep(t: TextState, scroll: Scroll): (r: TextState)
    ensures r.counter == t.counter + 1
    ensures r.killed <==> t.killed || t.counter >= TextLifetime
  {
    var x := t.x + scroll.dx;
    var y := t.y + scroll.dy - 1;
    var counter := t.counter + 1;
    TextState(x, y, counter, t.killed || counter > TextLifetime)
  }

  /** The update as the source writes it: it reads the module-level scroll,
      which stays (0, 0), instead of the frame's scroll. */
  function TextStepAsWritten(t: TextState): (r: TextState)
    ensures r.x == t.x && r.y == t.y - 1
    ensures r.counter == t.counter + 1
  {
    TextStep(t, ModuleScroll)
  }

  /** A damage text is updated once per frame by its sprite group until it is
      removed; scrolls[k] is the camera scroll of frame k. */
  function TextUpdates(t: TextState, scrolls: seq<Scroll>): (r: TextState)
    ensures t.killed ==> r == t
    ensures t.counter <= r.counter <= t.counter + |scrolls|
    decreases |scrolls|
  {
    if scrolls == [] || t.killed then t
    else TextUpdates(TextStep(t, scrolls[0]), scrolls[1..])
  }

  /** Relative to a world point that moves with the camera, a damage text rises
      by exactly one pixel per update and keeps its horizontal offset. */
  lemma TextFollowsWorld(t: TextState, scroll: Scroll, wx: int, wy: int)
    ensures TextStep(t, scroll).x - (wx + scroll.dx) == t.x - wx
    ensures TextStep(t, scroll).y - (wy + scroll.dy) == t.y - wy - 1
  {
  }

  /** As written, a text does not follow a camera move: its offset from a world
      point changes by the opposite of the scroll, not by (0, -1) alone. */
  lemma AsWrittenTextIgnoresScroll(t: TextState, scroll: Scroll, wx: int, wy: int)
    requires scroll != ModuleScroll
    ensures (TextStepAsWritten(t).x - (wx + scroll.dx), TextStepAsWritten(t).y - (wy + scroll.dy))
            != (t.x - wx, t.y - wy - 1)
  {
  }

  /** A new damage text (counter 0) stays on screen for 30 updates and is
      removed by update 31; after n updates its counter is min(n, 31). */
  lemma {:induction false} TextLifetimeExact(t: TextState, scrolls: seq<Scroll>)
    requires 0 <= t.counter <= TextLifetime + 1
    requires t.killed <==> t.counter > TextLifetime
    ensures TextUpdates(t, scrolls).killed <==> t.counter + |scrolls| > TextLifetime
    ensures TextUpdates(t, scrolls).counter
            == if t.counter + |scrolls| > TextLifetime + 1 then TextLifetime + 1 else t.counter + |scrolls|
    decreases |scrolls|
  {
    if scrolls != [] && !t.killed {
      TextLifetimeExact(TextStep(t, scrolls[0]), scrolls[1..]);
    }
  }

  /** The floating number shown where a projectile hit. */
  class DamageText {
    var x: int
    var y: int
    var counter: int
    var killed: bool

    function State(): TextState
      reads this
    {
      TextState(x, y, counter, killed)
    }

    /** Placed at (x0, y0) with its counter at 0. */
    constructor (x0: int, y0: int)
      ensures State() == TextState(x0, y0, 0, false)
    {
      x, y, counter, killed := x0, y0, 0, false;
    }

    /** One frame: shift by the camera scroll, rise one pixel, count, and
        remove the text once the counter exceeds 30. */
    method Update(scroll: Scroll)
      modifies this
      ensures State() == TextStep(old(State()), scroll)
    {
      x := x + scroll.dx;
      y := y + scroll.dy;
      y := y - 1;
      counter := counter + 1;
      if counter > TextLifetime {
        killed := true;
      }
    }
  }

  /** The fade is complete once its counter reaches the screen width. */
  predicate FadeComplete(counter: int, screenWidth: int)
  {
    counter >= screenWidth
  }

  /** Results of k successive fade calls from the given counter. */
  function FadeResults(counter: int, speed: int, screenWidth: int, k: nat): (r: seq<bool>)
    ensures |r| == k
    ensures k > 0 ==> (r[k - 1] <==> FadeComplete(counter + k * speed, screenWidth))
    decreases k
  {
    if k == 0 then []
    else [FadeComplete(counter + speed, screenWidth)] + FadeResults(counter + speed, speed, screenWidth, k - 1)
  }

  /** Call j (from 0) of a run of fades reports completion exactly when the
      counter, grown by speed on every call, has reached the screen width. */
  lemma {:induction false} FadeResultAt(counter: int, speed: int, screenWidth: int, k: nat, j: nat)
    requires j < k
    ensures FadeResults(counter, speed, screenWidth, k)[j] <==> counter + (j + 1) * speed >= screenWidth
    decreases k
  {
    if j > 0 {
      FadeResultAt(counter + speed, speed, screenWidth, k - 1, j - 1);
      assert counter + speed + j * speed == counter + (j + 1) * speed;
    }
  }

  /** With a non-negative speed, once a fade reports completion every later
      call does too, until the counter is reset. */
  lemma FadeStaysComplete(counter: int, speed: int, screenWidth: int, k: nat, i: nat, j: nat)
    requires speed >= 0 && i <= j < k
    requires FadeResults(counter, speed, screenWidth, k)[i]
    ensures FadeResults(counter, speed, screenWidth, k)[j]
  {
    FadeResultAt(counter, speed, screenWidth, k, i);
    FadeResultAt(counter, speed, screenWidth, k, j);
    assert (j + 1) * speed == (i + 1) * speed + (j - i) * speed;
  }

  /** A screen transition: its counter grows by speed on each call. */
  class ScreenFade {
    /** 1 opens the whole screen from the centre, 2 covers it from the top (drawing only). */
    const direction: int
    const speed: int
    var fadeCounter: int

    constructor (direction: int, speed: int)
      ensures this.direction == direction && this.speed == speed && fadeCounter == 0
    {
      this.direction := direction;
      this.speed := speed;
      fadeCounter := 0;
    }

    /** Advance the fade by one frame and report whether it is complete. */
    method Fade(screenWidth: int) returns (complete: bool)
      modifies this
      ensures fadeCounter == old(fadeCounter) + speed
      ensures complete == FadeComplete(fadeCounter, screenWidth)
    {
      complete := false;
      fadeCounter := fadeCounter + speed;
      if fadeCounter >= screenWidth {
        complete := true;
      }
    }
  }
}
