/** The heart bar at the top of the screen: five slots, each worth 20 health,
    drawn full, half or empty from the player's integer health. */
module Hearts {

  datatype Heart = Full | Half | Empty

  /** Number of heart slots in the bar. */
  const Slots: nat := 5

  /** Health represented by one full heart. */
  const HealthPerHeart: nat := 20

  /** Number of leading slots drawn full: health / 20, clamped to 0..5. */
  function FullHearts(health: int): (k: nat)
    ensures k <= Slots
    ensures 0 <= health <= 100 ==> k == health / HealthPerHeart
  {
    if health < 0 then 0
    else if health / HealthPerHeart >= Slots then Slots
    else health / HealthPerHeart
  }

  /** Reference definition of slot i: the first FullHearts slots are full,
      the next one is half when the health is not a multiple of 20, the rest are empty. */
  function SlotKind(health: int, i: nat): Heart
  {
    if i < FullHearts(health) then Full
    else if i == FullHearts(health) && health % HealthPerHeart > 0 then Half
    else Empty
  }

  /** The whole bar, slot 0 leftmost. */
  function HeartBar(health: int): (bar: seq<Heart>)
    ensures |bar| == Slots
  {
    seq(Slots, i requires 0 <= i < Slots => SlotKind(health, i))
  }

  /** Slot i is full exactly when the health reaches 20 * (i + 1), the
      threshold test of the drawing loop. */
  lemma FullIffThreshold(health: int, i: nat)
    requires i < Slots
    ensures HeartBar(health)[i] == Full <==> health >= (i + 1) * 20
  {
    if health >= 0 {
      assert health == HealthPerHeart * (health / HealthPerHeart) + health % HealthPerHeart;
    }
  }

  /** The heart loop of the HUD: a slot is full when the health reaches its
      threshold, otherwise the first slot with a remainder is half, and every
      later slot is empty. */
  method DrawHearts(health: int) returns (bar: seq<Heart>)
    ensures bar == HeartBar(health)
  {
    var halfHeartDrawn := false;
    bar := [];
    for i := 0 to Slots
      invariant bar == HeartBar(health)[..i]
      invariant halfHeartDrawn <==> (health % HealthPerHeart > 0 && FullHearts(health) < i)
    {
      FullIffThreshold(health, i);
      assert HeartBar(health)[..i + 1] == HeartBar(health)[..i] + [SlotKind(health, i)];
      if health >= (i + 1) * HealthPerHeart {
        bar := bar + [Full];
      } else if health % HealthPerHeart > 0 && !halfHeartDrawn {
        bar := bar + [Half];
        halfHeartDrawn := true;
      } else {
        bar := bar + [Empty];
      }
    }
  }

  /** A half heart appears only when the health leaves a remainder, only in a
      slot that is not full, and only in the first slot that is not full. */
  lemma HalfHeartOnlyAtRemainder(health: int, i: nat)
    requires i < Slots
    requires HeartBar(health)[i] == Half
    ensures health % 20 > 0
    ensures health < 20 * (i + 1)
    ensures forall j :: 0 <= j < i ==> HeartBar(health)[j] == Full
  {
    FullIffThreshold(health, i);
  }

  /** At most one slot of the bar shows a half heart. */
  lemma AtMostOneHalfHeart(health: int, i: nat, j: nat)
    requires i < Slots && j < Slots
    requires HeartBar(health)[i] == Half && HeartBar(health)[j] == Half
    ensures i == j
  {
  }

  /** Number of slots of a given kind, counted from the right end. */
  function Count(bar: seq<Heart>, kind: Heart): (n: nat)
    ensures n <= |bar|
  {
    if bar == [] then 0
    else Count(bar[..|bar| - 1], kind) + (if bar[|bar| - 1] == kind then 1 else 0)
  }

  /** Counts over the first n slots of the bar. */
  lemma {:induction false} CountPrefix(health: int, n: nat)
    requires n <= Slots
    ensures Count(HeartBar(health)[..n], Full) == if n < FullHearts(health) then n else FullHearts(health)
    ensures Count(HeartBar(health)[..n], Half) == if health % 20 > 0 && FullHearts(health) < n then 1 else 0
    ensures Count(HeartBar(health)[..n], Full) + Count(HeartBar(health)[..n], Half)
            + Count(HeartBar(health)[..n], Empty) == n
  {
    if n > 0 {
      CountPrefix(health, n - 1);
      assert HeartBar(health)[..n][..n - 1] == HeartBar(health)[..n - 1];
    }
  }

  /** For a health within 0..100, the bar shows health / 20 full hearts, one half
      heart exactly when health % 20 > 0, and five hearts in all. */
  lemma HeartCounts(health: int)
    requires 0 <= health <= 100
    ensures Count(HeartBar(health), Full) == health / 20
    ensures Count(HeartBar(health), Half) == if health % 20 > 0 then 1 else 0
    ensures Count(HeartBar(health), Full) + Count(HeartBar(health), Half)
            + Count(HeartBar(health), Empty) == 5
  {
    CountPrefix(health, Slots);
    assert HeartBar(health)[..Slots] == HeartBar(health);
  }

  /** A health below zero that is not a multiple of 20 still shows a half heart
      in the first slot, because the remainder is taken with floor semantics. */
  lemma NegativeHealthShowsHalfHeart(health: int)
    requires health < 0 && health % 20 != 0
    ensures HeartBar(health)[0] == Half
    ensures forall i :: 1 <= i < Slots ==> HeartBar(health)[i] == Empty
  {
  }
}
