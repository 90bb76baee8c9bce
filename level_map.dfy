/**
 * The level map (MapView.swift): six levels, the last three locked until
 * the ledger holds enough stars, and a button that credits a test reward.
 */
module LevelMap {
  import opened Ledger

  datatype MathLevel = MathLevel(id: int, number: int, title: string, icon: string, isLocked: bool, starsRequired: int)

  /** The levels in the order the map shows them. */
  const Levels: seq<MathLevel> := [
    MathLevel(1, 1, "Counting Fun", "1.circle.fill", false, 0),
    MathLevel(2, 2, "Add & Subtract", "plus.circle.fill", false, 10),
    MathLevel(3, 3, "Shape Match", "square.circle.fill", false, 25),
    MathLevel(4, 4, "Pattern Play", "star.circle.fill", true, 50),
    MathLevel(5, 5, "Number Ninja", "bolt.circle.fill", true, 80),
    MathLevel(6, 6, "Math Master", "crown.fill", true, 120)
  ]

  /** The flag the map hands each card: the balance reaches the level's threshold. */
  predicate CanUnlock(stars: int, level: MathLevel) {
    stars >= level.starsRequired
  }

  /** A card can be entered when its level is not locked or can be unlocked. */
  predicate IsAccessible(level: MathLevel, canUnlock: bool) {
    !level.isLocked || canUnlock
  }

  /** The card draws a lock instead of the level's icon. */
  predicate ShowsLock(level: MathLevel, canUnlock: bool) {
    level.isLocked && !canUnlock
  }

  /** Accessibility of a level at a given balance. */
  predicate AccessibleAt(stars: int, level: MathLevel) {
    IsAccessible(level, CanUnlock(stars, level))
  }

  /** The lock is drawn exactly on the cards that cannot be entered. */
  lemma LockShownIffInaccessible(level: MathLevel, canUnlock: bool)
    ensures ShowsLock(level, canUnlock) <==> !IsAccessible(level, canUnlock)
  {
  }

  /** A level not flagged locked can be entered at every balance. */
  lemma OpenLevelAlwaysAccessible(level: MathLevel, stars: int)
    requires !level.isLocked
    ensures AccessibleAt(stars, level)
  {
  }

  /** Raising the balance never makes a level inaccessible. */
  lemma AccessibleMonotone(level: MathLevel, low: int, high: int)
    requires low <= high
    ensures AccessibleAt(low, level) ==> AccessibleAt(high, level)
  {
  }

  /**
   * The list is laid out in order: level i+1 is at position i with that id,
   * and both the thresholds and the locked flags only rise along the list.
   */
  lemma LevelsInOrder()
    ensures |Levels| == 6
    ensures forall i :: 0 <= i < |Levels| ==> Levels[i].id == Levels[i].number == i + 1
    ensures forall i, j :: 0 <= i <= j < |Levels| ==> Levels[i].starsRequired <= Levels[j].starsRequired
    ensures forall i, j :: 0 <= i <= j < |Levels| && Levels[i].isLocked ==> Levels[j].isLocked
  {
  }

  /** At any balance the levels that can be entered are a prefix of the list. */
  lemma AccessibleLevelsFormPrefix(stars: int, i: int, j: int)
    requires 0 <= i <= j < |Levels|
    requires AccessibleAt(stars, Levels[j])
    ensures AccessibleAt(stars, Levels[i])
  {
    LevelsInOrder();
  }

  /** The starting grant opens every level; an empty ledger opens the first three only. */
  lemma StartingGrantOpensEveryLevel()
    ensures forall i :: 0 <= i < |Levels| ==> AccessibleAt(StartingGrant, Levels[i])
    ensures forall i :: 0 <= i < |Levels| ==> (AccessibleAt(0, Levels[i]) <==> i < 3)
  {
  }

  /**
   * A tap on a card: an accessible card toggles its pressed look, an
   * inaccessible one ignores the tap.
   */
  function Tap(level: MathLevel, canUnlock: bool, isPressed: bool): (pressed: bool)
    ensures pressed != isPressed <==> IsAccessible(level, canUnlock)
  {
    if IsAccessible(level, canUnlock) then !isPressed else isPressed
  }

  /** The "Test reward +5" button. */
  method TestReward(starBank: StarBank)
    modifies starBank, starBank.store
    ensures starBank.stars == old(starBank.stars) + 5
    ensures starBank.store.data == old(starBank.store.data).SetInteger(StarsKey, starBank.stars)
  {
    starBank.AddStars(5);
  }
}
