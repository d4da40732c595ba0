/** The numeric constants the generator and the session use, and the authored
    level (constants.ts). */
module Constants {
  import opened Types

  /** Starting world speed of a run. */
  const BASE_SPEED: real := 10.5

  /** Side of a fire ring's box. */
  const RING_SIZE: real := 80.0

  /** Side of a spinning blade's box. */
  const BLADE_SIZE: real := 50.0

  // The authored level of NORMAL mode, section by section, each in the order
  // it is written.

  /** Intro: entries 0 to 4. */
  const INTRO: seq<Obstacle> := [
    Fixed(500.0, 0.0, 30.0, 30.0, Spike),
    Fixed(800.0, 0.0, 30.0, 30.0, Spike),
    Fixed(1100.0, 0.0, 40.0, 40.0, Block),
    Fixed(1400.0, 50.0, 20.0, 20.0, Coin),
    Swinging(1500.0, 0.0, 30.0, 35.0, MovingSpike)
  ]

  /** Rhythm section: entries 5 to 10. */
  const RHYTHM_SECTION: seq<Obstacle> := [
    Fixed(2000.0, 0.0, 30.0, 30.0, Spike),
    Fixed(2300.0, 0.0, 30.0, 30.0, Spike),
    Fixed(2600.0, 0.0, 40.0, 40.0, Block),
    Fixed(2900.0, 0.0, 30.0, 30.0, Spike),
    Fixed(3200.0, 0.0, 40.0, 40.0, Block),
    Fixed(3350.0, 80.0, 20.0, 20.0, Coin)
  ]

  /** Ring intro: entries 11 to 12. */
  const RING_INTRO: seq<Obstacle> := [
    Fixed(3250.0, 50.0, 30.0, 15.0, RocketPickup),
    Fixed(3500.0, 60.0, 80.0, 80.0, FireRing)
  ]

  /** Stairs: entries 13 to 16. */
  const STAIRS: seq<Obstacle> := [
    Fixed(3600.0, 0.0, 40.0, 40.0, Block),
    Fixed(3850.0, 40.0, 40.0, 40.0, Block),
    Fixed(4100.0, 80.0, 40.0, 40.0, Block),
    Fixed(4300.0, 0.0, 30.0, 30.0, Spike)
  ]

  /** Drop, then blocks and a moving spike: entries 17 to 24. */
  const DROP: seq<Obstacle> := [
    Fixed(4600.0, 0.0, 30.0, 30.0, Spike),
    Fixed(4635.0, 0.0, 30.0, 30.0, Spike),
    Fixed(4670.0, 0.0, 30.0, 30.0, Spike),
    Fixed(5000.0, 0.0, 40.0, 40.0, Block),
    Swinging(5300.0, 0.0, 30.0, 35.0, MovingSpike),
    Fixed(5500.0, 40.0, 40.0, 40.0, Block),
    Fixed(5700.0, 40.0, 40.0, 40.0, Block),
    Fixed(5900.0, 80.0, 20.0, 20.0, Coin)
  ]

  /** Spinning blade intro: entries 25 to 25. */
  const SPINNING_BLADE_INTRO: seq<Obstacle> := [
    Swinging(6200.0, 50.0, BLADE_SIZE, BLADE_SIZE, SpinningBlade)
  ]

  /** Ring challenge: entries 26 to 29. */
  const RING_CHALLENGE: seq<Obstacle> := [
    Fixed(6400.0, 50.0, 30.0, 15.0, RocketPickup),
    Fixed(6700.0, 70.0, 80.0, 80.0, FireRing),
    Fixed(6780.0, 50.0, 30.0, 15.0, RocketPickup),
    Fixed(7050.0, 70.0, 80.0, 80.0, FireRing)
  ]

  /** Endurance: entries 30 to 34. */
  const ENDURANCE: seq<Obstacle> := [
    Fixed(7300.0, 0.0, 30.0, 30.0, Spike),
    Fixed(7600.0, 0.0, 40.0, 40.0, Block),
    Fixed(7900.0, 0.0, 30.0, 30.0, Spike),
    Fixed(8000.0, 0.0, 30.0, 30.0, Spike),
    Fixed(8300.0, 0.0, 40.0, 40.0, Block)
  ]

  /** Climax: entries 35 to 41. */
  const CLIMAX: seq<Obstacle> := [
    Fixed(8600.0, 0.0, 30.0, 30.0, Spike),
    Fixed(8635.0, 0.0, 30.0, 30.0, Spike),
    Fixed(8670.0, 0.0, 30.0, 30.0, Spike),
    Fixed(9000.0, 40.0, 40.0, 40.0, Block),
    Fixed(9300.0, 80.0, 40.0, 40.0, Block),
    Fixed(9600.0, 40.0, 40.0, 40.0, Block),
    Fixed(9900.0, 0.0, 40.0, 40.0, Block)
  ]

  /** Moving platforms sector: entries 42 to 47. */
  const MOVING_PLATFORMS_SECTOR: seq<Obstacle> := [
    Swinging(10200.0, 40.0, 60.0, 20.0, MovingPlatform),
    Swinging(10450.0, 80.0, 60.0, 20.0, MovingPlatform),
    Swinging(10700.0, 40.0, 60.0, 20.0, MovingPlatform),
    Fixed(10850.0, 150.0, 20.0, 20.0, Coin),
    Fixed(11000.0, 0.0, 30.0, 30.0, Spike),
    Fixed(11035.0, 0.0, 30.0, 30.0, Spike)
  ]

  /** Ring gauntlet: entries 48 to 52. */
  const RING_GAUNTLET: seq<Obstacle> := [
    Fixed(11300.0, 50.0, 30.0, 15.0, RocketPickup),
    Fixed(11500.0, 60.0, 80.0, 80.0, FireRing),
    Fixed(11800.0, 100.0, 80.0, 80.0, FireRing),
    Fixed(12100.0, 40.0, 80.0, 80.0, FireRing),
    Fixed(12400.0, 80.0, 80.0, 80.0, FireRing)
  ]

  /** Final stretch: entries 53 to 57. */
  const FINAL_STRETCH: seq<Obstacle> := [
    Fixed(12800.0, 0.0, 30.0, 30.0, Spike),
    Fixed(13000.0, 50.0, 40.0, 40.0, Block),
    Swinging(13200.0, 100.0, 60.0, 20.0, MovingPlatform),
    Fixed(13500.0, 0.0, 30.0, 30.0, Spike),
    Fixed(13535.0, 0.0, 30.0, 30.0, Spike)
  ]

  /** The authored level: its sections in the order they are written. */
  const DEFAULT_LEVEL_OBSTACLES: seq<Obstacle> :=
    INTRO +
    RHYTHM_SECTION +
    RING_INTRO +
    STAIRS +
    DROP +
    SPINNING_BLADE_INTRO +
    RING_CHALLENGE +
    ENDURANCE +
    CLIMAX +
    MOVING_PLATFORMS_SECTOR +
    RING_GAUNTLET +
    FINAL_STRETCH

  /** An authored obstacle is well formed when its box has positive size, it
      carries `initialY` exactly when its kind oscillates, that base is its
      starting `y`, and neither once-only flag is set yet. */
  predicate AuthoredWellFormed(o: Obstacle) {
    && o.width > 0.0 && o.height > 0.0
    && (o.initialY.Some? <==> Oscillates(o.kind))
    && (o.initialY.Some? ==> o.initialY.value == o.y)
    && o.passed.None? && o.collected.None?
  }

  predicate AllAuthoredWellFormed(s: seq<Obstacle>) {
    forall i :: 0 <= i < |s| ==> AuthoredWellFormed(s[i])
  }

  /** Obstacles whose x never decreases along the sequence. */
  predicate XOrdered(s: seq<Obstacle>) {
    forall i, j :: 0 <= i < j < |s| ==> s[i].x <= s[j].x
  }

  /** Obstacles whose x strictly increases from each entry to the next. */
  predicate XIncreasing(s: seq<Obstacle>) {
    forall i :: 0 <= i < |s| - 1 ==> s[i].x < s[i + 1].x
  }

  lemma WellFormedConcat(a: seq<Obstacle>, b: seq<Obstacle>)
    requires AllAuthoredWellFormed(a) && AllAuthoredWellFormed(b)
    ensures AllAuthoredWellFormed(a + b)
  {
  }

  lemma IncreasingConcat(a: seq<Obstacle>, b: seq<Obstacle>)
    requires XIncreasing(a) && XIncreasing(b)
    requires |a| > 0 && |b| > 0 ==> a[|a| - 1].x < b[0].x
    ensures XIncreasing(a + b)
  {
  }

  /** Every authored obstacle is well formed. */
  lemma DefaultLevelWellFormed()
    ensures |DEFAULT_LEVEL_OBSTACLES| == 58
    ensures AllAuthoredWellFormed(DEFAULT_LEVEL_OBSTACLES)
  {
    var s := INTRO;
    WellFormedConcat(s, RHYTHM_SECTION);
    s := s + RHYTHM_SECTION;
    WellFormedConcat(s, RING_INTRO);
    s := s + RING_INTRO;
    WellFormedConcat(s, STAIRS);
    s := s + STAIRS;
    WellFormedConcat(s, DROP);
    s := s + DROP;
    WellFormedConcat(s, SPINNING_BLADE_INTRO);
    s := s + SPINNING_BLADE_INTRO;
    WellFormedConcat(s, RING_CHALLENGE);
    s := s + RING_CHALLENGE;
    WellFormedConcat(s, ENDURANCE);
    s := s + ENDURANCE;
    WellFormedConcat(s, CLIMAX);
    s := s + CLIMAX;
    WellFormedConcat(s, MOVING_PLATFORMS_SECTOR);
    s := s + MOVING_PLATFORMS_SECTOR;
    WellFormedConcat(s, RING_GAUNTLET);
    s := s + RING_GAUNTLET;
    WellFormedConcat(s, FINAL_STRETCH);
    s := s + FINAL_STRETCH;
  }

  /** The entries before the out-of-order pair strictly increase in x. */
  lemma HeadIncreasing()
    ensures XIncreasing(INTRO + RHYTHM_SECTION)
  {
    IncreasingConcat(INTRO, RHYTHM_SECTION);
  }

  /** The entries from the rocket pickup at 3250 on strictly increase in x. */
  lemma RestIncreasing()
    ensures XIncreasing(RING_INTRO + STAIRS + DROP + SPINNING_BLADE_INTRO + RING_CHALLENGE + ENDURANCE +
                        CLIMAX + MOVING_PLATFORMS_SECTOR + RING_GAUNTLET + FINAL_STRETCH)
  {
    var rest := RING_INTRO;
    IncreasingConcat(rest, STAIRS);
    rest := rest + STAIRS;
    IncreasingConcat(rest, DROP);
    rest := rest + DROP;
    IncreasingConcat(rest, SPINNING_BLADE_INTRO);
    rest := rest + SPINNING_BLADE_INTRO;
    IncreasingConcat(rest, RING_CHALLENGE);
    rest := rest + RING_CHALLENGE;
    IncreasingConcat(rest, ENDURANCE);
    rest := rest + ENDURANCE;
    IncreasingConcat(rest, CLIMAX);
    rest := rest + CLIMAX;
    IncreasingConcat(rest, MOVING_PLATFORMS_SECTOR);
    rest := rest + MOVING_PLATFORMS_SECTOR;
    IncreasingConcat(rest, RING_GAUNTLET);
    rest := rest + RING_GAUNTLET;
    IncreasingConcat(rest, FINAL_STRETCH);
  }

  lemma SplitAt(a: seq<Obstacle>, b: seq<Obstacle>)
    ensures (a + b)[..|a|] == a && (a + b)[|a|..] == b
  {
  }

  lemma AppendAssoc(a: seq<Obstacle>, b: seq<Obstacle>, c: seq<Obstacle>)
    ensures a + b + c == a + (b + c)
  {
  }

  /** The authored list is the two runs on either side of entry 11 put together. */
  lemma DefaultLevelSplit()
    ensures DEFAULT_LEVEL_OBSTACLES ==
            (INTRO + RHYTHM_SECTION) +
            (RING_INTRO + STAIRS + DROP + SPINNING_BLADE_INTRO + RING_CHALLENGE + ENDURANCE +
             CLIMAX + MOVING_PLATFORMS_SECTOR + RING_GAUNTLET + FINAL_STRETCH)
  {
    var head := INTRO + RHYTHM_SECTION;
    var all := head + RING_INTRO;
    var rest := RING_INTRO;
    AppendAssoc(head, rest, STAIRS);
    all, rest := all + STAIRS, rest + STAIRS;
    AppendAssoc(head, rest, DROP);
    all, rest := all + DROP, rest + DROP;
    AppendAssoc(head, rest, SPINNING_BLADE_INTRO);
    all, rest := all + SPINNING_BLADE_INTRO, rest + SPINNING_BLADE_INTRO;
    AppendAssoc(head, rest, RING_CHALLENGE);
    all, rest := all + RING_CHALLENGE, rest + RING_CHALLENGE;
    AppendAssoc(head, rest, ENDURANCE);
    all, rest := all + ENDURANCE, rest + ENDURANCE;
    AppendAssoc(head, rest, CLIMAX);
    all, rest := all + CLIMAX, rest + CLIMAX;
    AppendAssoc(head, rest, MOVING_PLATFORMS_SECTOR);
    all, rest := all + MOVING_PLATFORMS_SECTOR, rest + MOVING_PLATFORMS_SECTOR;
    AppendAssoc(head, rest, RING_GAUNTLET);
    all, rest := all + RING_GAUNTLET, rest + RING_GAUNTLET;
    AppendAssoc(head, rest, FINAL_STRETCH);
  }

  /** The authored level is not in x order: the coin at 3350 (entry 10) is
      written before the rocket pickup at 3250 (entry 11). That is the only
      place where x goes down; on each side of it x strictly increases. */
  lemma DefaultLevelOrder()
    ensures |DEFAULT_LEVEL_OBSTACLES| == 58
    ensures DEFAULT_LEVEL_OBSTACLES[10] == Fixed(3350.0, 80.0, 20.0, 20.0, Coin)
    ensures DEFAULT_LEVEL_OBSTACLES[11] == Fixed(3250.0, 50.0, 30.0, 15.0, RocketPickup)
    ensures !XOrdered(DEFAULT_LEVEL_OBSTACLES)
    ensures XIncreasing(DEFAULT_LEVEL_OBSTACLES[..11]) && XIncreasing(DEFAULT_LEVEL_OBSTACLES[11..])
  {
    var head := INTRO + RHYTHM_SECTION;
    var rest := RING_INTRO + STAIRS + DROP + SPINNING_BLADE_INTRO + RING_CHALLENGE + ENDURANCE +
                CLIMAX + MOVING_PLATFORMS_SECTOR + RING_GAUNTLET + FINAL_STRETCH;
    DefaultLevelSplit();
    SplitAt(head, rest);
    HeadIncreasing();
    RestIncreasing();
    assert |head| == 11;
    assert DEFAULT_LEVEL_OBSTACLES[10] == head[10];
    assert DEFAULT_LEVEL_OBSTACLES[11] == rest[0];
  }
}
