/** The procedural obstacle generator of endless play (`generateProceduralChunk`,
    constants.ts). Each call to `Math.random()` reads the next entry of an
    injected sequence of draws, in the order the source makes the calls. */
module Generator {
  import opened Types
  import opened Constants

  /** The density factor that scales both parts of the gap between beats. */
  const DENSITY_MULTIPLIER: real := 0.9

  /** The fixed part of the gap: 350 scaled by the density factor. */
  const BASE_GAP: real := 350.0 * DENSITY_MULTIPLIER

  /** Bounds of the gap for a draw in [0, 1). */
  const MIN_GAP: real := 315.0
  const MAX_GAP: real := 495.0

  /** Largest offset from the cursor at which a beat other than the fire-ring
      pair places an obstacle (the trailing spike after a block). */
  const MAX_BEAT_SPAN: real := 250.0

  /** The pattern a beat lays down. */
  datatype Pattern =
    | BladeBeat
    | RingBeat
    | SingleSpikeBeat
    | DoubleSpikeBeat
    | MovingSpikeBeat
    | BlockJumpBeat
    | TripleSpikeBeat
    | CoinPathBeat

  /** Draws as `Math.random()` gives them: each in [0, 1). */
  predicate ValidDraws(draws: seq<real>) {
    forall k :: 0 <= k < |draws| ==> 0.0 <= draws[k] < 1.0
  }

  /** The pattern chosen by the first draw of a beat, testing the bands in the
      order the source does. */
  function SelectPattern(r: real): (p: Pattern)
    ensures 0.0 <= r < 1.0 ==> InBand(r, p)
  {
    if r > 0.85 then BladeBeat
    else if r > 0.78 && r <= 0.85 then RingBeat
    else if r < 0.25 then SingleSpikeBeat
    else if r < 0.4 then DoubleSpikeBeat
    else if r < 0.5 then MovingSpikeBeat
    else if r < 0.65 then BlockJumpBeat
    else if r <= 0.78 then TripleSpikeBeat
    else CoinPathBeat
  }

  /** The probability bands as disjoint intervals of [0, 1), written
      independently of the order of the tests; the coin path has none. */
  predicate InBand(r: real, p: Pattern) {
    match p
    case SingleSpikeBeat => 0.0 <= r < 0.25
    case DoubleSpikeBeat => 0.25 <= r < 0.4
    case MovingSpikeBeat => 0.4 <= r < 0.5
    case BlockJumpBeat => 0.5 <= r < 0.65
    case TripleSpikeBeat => 0.65 <= r <= 0.78
    case RingBeat => 0.78 < r <= 0.85
    case BladeBeat => 0.85 < r < 1.0
    case CoinPathBeat => false
  }

  /** How far the cursor moves before a beat, for the second draw `v`. */
  function BeatGap(v: real): (g: real)
    ensures 0.0 <= v < 1.0 ==> MIN_GAP <= g < MAX_GAP
  {
    BASE_GAP + (v * 200.0) * DENSITY_MULTIPLIER
  }

  /** What one beat produces: the pattern, the obstacles in the order they are
      pushed, the cursor for the next beat and how many draws it read. */
  datatype BeatOutcome = BeatOutcome(pattern: Pattern, emitted: seq<Obstacle>, next: real, used: nat)

  /** One iteration of the generator's loop, reading its draws from the front
      of `d`. */
  function Beat(cursor: real, d: seq<real>): (b: BeatOutcome)
    requires 4 <= |d|
    ensures 2 <= b.used <= 4
    ensures 1 <= |b.emitted| <= 4
  {
    var x := cursor + BeatGap(d[1]);
    match SelectPattern(d[0])
    case BladeBeat =>
      var elevation := if d[2] > 0.5 then 40.0 else 100.0;
      var blade := Swinging(x, elevation, BLADE_SIZE, BLADE_SIZE, SpinningBlade);
      var coin := if d[3] > 0.5 then [Fixed(x + 10.0, elevation + 60.0, 20.0, 20.0, Coin)] else [];
      BeatOutcome(BladeBeat, [blade] + coin, x, 4)
    case RingBeat =>
      var ringX := x + 350.0;
      BeatOutcome(RingBeat,
        [Fixed(x, 50.0, 30.0, 15.0, RocketPickup), Fixed(ringX, 70.0, RING_SIZE, RING_SIZE, FireRing)],
        ringX + 100.0, 2)
    case SingleSpikeBeat =>
      BeatOutcome(SingleSpikeBeat, [Fixed(x, 0.0, 30.0, 30.0, Spike)], x, 2)
    case DoubleSpikeBeat =>
      BeatOutcome(DoubleSpikeBeat,
        [Fixed(x, 0.0, 30.0, 30.0, Spike), Fixed(x + 35.0, 0.0, 30.0, 30.0, Spike)], x, 2)
    case MovingSpikeBeat =>
      BeatOutcome(MovingSpikeBeat, [Swinging(x, 0.0, 30.0, 35.0, MovingSpike)], x, 2)
    case BlockJumpBeat =>
      var spike := if d[2] > 0.5 then [Fixed(x + 250.0, 0.0, 30.0, 30.0, Spike)] else [];
      BeatOutcome(BlockJumpBeat, [Fixed(x, 0.0, 40.0, 40.0, Block)] + spike, x, 3)
    case TripleSpikeBeat =>
      BeatOutcome(TripleSpikeBeat,
        [Fixed(x, 0.0, 30.0, 30.0, Spike), Fixed(x + 30.0, 0.0, 30.0, 30.0, Spike),
         Fixed(x + 60.0, 0.0, 30.0, 30.0, Spike), Fixed(x + 30.0, 100.0, 20.0, 20.0, Coin)], x, 2)
    case CoinPathBeat =>
      BeatOutcome(CoinPathBeat,
        [Fixed(x, 50.0, 20.0, 20.0, Coin), Fixed(x + 100.0, 80.0, 20.0, 20.0, Coin)], x, 2)
  }

  /** The generator's state after some beats: the cursor, the number of draws
      read so far, every obstacle pushed so far and, grouped by beat, the same
      obstacles. */
  datatype ChunkState = ChunkState(cursor: real, used: nat, obstacles: seq<Obstacle>, beats: seq<seq<Obstacle>>)

  /** The state after `n` beats starting at `startX`. */
  function Run(startX: real, n: nat, draws: seq<real>): (s: ChunkState)
    requires 4 * n <= |draws|
    ensures |s.beats| == n
    ensures 2 * n <= s.used <= 4 * n
  {
    if n == 0 then ChunkState(startX, 0, [], [])
    else Step(Run(startX, n - 1, draws), draws)
  }

  /** The state after one more beat. */
  function Step(prev: ChunkState, draws: seq<real>): (s: ChunkState)
    requires prev.used + 4 <= |draws|
    ensures prev.used + 2 <= s.used <= prev.used + 4 && |s.beats| == |prev.beats| + 1
  {
    var b := Beat(prev.cursor, draws[prev.used..]);
    ChunkState(b.next, prev.used + b.used, prev.obstacles + b.emitted, prev.beats + [b.emitted])
  }

  /** The state after `count` loop iterations; a negative count runs none. */
  function Chunk(startX: real, count: int, draws: seq<real>): (s: ChunkState)
    requires 4 * count <= |draws|
    ensures count <= 0 ==> s == ChunkState(startX, 0, [], [])
    ensures count > 0 ==> |s.beats| == count
  {
    Run(startX, if count < 0 then 0 else count, draws)
  }

  /** The obstacles of all beats, in order. */
  function Flatten(bs: seq<seq<Obstacle>>): seq<Obstacle> {
    if bs == [] then [] else Flatten(bs[..|bs| - 1]) + bs[|bs| - 1]
  }

  /** The shape of every generated obstacle: a positive box, `initialY` set to
      `y` exactly on the oscillating kinds, no flag set, and never a moving
      platform or a floor gap. */
  predicate IsGeneratedShape(o: Obstacle) {
    && o.width > 0.0 && o.height > 0.0
    && !o.kind.MovingPlatform? && !o.kind.FloorGap?
    && (o.initialY.Some? <==> Oscillates(o.kind))
    && (o.initialY.Some? ==> o.initialY.value == o.y)
    && o.passed.None? && o.collected.None?
  }

  /** Every rocket pickup is immediately followed by a fire ring 350 further on. */
  predicate PickupsPaired(s: seq<Obstacle>) {
    forall k :: 0 <= k < |s| && s[k].kind.RocketPickup? ==>
      k + 1 < |s| && s[k + 1].kind.FireRing? && s[k + 1].x == s[k].x + 350.0
  }

  /** What every beat's output satisfies. */
  predicate BeatShaped(e: seq<Obstacle>) {
    && 1 <= |e| <= 4
    && PickupsPaired(e)
    && forall p :: 0 <= p < |e| ==> IsGeneratedShape(e[p])
  }

  /** Every obstacle of `a` lies strictly before every obstacle of `b`. */
  predicate Before(a: seq<Obstacle>, b: seq<Obstacle>) {
    forall p, q :: 0 <= p < |a| && 0 <= q < |b| ==> a[p].x < b[q].x
  }

  /** Every obstacle of a later beat lies strictly after every obstacle of an
      earlier beat. */
  predicate BeatsOrdered(bs: seq<seq<Obstacle>>) {
    forall i, j :: 0 <= i < j < |bs| ==> Before(bs[i], bs[j])
  }

  /** `generateProceduralChunk(startX, count)`: for each beat, read the band
      draw and the gap draw, move the cursor, then push the obstacles of the
      selected pattern, reading further draws where the pattern needs them. */
  method GenerateProceduralChunk(startX: real, count: int, draws: seq<real>) returns (obstacles: seq<Obstacle>)
    requires 4 * count <= |draws|
    ensures obstacles == Chunk(startX, count, draws).obstacles
    ensures count <= 0 ==> obstacles == []
    ensures count > 0 ==> count <= |obstacles| <= 4 * count
    ensures forall k :: 0 <= k < |obstacles| ==> IsGeneratedShape(obstacles[k])
    ensures PickupsPaired(obstacles)
  {
    obstacles := [];
    var currentX := startX;
    var next: nat := 0;  // index of the next draw to read
    var i := 0;
    ghost var n: nat := if count < 0 then 0 else count;
    ghost var beats: seq<seq<Obstacle>> := [];
    while i < count
      invariant 0 <= i <= n
      invariant Run(startX, i, draws) == ChunkState(currentX, next, obstacles, beats)
    {
      ghost var st := ChunkState(currentX, next, obstacles, beats);
      obstacles, currentX, next := PushBeat(obstacles, currentX, draws, next);
      beats := beats + [Beat(st.cursor, draws[st.used..]).emitted];
      RunStep(startX, i, draws, st);
      i := i + 1;
    }
    RunFacts(startX, n, draws);
  }

  /** One iteration of the generator's loop: read the band draw and the gap
      draw, move the cursor and push the obstacles of the selected pattern,
      reading further draws where the pattern needs them. */
  method PushBeat(pushedBefore: seq<Obstacle>, cursor: real, draws: seq<real>, first: nat)
    returns (obstacles: seq<Obstacle>, currentX: real, next: nat)
    requires first + 4 <= |draws|
    ensures var b := Beat(cursor, draws[first..]);
      obstacles == pushedBefore + b.emitted && currentX == b.next && next == first + b.used
  {
    obstacles, currentX, next := pushedBefore, cursor, first;
    var r := draws[next];
    var varGap := (draws[next + 1] * 200.0) * DENSITY_MULTIPLIER;
    next := next + 2;
    currentX := currentX + BASE_GAP + varGap;

    if r > 0.85 {
      var elevation := if draws[next] > 0.5 then 40.0 else 100.0;
      next := next + 1;
      obstacles := obstacles + [Swinging(currentX, elevation, BLADE_SIZE, BLADE_SIZE, SpinningBlade)];
      if draws[next] > 0.5 {
        obstacles := obstacles + [Fixed(currentX + 10.0, elevation + 60.0, 20.0, 20.0, Coin)];
      }
      next := next + 1;
    } else if r > 0.78 && r <= 0.85 {
      obstacles := obstacles + [Fixed(currentX, 50.0, 30.0, 15.0, RocketPickup)];
      var ringX := currentX + 350.0;
      obstacles := obstacles + [Fixed(ringX, 70.0, RING_SIZE, RING_SIZE, FireRing)];
      currentX := ringX + 100.0;
    } else if r < 0.25 {
      obstacles := obstacles + [Fixed(currentX, 0.0, 30.0, 30.0, Spike)];
    } else if r < 0.4 {
      obstacles := obstacles + [Fixed(currentX, 0.0, 30.0, 30.0, Spike)];
      obstacles := obstacles + [Fixed(currentX + 35.0, 0.0, 30.0, 30.0, Spike)];
    } else if r < 0.5 {
      obstacles := obstacles + [Swinging(currentX, 0.0, 30.0, 35.0, MovingSpike)];
    } else if r < 0.65 {
      obstacles := obstacles + [Fixed(currentX, 0.0, 40.0, 40.0, Block)];
      if draws[next] > 0.5 {
        obstacles := obstacles + [Fixed(currentX + 250.0, 0.0, 30.0, 30.0, Spike)];
      }
      next := next + 1;
    } else if r <= 0.78 {
      obstacles := obstacles + [Fixed(currentX, 0.0, 30.0, 30.0, Spike)];
      obstacles := obstacles + [Fixed(currentX + 30.0, 0.0, 30.0, 30.0, Spike)];
      obstacles := obstacles + [Fixed(currentX + 60.0, 0.0, 30.0, 30.0, Spike)];
      obstacles := obstacles + [Fixed(currentX + 30.0, 100.0, 20.0, 20.0, Coin)];
    } else {
      obstacles := obstacles + [Fixed(currentX, 50.0, 20.0, 20.0, Coin)];
      obstacles := obstacles + [Fixed(currentX + 100.0, 80.0, 20.0, 20.0, Coin)];
    }
  }

  lemma RunStep(startX: real, i: nat, draws: seq<real>, st: ChunkState)
    requires 4 * (i + 1) <= |draws| && Run(startX, i, draws) == st
    ensures Run(startX, i + 1, draws) == Step(st, draws)
  {
  }

  /** Length, shape and pairing facts about the obstacles of `n` beats. */
  lemma RunFacts(startX: real, n: nat, draws: seq<real>)
    requires 4 * n <= |draws|
    ensures var out := Run(startX, n, draws).obstacles;
      && n <= |out| <= 4 * n
      && (forall k :: 0 <= k < |out| ==> IsGeneratedShape(out[k]))
      && PickupsPaired(out)
  {
    var bs := Run(startX, n, draws).beats;
    RunShaped(startX, n, draws);
    RunFlattens(startX, n, draws);
    FlattenLength(bs);
    FlattenShapes(bs);
    FlattenPaired(bs);
  }

  /** The obstacles pushed so far are those of the beats, in order. */
  lemma {:induction false} RunFlattens(startX: real, n: nat, draws: seq<real>)
    requires 4 * n <= |draws|
    ensures Run(startX, n, draws).obstacles == Flatten(Run(startX, n, draws).beats)
  {
    if n > 0 {
      RunFlattens(startX, n - 1, draws);
      var prev := Run(startX, n - 1, draws);
      FlattenSnoc(prev.beats, Beat(prev.cursor, draws[prev.used..]).emitted);
    }
  }

  lemma FlattenSnoc(bs: seq<seq<Obstacle>>, e: seq<Obstacle>)
    ensures Flatten(bs + [e]) == Flatten(bs) + e
  {
    assert (bs + [e])[..|bs|] == bs;
  }

  /** Each beat emits one to four obstacles, so `count` beats emit between
      `count` and four times `count`. */
  lemma {:induction false} FlattenLength(bs: seq<seq<Obstacle>>)
    requires forall i :: 0 <= i < |bs| ==> 1 <= |bs[i]| <= 4
    ensures |bs| <= |Flatten(bs)| <= 4 * |bs|
  {
    if bs != [] {
      FlattenLength(bs[..|bs| - 1]);
    }
  }

  lemma {:induction false} FlattenShapes(bs: seq<seq<Obstacle>>)
    requires forall i :: 0 <= i < |bs| ==> BeatShaped(bs[i])
    ensures forall k :: 0 <= k < |Flatten(bs)| ==> IsGeneratedShape(Flatten(bs)[k])
  {
    if bs != [] {
      FlattenShapes(bs[..|bs| - 1]);
      var front, last := Flatten(bs[..|bs| - 1]), bs[|bs| - 1];
      assert Flatten(bs) == front + last;
      forall k | 0 <= k < |front + last| ensures IsGeneratedShape((front + last)[k]) {
        if k >= |front| {
          assert (front + last)[k] == last[k - |front|];
        }
      }
    }
  }

  lemma PairedConcat(a: seq<Obstacle>, b: seq<Obstacle>)
    requires PickupsPaired(a) && PickupsPaired(b)
    ensures PickupsPaired(a + b)
  {
    forall k | 0 <= k < |a + b| && (a + b)[k].kind.RocketPickup?
      ensures k + 1 < |a + b| && (a + b)[k + 1].kind.FireRing? && (a + b)[k + 1].x == (a + b)[k].x + 350.0
    {
      if k < |a| {
        assert (a + b)[k] == a[k];
        assert (a + b)[k + 1] == a[k + 1];
      } else {
        assert (a + b)[k] == b[k - |a|];
        assert (a + b)[k + 1] == b[k + 1 - |a|];
      }
    }
  }

  lemma {:induction false} FlattenPaired(bs: seq<seq<Obstacle>>)
    requires forall i :: 0 <= i < |bs| ==> BeatShaped(bs[i])
    ensures PickupsPaired(Flatten(bs))
  {
    if bs != [] {
      FlattenPaired(bs[..|bs| - 1]);
      PairedConcat(Flatten(bs[..|bs| - 1]), bs[|bs| - 1]);
    }
  }

  /** Every obstacle a beat emits has the generated shape. */
  lemma BeatShapes(cursor: real, d: seq<real>)
    requires 4 <= |d|
    ensures var e := Beat(cursor, d).emitted; forall p :: 0 <= p < |e| ==> IsGeneratedShape(e[p])
  {
  }

  /** Only the fire-ring beat emits a pickup, and its ring comes right after it. */
  lemma BeatPaired(cursor: real, d: seq<real>)
    requires 4 <= |d|
    ensures PickupsPaired(Beat(cursor, d).emitted)
  {
  }

  /** Every beat's output is shaped as described by `BeatShaped`. */
  lemma BeatIsShaped(cursor: real, d: seq<real>)
    requires 4 <= |d|
    ensures BeatShaped(Beat(cursor, d).emitted)
  {
    BeatShapes(cursor, d);
    BeatPaired(cursor, d);
  }

  lemma {:induction false} RunShaped(startX: real, n: nat, draws: seq<real>)
    requires 4 * n <= |draws|
    ensures forall i :: 0 <= i < n ==> BeatShaped(Run(startX, n, draws).beats[i])
  {
    if n > 0 {
      RunShaped(startX, n - 1, draws);
      var prev := Run(startX, n - 1, draws);
      BeatIsShaped(prev.cursor, draws[prev.used..]);
    }
  }

  /** The bands, tested in the source's order, pick exactly the pattern whose
      interval holds the draw. */
  lemma SelectPatternMatchesBands(r: real, p: Pattern)
    requires 0.0 <= r < 1.0
    ensures SelectPattern(r) == p <==> InBand(r, p)
  {
  }

  /** The earlier bands cover every number, so the final coin-path branch is
      never taken, whatever the draw. */
  lemma CoinPathUnreachable(r: real)
    ensures SelectPattern(r) != CoinPathBeat
  {
  }

  /** Every other pattern is selected by some draw in [0, 1). */
  lemma OtherPatternsReachable(p: Pattern)
    requires p != CoinPathBeat
    ensures exists r :: 0.0 <= r < 1.0 && SelectPattern(r) == p
  {
    var r := match p
      case SingleSpikeBeat => 0.0
      case DoubleSpikeBeat => 0.3
      case MovingSpikeBeat => 0.45
      case BlockJumpBeat => 0.6
      case TripleSpikeBeat => 0.7
      case RingBeat => 0.8
      case BladeBeat => 0.9;
    assert SelectPattern(r) == p;
  }

  /** A beat reads four draws for a blade, three for a block and two otherwise,
      and lays down the pattern its first draw selects. */
  lemma BeatDraws(cursor: real, d: seq<real>)
    requires 4 <= |d|
    ensures Beat(cursor, d).pattern == SelectPattern(d[0])
    ensures Beat(cursor, d).used == match Beat(cursor, d).pattern
      case BladeBeat => 4
      case BlockJumpBeat => 3
      case _ => 2
  {
  }

  /** Where one beat puts things, for a gap draw in [0, 1): the beat's own
      position is the cursor moved on by the gap; the next beat starts there,
      or 450 further after a fire-ring pair; every obstacle of the beat lies at
      or after that position and at most 250 past the next beat's start. */
  lemma BeatBounds(cursor: real, d: seq<real>)
    requires 4 <= |d| && 0.0 <= d[1] < 1.0
    ensures var b, x := Beat(cursor, d), cursor + BeatGap(d[1]);
      && cursor + MIN_GAP <= x < cursor + MAX_GAP
      && b.next == (if b.pattern == RingBeat then x + 450.0 else x)
      && forall p :: 0 <= p < |b.emitted| ==> x <= b.emitted[p].x <= b.next + MAX_BEAT_SPAN
  {
  }

  /** Every obstacle of a later beat lies strictly after every obstacle of an
      earlier beat, and the cursor moves on by at least the minimum gap per
      beat. */
  lemma {:induction false} RunOrdered(startX: real, n: nat, draws: seq<real>)
    requires 4 * n <= |draws| && ValidDraws(draws)
    ensures var s := Run(startX, n, draws);
      && BeatsOrdered(s.beats)
      && s.cursor >= startX + MIN_GAP * (n as real)
      && forall i, p :: 0 <= i < n && 0 <= p < |s.beats[i]| ==> s.beats[i][p].x <= s.cursor + MAX_BEAT_SPAN
  {
    if n > 0 {
      RunOrdered(startX, n - 1, draws);
      var prev := Run(startX, n - 1, draws);
      var d := draws[prev.used..];
      var b := Beat(prev.cursor, d);
      BeatBounds(prev.cursor, d);
      var bs := prev.beats + [b.emitted];
      assert Run(startX, n, draws).beats == bs;
      forall i, j | 0 <= i < j < n ensures Before(bs[i], bs[j]) {
        if j < n - 1 {
          assert bs[i] == prev.beats[i] && bs[j] == prev.beats[j];
        } else {
          assert bs[i] == prev.beats[i] && bs[j] == b.emitted;
        }
      }
      forall i, p | 0 <= i < n && 0 <= p < |bs[i]| ensures bs[i][p].x <= b.next + MAX_BEAT_SPAN {
        if i < n - 1 {
          assert bs[i] == prev.beats[i];
        }
      }
    }
  }

  /** Within a beat obstacles come out in x order, except in the triple-spike
      beat, whose coin (30 past the beat's position) is pushed after the third
      spike (60 past it). */
  lemma BeatOrderWithin(cursor: real, d: seq<real>)
    requires 4 <= |d|
    ensures var b := Beat(cursor, d);
      && (b.pattern != TripleSpikeBeat ==> XOrdered(b.emitted))
      && (b.pattern == TripleSpikeBeat ==>
            && |b.emitted| == 4
            && b.emitted[2].kind.Spike? && b.emitted[3].kind.Coin?
            && b.emitted[3].x == b.emitted[2].x - 30.0)
  {
  }

  /** Beats in order whose own obstacles are in order give a chunk in order. */
  lemma {:induction false} FlattenNonDecreasing(bs: seq<seq<Obstacle>>)
    requires BeatsOrdered(bs)
    requires forall i :: 0 <= i < |bs| ==> XOrdered(bs[i])
    ensures XOrdered(Flatten(bs))
  {
    if bs != [] {
      var front: seq<seq<Obstacle>>, last: seq<Obstacle> := bs[..|bs| - 1], bs[|bs| - 1];
      assert BeatsOrdered(front) by {
        forall i, j | 0 <= i < j < |front| ensures Before(front[i], front[j]) {
          assert front[i] == bs[i] && front[j] == bs[j];
        }
      }
      FlattenNonDecreasing(front);
      var f: seq<Obstacle> := Flatten(front);
      FlattenOrigin(front);
      forall i, j | 0 <= i < j < |f + last| ensures (f + last)[i].x <= (f + last)[j].x {
        if j >= |f| && i < |f| {
          assert f[i] in f;
          var k :| 0 <= k < |front| && f[i] in front[k];
          var p :| 0 <= p < |front[k]| && front[k][p] == f[i];
          assert front[k] == bs[k];
          assert Before(bs[k], last);
          assert (f + last)[j] == last[j - |f|];
        }
      }
    }
  }

  /** Beat `i` of a run is the beat laid down from the state after `i` beats. */
  lemma {:induction false} RunBeatAt(startX: real, n: nat, draws: seq<real>, i: nat)
    requires 4 * n <= |draws| && i < n
    ensures Run(startX, i, draws).used + 4 <= |draws|
    ensures var st := Run(startX, i, draws);
      Run(startX, n, draws).beats[i] == Beat(st.cursor, draws[st.used..]).emitted
  {
    if i < n - 1 {
      RunBeatAt(startX, n - 1, draws, i);
    }
  }

  /** A chunk in which no beat selects the triple-spike pattern comes out in x
      order: that pattern is the only source of disorder. */
  lemma ChunkOrderedWithoutTripleSpike(startX: real, n: nat, draws: seq<real>)
    requires 4 * n <= |draws| && ValidDraws(draws)
    requires forall i :: 0 <= i < n ==>
      Run(startX, i, draws).used < |draws| && SelectPattern(draws[Run(startX, i, draws).used]) != TripleSpikeBeat
    ensures XOrdered(Run(startX, n, draws).obstacles)
  {
    var bs := Run(startX, n, draws).beats;
    RunOrdered(startX, n, draws);
    RunFlattens(startX, n, draws);
    forall i | 0 <= i < n ensures XOrdered(bs[i]) {
      RunBeatAt(startX, n, draws, i);
      var st := Run(startX, i, draws);
      BeatDraws(st.cursor, draws[st.used..]);
      BeatOrderWithin(st.cursor, draws[st.used..]);
    }
    FlattenNonDecreasing(bs);
  }

  /** Every obstacle of the flattened beats comes from one of the beats. */
  lemma {:induction false} FlattenOrigin(bs: seq<seq<Obstacle>>)
    ensures forall o :: o in Flatten(bs) ==> exists k :: 0 <= k < |bs| && o in bs[k]
  {
    if bs != [] {
      var front := bs[..|bs| - 1];
      FlattenOrigin(front);
      forall o | o in Flatten(bs) ensures exists k :: 0 <= k < |bs| && o in bs[k] {
        if o in Flatten(front) {
          var k :| 0 <= k < |front| && o in front[k];
          assert front[k] == bs[k];
        } else {
          assert o in bs[|bs| - 1];
        }
      }
    }
  }

  /** A chunk of one triple-spike beat is not in x order. */
  lemma TripleSpikeChunkOutOfOrder()
    ensures var out := Chunk(0.0, 1, [0.7, 0.0, 0.0, 0.0]).obstacles;
      |out| == 4 && out[2].x == 375.0 && out[3].x == 345.0 && !XOrdered(out)
  {
    var b := Beat(0.0, [0.7, 0.0, 0.0, 0.0]);
    assert SelectPattern(0.7) == TripleSpikeBeat;
    assert Run(0.0, 1, [0.7, 0.0, 0.0, 0.0]).obstacles == b.emitted;
  }
}
