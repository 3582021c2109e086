/** The destructible ground: a fixed-length list of `{x, height}` samples
    and a list of rocks, the two height lookups of game.js and the carve
    that an explosion performs (`destroyTerrain`, game.js:182-199).

    Screen coordinates grow downwards: a sample of height `h` is drawn at
    `y = canvasHeight - h`. Square roots are not available to the model, so
    every Euclidean distance is taken by a `hypot` function that callers
    supply and that `IsHypot` characterises. */
module Terrain {
  import opened Util

  /** One ground sample `{x, height}`. */
  datatype Sample = Sample(x: real, height: real)

  /** A rock `{x, size}`; it sits on the ground at its `x`. */
  datatype Rock = Rock(x: real, size: real)

  /** `hypot(dx, dy)` is `Math.sqrt(dx * dx + dy * dy)`. */
  ghost predicate IsHypot(hypot: (real, real) -> real) {
    forall dx: real, dy: real ::
      0.0 <= hypot(dx, dy) && hypot(dx, dy) * hypot(dx, dy) == dx * dx + dy * dy
  }

  /** Samples strictly ascending in `x`, as `initializeTerrain` lays them out. */
  ghost predicate Increasing(t: seq<Sample>) {
    forall i, j :: 0 <= i < j < |t| ==> t[i].x < t[j].x
  }

  /** The shape of every terrain the game builds: non-empty, starting at
      `x = 0`, ascending. */
  ghost predicate IsSampledTerrain(t: seq<Sample>) {
    |t| > 0 && t[0].x == 0.0 && Increasing(t)
  }

  // ---------------------------------------------------------------------
  // Layout (initializeTerrain, game.js:120-146)
  // ---------------------------------------------------------------------

  /** `terrainResolution`: one sample every 5 pixels. */
  const Resolution: nat := 5

  /** `initializeTerrain` scatters this many rocks. */
  const RockCount: nat := 20

  /** How many samples `initializeTerrain` lays over a canvas `width` pixels
      wide: one at each of `x = 0, 5, 10, ...` below `width`. */
  function SampleCount(width: nat): (n: nat)
    ensures n * Resolution >= width
    ensures n > 0 ==> (n - 1) * Resolution < width
    ensures width > 0 ==> n > 0
  {
    (width + Resolution - 1) / Resolution
  }

  /** The terrain `initializeTerrain` builds from the heights its random walk
      produced: sample `i` sits at `x = 5 * i`. */
  function LaidOutTerrain(heights: seq<real>): (t: seq<Sample>)
    ensures |t| == |heights|
    ensures forall i :: 0 <= i < |t| ==> t[i].x == (Resolution * i) as real
    ensures forall i :: 0 <= i < |t| ==> t[i].height == heights[i]
    ensures |heights| > 0 ==> IsSampledTerrain(t)
  {
    seq(|heights|, i requires 0 <= i < |heights| => Sample((Resolution * i) as real, heights[i]))
  }

  /** The rock `initializeTerrain` places from two `Math.random()` draws. */
  function PlacedRock(width: nat, draw: (real, real)): (r: Rock)
    ensures 0.0 <= draw.0 < 1.0 && width > 0 ==> 0.0 <= r.x < width as real
    ensures 0.0 <= draw.1 < 1.0 ==> 2.0 <= r.size < 6.0
  {
    var rock := Rock(draw.0 * width as real, 2.0 + draw.1 * 4.0);
    assert 0.0 <= draw.0 < 1.0 && width > 0 ==> 0.0 <= rock.x < width as real by {
      if 0.0 <= draw.0 < 1.0 && width > 0 {
        DrawScales(draw.0, width as real);
      }
    }
    rock
  }

  /** A `Math.random()` draw lies in [0, 1). */
  predicate InUnit(draw: real) {
    0.0 <= draw < 1.0
  }

  /** A draw in [0, 1) scales a positive length to a point within it. */
  lemma DrawScales(draw: real, length: real)
    requires 0.0 <= draw < 1.0 && 0.0 < length
    ensures 0.0 <= draw * length < length
  {
    assert length - draw * length == (1.0 - draw) * length;
  }

  /** The rocks `initializeTerrain` scatters, one per pair of draws, in
      draw order. Every rock placed from draws in [0, 1) lies on the canvas
      and has a size in [2, 6). */
  function PlacedRocks(width: nat, draws: seq<(real, real)>): (rocks: seq<Rock>)
    ensures |rocks| == |draws|
    ensures forall i :: 0 <= i < |draws| ==> rocks[i] == PlacedRock(width, draws[i])
    ensures forall i :: 0 <= i < |rocks| && width > 0 && InUnit(draws[i].0) && InUnit(draws[i].1) ==>
      0.0 <= rocks[i].x < width as real && 2.0 <= rocks[i].size < 6.0
  {
    seq(|draws|, i requires 0 <= i < |draws| => PlacedRock(width, draws[i]))
  }

  // ---------------------------------------------------------------------
  // Lookups
  // ---------------------------------------------------------------------

  /** The three tests the lookups hand to `Array.prototype.find`. */
  datatype Probe = AtOrRightOf(x: real) | AtOrLeftOf(x: real) | RightOf(x: real)

  predicate Holds(probe: Probe, s: Sample) {
    match probe
    case AtOrRightOf(x) => s.x >= x
    case AtOrLeftOf(x) => s.x <= x
    case RightOf(x) => s.x > x
  }

  /** `t.findIndex(probe)`, with `|t|` for "not found": `Array.prototype.find`
      returns the element at this index, or `undefined` when it is `|t|`. */
  function FindFirst(t: seq<Sample>, probe: Probe): (i: nat)
    ensures i <= |t|
    ensures i < |t| ==> Holds(probe, t[i])
    ensures forall j :: 0 <= j < i ==> !Holds(probe, t[j])
  {
    if t == [] then 0
    else if Holds(probe, t[0]) then 0
    else
      var k := 1 + FindFirst(t[1..], probe);
      assert forall j :: 1 <= j < k ==> t[j] == t[1..][j - 1];
      k
  }

  /** `Tank.getTerrainHeight(x)` (game.js:312-315). */
  function TankHeight(t: seq<Sample>, x: real): (h: real)
    requires |t| > 0
    ensures x <= t[0].x ==> h == t[0].height
    ensures exists k :: 0 <= k < |t| && h == t[k].height
  {
    var i := FindFirst(t, AtOrRightOf(x));
    if i < |t| then t[i].height else t[|t| - 1].height
  }

  /** `Tank.getTerrainHeight` reads the first sample at or to the right of
      `x`, or the last sample when there is none. */
  lemma TankHeightFinds(t: seq<Sample>, x: real)
    requires |t| > 0
    ensures (exists i :: 0 <= i < |t| && t[i].x >= x) ==>
      exists i :: 0 <= i < |t| && t[i].x >= x && TankHeight(t, x) == t[i].height &&
        forall j :: 0 <= j < i ==> t[j].x < x
    ensures (forall j :: 0 <= j < |t| ==> t[j].x < x) ==> TankHeight(t, x) == t[|t| - 1].height
  {
    var i := FindFirst(t, AtOrRightOf(x));
    if i < |t| {
      assert t[i].x >= x && forall j :: 0 <= j < i ==> t[j].x < x;
    }
  }

  /** On ascending terrain, `TankHeight` reads the sample that closes the
      interval `(t[k-1].x, t[k].x]` holding `x`. */
  lemma TankHeightAt(t: seq<Sample>, x: real, k: nat)
    requires Increasing(t) && k < |t|
    requires x <= t[k].x && (k == 0 || t[k - 1].x < x)
    ensures TankHeight(t, x) == t[k].height
  {
    assert forall j :: 0 <= j < k ==> t[j].x <= t[k - 1].x;
  }

  /** The straight line through samples `a` and `b`, evaluated at `x`:
      `a.height * (1 - f) + b.height * f` with `f = (x - a.x) / (b.x - a.x)`. */
  function Lerp(a: Sample, b: Sample, x: real): real
    requires a.x != b.x
  {
    var f := (x - a.x) / (b.x - a.x);
    a.height * (1.0 - f) + b.height * f
  }

  /** The global `getTerrainHeight(x)` (game.js:376-381), `None` where the
      source computes NaN. `leftPoint` is the FIRST sample with `p.x <= x`
      (so `t[0]` whenever `x >= t[0].x`), `rightPoint` the first sample with
      `p.x > x` or the last sample. When both are the same sample the
      division is by zero, and since both ends then have the same height
      the sum is `h * ±Infinity + h * ∓Infinity` (or `0/0`): NaN. */
  function InterpolatedHeight(t: seq<Sample>, x: real): (h: Option<real>)
    requires |t| > 0 && Increasing(t)
    ensures |t| == 1 || x < t[0].x ==> h.None?
  {
    var l := FindFirst(t, AtOrLeftOf(x));
    var r := FindFirst(t, RightOf(x));
    var left := if l < |t| then t[l] else t[0];
    var right := if r < |t| then t[r] else t[|t| - 1];
    if right.x == left.x then None else Some(Lerp(left, right, x))
  }

  /** The lookup is NaN exactly left of the first sample, or everywhere on
      a one-sample terrain. */
  lemma InterpolatedHeightDefined(t: seq<Sample>, x: real)
    requires |t| > 0 && Increasing(t)
    ensures InterpolatedHeight(t, x).None? <==> x < t[0].x || |t| == 1
  {
    var l := FindFirst(t, AtOrLeftOf(x));
    var r := FindFirst(t, RightOf(x));
    if x < t[0].x {
      assert forall j :: 0 <= j < |t| ==> t[0].x <= t[j].x;
      assert l == |t|;
      assert r == 0;
    } else {
      assert l == 0;
      if r < |t| {
        assert r != 0;
      } else if |t| > 1 {
        assert t[0].x < t[|t| - 1].x;
      }
    }
  }

  /** What the lookup interpolates between, as written: for `x` at or right
      of the first sample, the line runs from the FIRST sample to the sample
      `t[k]` just right of `x` (not from the left neighbour `t[k-1]`), and
      past the last sample that line is extended, not clamped. */
  lemma InterpolatesFromFirstSample(t: seq<Sample>, x: real, k: nat)
    requires Increasing(t) && 0 < k < |t| && t[0].x <= x
    requires (t[k - 1].x <= x < t[k].x) || (k == |t| - 1 && t[k].x <= x)
    ensures InterpolatedHeight(t, x) == Some(Lerp(t[0], t[k], x))
  {
    var l := FindFirst(t, AtOrLeftOf(x));
    var r := FindFirst(t, RightOf(x));
    assert l == 0;
    if x < t[k].x {
      assert forall j :: 0 <= j < k ==> t[j].x <= t[k - 1].x;
      assert r == k;
    } else {
      assert forall j :: 0 <= j < |t| ==> t[j].x <= t[k].x;
      assert r == |t|;
    }
  }

  /** A three-sample example: between two samples of height 0 the lookup
      answers 25, because it interpolates from the first sample (height 100). */
  lemma InterpolationIgnoresLeftNeighbour()
    ensures var t := [Sample(0.0, 100.0), Sample(5.0, 0.0), Sample(10.0, 0.0)];
      Increasing(t) && t[1].height == 0.0 && t[2].height == 0.0 &&
      InterpolatedHeight(t, 7.5) == Some(25.0)
  {
    var t := [Sample(0.0, 100.0), Sample(5.0, 0.0), Sample(10.0, 0.0)];
    InterpolatesFromFirstSample(t, 7.5, 2);
  }

  // ---------------------------------------------------------------------
  // destroyTerrain
  // ---------------------------------------------------------------------

  /** The distance from sample `p`, drawn at `(p.x, canvasHeight - p.height)`,
      to the impact point `(x, y)`. */
  function SampleDistance(p: Sample, x: real, y: real, canvasHeight: real,
                          hypot: (real, real) -> real): real
  {
    hypot(p.x - x, (canvasHeight - p.height) - y)
  }

  /** One sample after the blast (game.js:184-189): inside the radius it
      loses `(radius - distance) / 2`, but not below 0. */
  function CarveSample(p: Sample, x: real, y: real, radius: real, canvasHeight: real,
                       hypot: (real, real) -> real): (q: Sample)
    ensures q.x == p.x
    ensures SampleDistance(p, x, y, canvasHeight, hypot) >= radius ==> q == p
    ensures SampleDistance(p, x, y, canvasHeight, hypot) < radius ==>
      0.0 <= q.height && (q.height < p.height || q.height == 0.0)
    ensures 0.0 <= p.height ==> 0.0 <= q.height <= p.height
    ensures var loss := (radius - SampleDistance(p, x, y, canvasHeight, hypot)) / 2.0;
      SampleDistance(p, x, y, canvasHeight, hypot) < radius && loss <= p.height ==>
        q.height == p.height - loss
    ensures var loss := (radius - SampleDistance(p, x, y, canvasHeight, hypot)) / 2.0;
      SampleDistance(p, x, y, canvasHeight, hypot) < radius && loss > p.height ==>
        q.height == 0.0
  {
    var distance := SampleDistance(p, x, y, canvasHeight, hypot);
    if distance < radius then p.(height := MaxR(0.0, p.height - (radius - distance) / 2.0))
    else p
  }

  /** The whole terrain after the blast: sample by sample. */
  function CarvedTerrain(t: seq<Sample>, x: real, y: real, radius: real, canvasHeight: real,
                         hypot: (real, real) -> real): (u: seq<Sample>)
    ensures |u| == |t|
  {
    seq(|t|, i requires 0 <= i < |t| => CarveSample(t[i], x, y, radius, canvasHeight, hypot))
  }

  /** What the carve does to the terrain as a whole: the sample count and
      every `x` are kept, a non-negative height never rises and stays
      non-negative, samples beyond the radius are unchanged, and samples
      within it end at 0 or above (a negative height there is raised to 0). */
  lemma CarvedTerrainProperties(t: seq<Sample>, x: real, y: real, radius: real, canvasHeight: real,
                                hypot: (real, real) -> real)
    ensures var u := CarvedTerrain(t, x, y, radius, canvasHeight, hypot);
      |u| == |t| &&
      (forall i :: 0 <= i < |t| ==> u[i].x == t[i].x) &&
      (forall i :: 0 <= i < |t| && 0.0 <= t[i].height ==> 0.0 <= u[i].height <= t[i].height) &&
      (forall i :: 0 <= i < |t| && SampleDistance(t[i], x, y, canvasHeight, hypot) >= radius ==>
         u[i] == t[i]) &&
      (forall i :: 0 <= i < |t| && SampleDistance(t[i], x, y, canvasHeight, hypot) < radius ==>
         0.0 <= u[i].height)
  {
  }

  /** Carving keeps the layout of the terrain (sample count and every `x`). */
  lemma CarvedTerrainKeepsLayout(t: seq<Sample>, x: real, y: real, radius: real,
                                 canvasHeight: real, hypot: (real, real) -> real)
    requires IsSampledTerrain(t)
    ensures IsSampledTerrain(CarvedTerrain(t, x, y, radius, canvasHeight, hypot))
  {
    var u := CarvedTerrain(t, x, y, radius, canvasHeight, hypot);
    CarvedTerrainProperties(t, x, y, radius, canvasHeight, hypot);
    forall i, j | 0 <= i < j < |u| ensures u[i].x < u[j].x {
      assert u[i].x == t[i].x && u[j].x == t[j].x;
    }
  }

  /** The `terrain.forEach` of `destroyTerrain`: every sample is lowered in
      place. */
  method CarveInPlace(a: array<Sample>, x: real, y: real, radius: real, canvasHeight: real,
                      hypot: (real, real) -> real)
    modifies a
    ensures a[..] == CarvedTerrain(old(a[..]), x, y, radius, canvasHeight, hypot)
  {
    ghost var before := a[..];
    var i := 0;
    while i < a.Length
      invariant 0 <= i <= a.Length
      invariant forall k :: 0 <= k < i ==>
        a[k] == CarveSample(before[k], x, y, radius, canvasHeight, hypot)
      invariant forall k :: i <= k < a.Length ==> a[k] == before[k]
    {
      var point := a[i];
      var dx := point.x - x;
      var dy := (canvasHeight - point.height) - y;
      var distance := hypot(dx, dy);
      if distance < radius {
        a[i] := point.(height := MaxR(0.0, point.height - (radius - distance) / 2.0));
      }
      i := i + 1;
    }
  }

  /** Whether a rock outlives the blast (game.js:194-197): its distance is
      measured from `(rock.x, canvasHeight - getTerrainHeight(rock.x))` on
      the already carved terrain, and it stays only if that distance is
      strictly greater than the radius; a NaN height compares false, so
      such a rock is removed. */
  function RockSurvives(rock: Rock, t: seq<Sample>, x: real, y: real, radius: real,
                        canvasHeight: real, hypot: (real, real) -> real): (survives: bool)
    requires |t| > 0 && Increasing(t)
    ensures survives ==> InterpolatedHeight(t, rock.x).Some?
    ensures InterpolatedHeight(t, rock.x).Some? ==>
      (survives <==> radius < hypot(rock.x - x, (canvasHeight - InterpolatedHeight(t, rock.x).value) - y))
  {
    match InterpolatedHeight(t, rock.x)
    case None => false
    case Some(h) => hypot(rock.x - x, (canvasHeight - h) - y) > radius
  }

  /** `r` is `s` with some elements left out, the rest in their order. */
  ghost predicate IsSubsequence<T>(r: seq<T>, s: seq<T>)
    decreases |s|
  {
    r == [] ||
    (s != [] && ((r[0] == s[0] && IsSubsequence(r[1..], s[1..])) || IsSubsequence(r, s[1..])))
  }

  /** `rocks.filter(...)` in `destroyTerrain`: exactly the surviving rocks,
      in their original order. */
  function KeptRocks(rocks: seq<Rock>, t: seq<Sample>, x: real, y: real, radius: real,
                     canvasHeight: real, hypot: (real, real) -> real): (kept: seq<Rock>)
    requires |t| > 0 && Increasing(t)
    ensures |kept| <= |rocks|
    decreases |rocks|
  {
    if rocks == [] then []
    else
      var rest := KeptRocks(rocks[1..], t, x, y, radius, canvasHeight, hypot);
      if RockSurvives(rocks[0], t, x, y, radius, canvasHeight, hypot) then [rocks[0]] + rest
      else rest
  }

  /** The rock filter keeps exactly the surviving rocks, in their original
      order: what it keeps is a subsequence of the rocks, every kept rock
      survives, every surviving rock is kept, and each surviving rock is
      kept as many times as it occurs (a removed one not at all). */
  lemma {:induction false} KeptRocksExactly(rocks: seq<Rock>, t: seq<Sample>, x: real, y: real,
                                            radius: real, canvasHeight: real,
                                            hypot: (real, real) -> real)
    requires |t| > 0 && Increasing(t)
    ensures var kept := KeptRocks(rocks, t, x, y, radius, canvasHeight, hypot);
      IsSubsequence(kept, rocks) &&
      (forall i :: 0 <= i < |kept| ==> RockSurvives(kept[i], t, x, y, radius, canvasHeight, hypot)) &&
      (forall i :: 0 <= i < |rocks| && RockSurvives(rocks[i], t, x, y, radius, canvasHeight, hypot) ==>
         rocks[i] in kept) &&
      (forall r :: multiset(kept)[r] ==
         if RockSurvives(r, t, x, y, radius, canvasHeight, hypot) then multiset(rocks)[r] else 0)
    decreases |rocks|
  {
    KeptRocksCounted(rocks, t, x, y, radius, canvasHeight, hypot);
    if rocks != [] {
      KeptRocksExactly(rocks[1..], t, x, y, radius, canvasHeight, hypot);
      var rest := KeptRocks(rocks[1..], t, x, y, radius, canvasHeight, hypot);
      assert forall i :: 1 <= i < |rocks| ==> rocks[i] == rocks[1..][i - 1];
      if RockSurvives(rocks[0], t, x, y, radius, canvasHeight, hypot) {
        var kept := [rocks[0]] + rest;
        assert kept[1..] == rest;
      }
    }
  }

  /** The filter keeps every surviving rock as often as it occurs and
      drops every other rock entirely. */
  lemma {:induction false} KeptRocksCounted(rocks: seq<Rock>, t: seq<Sample>, x: real, y: real,
                                            radius: real, canvasHeight: real,
                                            hypot: (real, real) -> real)
    requires |t| > 0 && Increasing(t)
    ensures var kept := KeptRocks(rocks, t, x, y, radius, canvasHeight, hypot);
      forall r :: multiset(kept)[r] ==
        if RockSurvives(r, t, x, y, radius, canvasHeight, hypot) then multiset(rocks)[r] else 0
    decreases |rocks|
  {
    if rocks != [] {
      KeptRocksCounted(rocks[1..], t, x, y, radius, canvasHeight, hypot);
      assert rocks == [rocks[0]] + rocks[1..];
      assert multiset(rocks) == multiset{rocks[0]} + multiset(rocks[1..]);
    }
  }

  /** A rock at exactly the blast radius is removed. */
  lemma RockAtRadiusRemoved(rock: Rock, t: seq<Sample>, x: real, y: real, radius: real,
                            canvasHeight: real, hypot: (real, real) -> real)
    requires |t| > 0 && Increasing(t)
    requires InterpolatedHeight(t, rock.x).Some?
    requires hypot(rock.x - x, (canvasHeight - InterpolatedHeight(t, rock.x).value) - y) == radius
    ensures !RockSurvives(rock, t, x, y, radius, canvasHeight, hypot)
    ensures rock !in KeptRocks([rock], t, x, y, radius, canvasHeight, hypot)
  {
  }
}
