/** The value entities of the simulation (hazards and power-ups) and the pure
    geometry the game applies to them: the zap band above a technician, the
    bullhorn blast circle, falling, and the spawn position. */
module Entities {
  import opened Seqs

  /** The two hazard kinds: water drops are common, rust monsters rare. */
  datatype ProjectileKind = Water | Rust

  /** A falling hazard. The rust wiggle (a sine of a phase) is not modelled:
      a fall only moves the hazard down by its speed. */
  datatype Projectile = Projectile(x: real, y: real, kind: ProjectileKind, speed: real)

  /** Any power-up (battery, bullhorn, survey manager, carto pac, AI bomb):
      the game keeps one list per kind, and only the position matters to the core. */
  datatype Item = Item(x: real, y: real)

  /** How far each kind of power-up falls per tick. */
  const BatterySpeed: real := 1.8
  const BullhornSpeed: real := 1.5
  const SurveyManagerSpeed: real := 1.5
  const CartoPacSpeed: real := 1.3
  const AiBombSpeed: real := 2.0

  /** Height at which entities appear, above the top of the field. */
  const SpawnY: real := -20.0

  /** Damage a hazard deals when it crosses the damage line. */
  function DamageOf(kind: ProjectileKind): (damage: int)
    ensures 10 <= damage <= 15
  {
    if kind == Rust then 15 else 10
  }

  /** Points for zapping a hazard. */
  function PointsOf(kind: ProjectileKind): (points: int)
    ensures 50 <= points <= 100
  {
    if kind == Rust then 100 else 50
  }

  /** Height of the zap band above the cane tip. */
  const ZapReach: real := 150.0

  /** Radius of a bullhorn blast. */
  const BlastRadius: real := 200.0

  function Abs(d: real): (r: real)
    ensures r >= 0.0 && (r == d || r == -d)
  {
    if d < 0.0 then -d else d
  }

  /** The zap hit test: horizontally closer than the range, strictly above the
      cane tip and less than the reach above it. */
  predicate InBand(x: real, y: real, tipX: real, tipY: real, range: int)
  {
    Abs(x - tipX) < range as real && 0.0 < tipY - y < ZapReach
  }

  /** A wider range catches everything a narrower one does. */
  lemma InBandWidens(x: real, y: real, tipX: real, tipY: real, range: int, wider: int)
    requires range <= wider && InBand(x, y, tipX, tipY, range)
    ensures InBand(x, y, tipX, tipY, wider)
  {
  }

  function ProjectileHit(tipX: real, tipY: real, range: int): Projectile -> bool
  {
    (p: Projectile) => InBand(p.x, p.y, tipX, tipY, range)
  }

  function ProjectileMiss(tipX: real, tipY: real, range: int): Projectile -> bool
  {
    (p: Projectile) => !InBand(p.x, p.y, tipX, tipY, range)
  }

  function ItemHit(tipX: real, tipY: real, range: int): Item -> bool
  {
    (it: Item) => InBand(it.x, it.y, tipX, tipY, range)
  }

  function ItemMiss(tipX: real, tipY: real, range: int): Item -> bool
  {
    (it: Item) => !InBand(it.x, it.y, tipX, tipY, range)
  }

  /** The hit and miss selectors agree with the band test. */
  lemma ProjectileHitIs(p: Projectile, tipX: real, tipY: real, range: int)
    ensures ProjectileHit(tipX, tipY, range)(p) == InBand(p.x, p.y, tipX, tipY, range)
    ensures ProjectileMiss(tipX, tipY, range)(p) == !InBand(p.x, p.y, tipX, tipY, range)
  {
  }

  lemma ItemHitIs(it: Item, tipX: real, tipY: real, range: int)
    ensures ItemHit(tipX, tipY, range)(it) == InBand(it.x, it.y, tipX, tipY, range)
    ensures ItemMiss(tipX, tipY, range)(it) == !InBand(it.x, it.y, tipX, tipY, range)
  {
  }

  /** The blast test, on squared distances: strictly inside radius 200. */
  predicate InBlast(x: real, y: real, cx: real, cy: real)
  {
    (x - cx) * (x - cx) + (y - cy) * (y - cy) < BlastRadius * BlastRadius
  }

  function OutsideBlast(cx: real, cy: real): Projectile -> bool
  {
    (p: Projectile) => !InBlast(p.x, p.y, cx, cy)
  }

  /** Outside the blast of every bullhorn in cs. */
  function Unblasted(cs: seq<Item>): Projectile -> bool
  {
    (p: Projectile) => forall k :: 0 <= k < |cs| ==> !InBlast(p.x, p.y, cs[k].x, cs[k].y)
  }

  /** Outside the blasts of no bullhorn at all: every hazard. */
  lemma UnblastedNone(ps: seq<Projectile>)
    ensures Filter(ps, Unblasted([])) == ps
  {
    FilterAll(ps, Unblasted([]));
  }

  /** One more blast, at b, on what earlier blasts at cs left, is the blasts at
      b and cs together on the original hazards: blasts commute. */
  lemma BlastAgain(ps: seq<Projectile>, b: Item, cs: seq<Item>)
    ensures Filter(Filter(ps, Unblasted(cs)), OutsideBlast(b.x, b.y)) == Filter(ps, Unblasted([b] + cs))
  {
    forall p: Projectile
      ensures Unblasted([b] + cs)(p) == (Unblasted(cs)(p) && OutsideBlast(b.x, b.y)(p))
    {
      var bs := [b] + cs;
      assert bs[0] == b;
      assert forall k :: 0 <= k < |cs| ==> bs[k + 1] == cs[k];
      if Unblasted(cs)(p) && OutsideBlast(b.x, b.y)(p) {
        forall k | 0 <= k < |bs| ensures !InBlast(p.x, p.y, bs[k].x, bs[k].y) {
          if k > 0 {
            assert bs[k] == cs[k - 1];
          }
        }
      }
    }
    FilterTwice(ps, Unblasted(cs), OutsideBlast(b.x, b.y), Unblasted([b] + cs));
  }

  /** What the hazard pass and the bullhorn blasts of a zap leave: only hazards
      that were there, none of them in the band. */
  lemma ZapSurvivors(ps: seq<Projectile>, tipX: real, tipY: real, range: int, horns: seq<Item>)
    ensures var left := Filter(Filter(ps, ProjectileMiss(tipX, tipY, range)), Unblasted(horns));
      forall k :: 0 <= k < |left| ==> left[k] in ps && !InBand(left[k].x, left[k].y, tipX, tipY, range)
  {
    var missed := Filter(ps, ProjectileMiss(tipX, tipY, range));
    FilterMembers(ps, ProjectileMiss(tipX, tipY, range));
    FilterMembers(missed, Unblasted(horns));
  }

  predicate IsRust(p: Projectile)
  {
    p.kind == Rust
  }

  predicate IsWater(p: Projectile)
  {
    p.kind == Water
  }

  /** Sum of a per-kind weight over a sequence of hazards. */
  function SumOf(s: seq<Projectile>, w: ProjectileKind -> int): int
  {
    if s == [] then 0 else w(s[0].kind) + SumOf(s[1..], w)
  }

  lemma SumOfCons(p: Projectile, rest: seq<Projectile>, w: ProjectileKind -> int)
    ensures SumOf([p] + rest, w) == w(p.kind) + SumOf(rest, w)
  {
    assert ([p] + rest)[0] == p && ([p] + rest)[1..] == rest;
  }

  /** One step of the reverse zap pass: the points of the hits from index i on
      are those of ps[i], if it is hit, plus the points of the hits after it. */
  lemma HitPointsStep(ps: seq<Projectile>, i: int, tipX: real, tipY: real, range: int)
    requires 0 <= i < |ps|
    ensures SumOf(Filter(ps[i..], ProjectileHit(tipX, tipY, range)), PointsOf)
      == (if InBand(ps[i].x, ps[i].y, tipX, tipY, range) then PointsOf(ps[i].kind) else 0)
         + SumOf(Filter(ps[i + 1..], ProjectileHit(tipX, tipY, range)), PointsOf)
  {
    FilterAt(ps, i, ProjectileHit(tipX, tipY, range));
    if InBand(ps[i].x, ps[i].y, tipX, tipY, range) {
      SumOfCons(ps[i], Filter(ps[i + 1..], ProjectileHit(tipX, tipY, range)), PointsOf);
    } else {
      assert Filter(ps[i..], ProjectileHit(tipX, tipY, range))
        == Filter(ps[i + 1..], ProjectileHit(tipX, tipY, range));
    }
  }

  /** One step of a reverse power-up pass: the power-ups in the band from index
      i on are items[i], if it is in the band, and those after it. */
  lemma ItemHitsStep(items: seq<Item>, i: int, tipX: real, tipY: real, range: int)
    requires 0 <= i < |items|
    ensures |Filter(items[i..], ItemHit(tipX, tipY, range))|
      == (if InBand(items[i].x, items[i].y, tipX, tipY, range) then 1 else 0)
         + |Filter(items[i + 1..], ItemHit(tipX, tipY, range))|
  {
    FilterAt(items, i, ItemHit(tipX, tipY, range));
  }

  /** A per-kind total is the weight of each kind times how many of that kind occur. */
  lemma {:induction false} SumOfByKind(s: seq<Projectile>, w: ProjectileKind -> int)
    ensures SumOf(s, w) == w(Rust) * |Filter(s, IsRust)| + w(Water) * |Filter(s, IsWater)|
  {
    if s != [] {
      SumOfByKind(s[1..], w);
      var r, t := |Filter(s[1..], IsRust)|, |Filter(s[1..], IsWater)|;
      if s[0].kind == Rust {
        assert Filter(s, IsRust) == [s[0]] + Filter(s[1..], IsRust);
        assert Filter(s, IsWater) == Filter(s[1..], IsWater);
        MulSucc(w(Rust), r);
      } else {
        assert Filter(s, IsRust) == Filter(s[1..], IsRust);
        assert Filter(s, IsWater) == [s[0]] + Filter(s[1..], IsWater);
        MulSucc(w(Water), t);
      }
    }
  }

  lemma MulSucc(a: int, n: int)
    ensures a * (n + 1) == a * n + a
  {
  }

  /** Points a zap from (tipX, tipY) earns on hazards: 100 per rust monster and
      50 per water drop inside the band, and nothing otherwise. */
  function ZapScore(ps: seq<Projectile>, tipX: real, tipY: real, range: int): (r: int)
    ensures r == 100 * |Filter(Filter(ps, ProjectileHit(tipX, tipY, range)), IsRust)|
               + 50 * |Filter(Filter(ps, ProjectileHit(tipX, tipY, range)), IsWater)|
  {
    SumOfByKind(Filter(ps, ProjectileHit(tipX, tipY, range)), PointsOf);
    SumOf(Filter(ps, ProjectileHit(tipX, tipY, range)), PointsOf)
  }

  /** Every zapped hazard is worth 50 or 100: the score is zero exactly when
      nothing was in the band. */
  lemma {:induction false} ZapScoreBounds(ps: seq<Projectile>, tipX: real, tipY: real, range: int)
    ensures var n := |Filter(ps, ProjectileHit(tipX, tipY, range))|;
      50 * n <= ZapScore(ps, tipX, tipY, range) <= 100 * n
  {
    var hits := Filter(ps, ProjectileHit(tipX, tipY, range));
    forall x | true ensures IsWater(x) == !IsRust(x) { }
    FilterSplit(hits, IsRust, IsWater);
  }

  /** One tick of falling: straight down, by the hazard's own speed. */
  function Fall(p: Projectile): (q: Projectile)
    ensures q.x == p.x && q.kind == p.kind && q.speed == p.speed
  {
    p.(y := p.y + p.speed)
  }

  function Falls(ps: seq<Projectile>): (r: seq<Projectile>)
    ensures |r| == |ps|
  {
    if ps == [] then [] else [Fall(ps[0])] + Falls(ps[1..])
  }

  /** Element k of a fallen list is element k fallen. */
  lemma {:induction false} FallsAt(ps: seq<Projectile>, k: int)
    requires 0 <= k < |ps|
    ensures Falls(ps)[k] == Fall(ps[k])
    decreases k
  {
    if k > 0 {
      FallsAt(ps[1..], k - 1);
    }
  }

  /** Below the damage line. */
  function Landed(line: real): Projectile -> bool
  {
    (p: Projectile) => p.y > line
  }

  function Aloft(line: real): Projectile -> bool
  {
    (p: Projectile) => !(p.y > line)
  }

  /** The hazards still falling after one tick, in their order. */
  function Remaining(ps: seq<Projectile>, line: real): (r: seq<Projectile>)
    ensures |r| <= |ps|
  {
    Filter(Falls(ps), Aloft(line))
  }

  /** Total damage the hazards that cross the line this tick deal. */
  function Impact(ps: seq<Projectile>, line: real): int
  {
    SumOf(Filter(Falls(ps), Landed(line)), DamageOf)
  }

  /** Each hazard either stays aloft or lands; a landed rust monster deals 15
      and a landed water drop 10, so the total lies between 10 and 15 per
      landed hazard. */
  lemma {:induction false} ImpactBounds(ps: seq<Projectile>, line: real)
    ensures var landed := Filter(Falls(ps), Landed(line));
      Impact(ps, line) == 15 * |Filter(landed, IsRust)| + 10 * |Filter(landed, IsWater)|
    ensures var n := |ps| - |Remaining(ps, line)|;
      n >= 0 && 10 * n <= Impact(ps, line) <= 15 * n
  {
    var moved := Falls(ps);
    var landed := Filter(moved, Landed(line));
    forall x | true ensures Landed(line)(x) == !Aloft(line)(x) { }
    FilterSplit(moved, Aloft(line), Landed(line));
    SumOfByKind(landed, DamageOf);
    forall x | true ensures IsWater(x) == !IsRust(x) { }
    FilterSplit(landed, IsRust, IsWater);
  }

  /** One step of the reverse landing loop: from index i on, the hazard at i
      either stays aloft after its fall or lands and deals its damage, and the
      hazards after it account for the rest. */
  lemma LandingStep(ps: seq<Projectile>, i: int, line: real)
    requires 0 <= i < |ps|
    ensures Remaining(ps[i..], line) ==
      (if Fall(ps[i]).y > line then [] else [Fall(ps[i])]) + Remaining(ps[i + 1..], line)
    ensures Impact(ps[i..], line) ==
      (if Fall(ps[i]).y > line then DamageOf(ps[i].kind) else 0) + Impact(ps[i + 1..], line)
  {
    var p, moved := Fall(ps[i]), Falls(ps[i + 1..]);
    assert ps[i..][0] == ps[i] && ps[i..][1..] == ps[i + 1..];
    assert Falls(ps[i..]) == [p] + moved;
    assert ([p] + moved)[0] == p && ([p] + moved)[1..] == moved;
    if p.y > line {
      assert Filter([p] + moved, Landed(line)) == [p] + Filter(moved, Landed(line));
      SumOfCons(p, Filter(moved, Landed(line)), DamageOf);
    } else {
      assert Filter([p] + moved, Landed(line)) == Filter(moved, Landed(line));
    }
  }

  /** What a tick leaves of the hazards: each one that is left was in the list,
      fell by its speed and is not below the line; each one that did not cross
      the line is left. */
  lemma RemainingAloft(ps: seq<Projectile>, line: real)
    ensures forall k :: 0 <= k < |Remaining(ps, line)| ==>
      Remaining(ps, line)[k] in Falls(ps) && !(Remaining(ps, line)[k].y > line)
    ensures forall k :: 0 <= k < |ps| && !(Fall(ps[k]).y > line) ==> Fall(ps[k]) in Remaining(ps, line)
  {
    FilterMembers(Falls(ps), Aloft(line));
    forall k | 0 <= k < |ps| && !(Fall(ps[k]).y > line)
      ensures Fall(ps[k]) in Remaining(ps, line)
    {
      FallsAt(ps, k);
    }
  }

  /** One tick of falling for a power-up list: move by speed, drop those below limit. */
  function Moved(items: seq<Item>, speed: real): (r: seq<Item>)
    ensures |r| == |items|
  {
    if items == [] then [] else [Item(items[0].x, items[0].y + speed)] + Moved(items[1..], speed)
  }

  /** Element k of a moved list is element k moved. */
  lemma {:induction false} MovedAt(items: seq<Item>, speed: real, k: int)
    requires 0 <= k < |items|
    ensures Moved(items, speed)[k] == Item(items[k].x, items[k].y + speed)
    decreases k
  {
    if k > 0 {
      MovedAt(items[1..], speed, k - 1);
    }
  }

  function OnField(limit: real): Item -> bool
  {
    (it: Item) => !(it.y > limit)
  }

  function Drift(items: seq<Item>, speed: real, limit: real): seq<Item>
  {
    Filter(Moved(items, speed), OnField(limit))
  }

  /** One step of a reverse drift loop: from index i on, the power-up at i is
      kept after its move unless it is now below the limit. */
  lemma DriftStep(items: seq<Item>, i: int, speed: real, limit: real)
    requires 0 <= i < |items|
    ensures var it := Item(items[i].x, items[i].y + speed);
      Drift(items[i..], speed, limit) == (if it.y > limit then [] else [it]) + Drift(items[i + 1..], speed, limit)
  {
    var it, moved := Item(items[i].x, items[i].y + speed), Moved(items[i + 1..], speed);
    assert items[i..][0] == items[i] && items[i..][1..] == items[i + 1..];
    assert Moved(items[i..], speed) == [it] + moved;
    assert ([it] + moved)[0] == it && ([it] + moved)[1..] == moved;
  }

  /** What a drift leaves: each power-up left was in the list, moved down by
      speed and is not below the limit; each one that did not pass the limit is left. */
  lemma DriftKeeps(items: seq<Item>, speed: real, limit: real)
    ensures forall k :: 0 <= k < |Drift(items, speed, limit)| ==>
      Drift(items, speed, limit)[k] in Moved(items, speed) && !(Drift(items, speed, limit)[k].y > limit)
    ensures forall k :: 0 <= k < |items| && !(items[k].y + speed > limit) ==>
      Item(items[k].x, items[k].y + speed) in Drift(items, speed, limit)
  {
    FilterMembers(Moved(items, speed), OnField(limit));
    forall k | 0 <= k < |items| && !(items[k].y + speed > limit)
      ensures Item(items[k].x, items[k].y + speed) in Drift(items, speed, limit)
    {
      MovedAt(items, speed, k);
    }
  }

  /** One step of the reverse drift loop, on the sequence it works on: the
      untouched prefix up to i followed by the drift of what comes after i.
      Splicing item i out, or putting it back moved, gives the untouched prefix
      up to i - 1 followed by the drift from i on. */
  lemma DriftSplice(items: seq<Item>, i: int, speed: real, limit: real)
    requires 0 <= i < |items|
    ensures var t := items[..i + 1] + Drift(items[i + 1..], speed, limit);
      var it := Item(t[i].x, t[i].y + speed);
      && |t| > i && t[i] == items[i]
      && (it.y > limit ==> t[..i] + t[i + 1..] == items[..i] + Drift(items[i..], speed, limit))
      && (!(it.y > limit) ==> t[..i] + [it] + t[i + 1..] == items[..i] + Drift(items[i..], speed, limit))
  {
    var rest := Drift(items[i + 1..], speed, limit);
    var it := Item(items[i].x, items[i].y + speed);
    DriftStep(items, i, speed, limit);
    SpliceAt(items, i, rest);
    ConcatAssoc(items[..i], [it], rest);
  }

  /** A power-up loop of the tick, from the last item to the first: each item
      moves down by speed and is spliced out once it is below the limit. */
  method DriftItems(items: seq<Item>, speed: real, limit: real) returns (r: seq<Item>)
    ensures r == Drift(items, speed, limit)
  {
    r := items;
    var i := |r| - 1;
    assert items[..i + 1] == items && items[i + 1..] == [];
    while i >= 0
      invariant -1 <= i < |items|
      invariant r == items[..i + 1] + Drift(items[i + 1..], speed, limit)
      invariant i < 0 ==> r == Drift(items, speed, limit)
    {
      DriftSplice(items, i, speed, limit);
      var item := Item(r[i].x, r[i].y + speed);
      if item.y > limit {
        r := r[..i] + r[i + 1..];
      } else {
        r := r[..i] + [item] + r[i + 1..];
      }
      if i == 0 {
        assert items[..0] == [] && items[0..] == items;
      }
      i := i - 1;
    }
  }

  /** The outcome of the battery pass of one zap. */
  datatype Sweep = Sweep(kept: seq<Item>, collected: nat, range: int)

  /** The battery pass, from the last battery to the first: a battery in the
      band at the current range is collected, and collecting one sets the range
      to `boosted` for every battery examined after it. */
  function BatterySweep(bs: seq<Item>, tipX: real, tipY: real, range: int, boosted: int): (r: Sweep)
    ensures |r.kept| + r.collected == |bs|
    ensures r.range == if r.collected > 0 then boosted else range
    decreases |bs|
  {
    if bs == [] then Sweep([], 0, range)
    else
      var b := bs[|bs| - 1];
      var front := bs[..|bs| - 1];
      if InBand(b.x, b.y, tipX, tipY, range) then
        var r := BatterySweep(front, tipX, tipY, boosted, boosted);
        Sweep(r.kept, r.collected + 1, r.range)
      else
        var r := BatterySweep(front, tipX, tipY, range, boosted);
        Sweep(r.kept + [b], r.collected, r.range)
  }

  /** What the battery pass keeps: only batteries it was given, none that was
      in the band at the starting range, and every one outside the band even at
      the boosted range. Each battery is therefore collected at most once. */
  lemma {:induction false} SweepKeeps(bs: seq<Item>, tipX: real, tipY: real, range: int, boosted: int)
    requires range <= boosted
    ensures var r := BatterySweep(bs, tipX, tipY, range, boosted);
      && (forall k :: 0 <= k < |r.kept| ==> r.kept[k] in bs)
      && (forall k :: 0 <= k < |r.kept| ==> !InBand(r.kept[k].x, r.kept[k].y, tipX, tipY, range))
      && (forall k :: 0 <= k < |bs| && !InBand(bs[k].x, bs[k].y, tipX, tipY, boosted) ==> bs[k] in r.kept)
    decreases |bs|
  {
    if bs != [] {
      var b := bs[|bs| - 1];
      var front := bs[..|bs| - 1];
      assert forall k :: 0 <= k < |front| ==> front[k] == bs[k];
      assert bs == front + [b];
      if InBand(b.x, b.y, tipX, tipY, range) {
        SweepKeeps(front, tipX, tipY, boosted, boosted);
        var r := BatterySweep(front, tipX, tipY, boosted, boosted);
        forall k | 0 <= k < |r.kept|
          ensures !InBand(r.kept[k].x, r.kept[k].y, tipX, tipY, range)
        {
          if InBand(r.kept[k].x, r.kept[k].y, tipX, tipY, range) {
            InBandWidens(r.kept[k].x, r.kept[k].y, tipX, tipY, range, boosted);
          }
        }
      } else {
        SweepKeeps(front, tipX, tipY, range, boosted);
        var r := BatterySweep(front, tipX, tipY, range, boosted);
        var kept := r.kept + [b];
        assert forall k :: 0 <= k < |r.kept| ==> kept[k] == r.kept[k];
        assert kept[|r.kept|] == b && b in bs;
      }
    }
  }

  /** One step of the battery sweep over the prefix ending at index i. */
  lemma SweepStep(bs: seq<Item>, i: int, tipX: real, tipY: real, range: int, boosted: int)
    requires 0 <= i < |bs|
    ensures BatterySweep(bs[..i + 1], tipX, tipY, range, boosted) ==
      if InBand(bs[i].x, bs[i].y, tipX, tipY, range) then
        var r := BatterySweep(bs[..i], tipX, tipY, boosted, boosted);
        Sweep(r.kept, r.collected + 1, r.range)
      else
        var r := BatterySweep(bs[..i], tipX, tipY, range, boosted);
        Sweep(r.kept + [bs[i]], r.collected, r.range)
  {
    assert bs[..i + 1][..i] == bs[..i];
    assert bs[..i + 1][i] == bs[i];
  }

  /** Where the duplicate technician stands: 100 to the right, or 100 to the
      left when the right spot would be past width - 50. */
  function DuplicateX(x: real, width: real): (r: real)
    ensures Abs(r - x) == 100.0
    ensures x <= width + 50.0 ==> r <= width - 50.0
    ensures r > x <==> x + 100.0 <= width - 50.0
  {
    if x + 100.0 > width - 50.0 then x - 100.0 else x + 100.0
  }

  lemma ScaleBelow(r: real, span: real)
    requires 0.0 <= r < 1.0 && span >= 0.0
    ensures 0.0 <= r * span <= span
  {
    assert r * span <= 1.0 * span by {
      assert (1.0 - r) * span >= 0.0;
    }
  }

  /** Spawn position for a uniform draw r: inside the field, 20 from each edge. */
  function SpawnX(r: real, width: real): (x: real)
    requires 0.0 <= r < 1.0 && width >= 40.0
    ensures 20.0 <= x <= width - 20.0
  {
    var span := width - 40.0;
    ScaleBelow(r, span);
    r * span + 20.0
  }
}
