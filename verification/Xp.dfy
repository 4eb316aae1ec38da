/** Experience points: what a task is worth, how it is shared out, and what a skill's total says. Exact arithmetic. */
module Xp {
  import opened Dict
  import opened Schema

  function Min(a: int, b: int): int { if a <= b then a else b }
  function Max(a: int, b: int): int { if a >= b then a else b }

  /** `int` of a number: towards zero. */
  function Trunc(x: real): int { if x >= 0.0 then x.Floor else -(-x).Floor }

  lemma TruncMonotone(x: real, y: real)
    requires x <= y
    ensures Trunc(x) <= Trunc(y)
  {
  }

  lemma TruncAtMost(x: real, n: int)
    requires x <= n as real
    ensures Trunc(x) <= n
  {
    TruncMonotone(x, n as real);
  }

  lemma Product(a: real, b: real, c: real)
    requires a <= b && c >= 0.0
    ensures a * c <= b * c
  {
  }

  // ---- levels ---------------------------------------------------------------------------------

  const LEVELS := 10
  const BEYOND_TABLE := 15000
  const XP_THRESHOLDS := [0, 100, 300, 700, 1500, 2500, 4000, 6000, 8500, 10000]

  predicate IsTable(t: seq<int>) {
    |t| == LEVELS && t[0] == 0 && forall i, j | 0 <= i < j < |t| :: t[i] < t[j]
  }

  lemma ThresholdsAreTable()
    ensures IsTable(XP_THRESHOLDS)
  {
  }

  /** The descending scan over the first `n` thresholds. */
  function Scan(t: seq<int>, n: nat, xp: int): int
    requires n <= |t|
  {
    if n == 0 then 1 else if xp >= t[n - 1] then n else Scan(t, n - 1, xp)
  }

  function Level(t: seq<int>, xp: int): int { Scan(t, |t|, xp) }

  predicate Reaches(t: seq<int>, level: int, xp: int) { 1 <= level <= |t| && t[level - 1] <= xp }

  lemma {:induction false} ScanHighest(t: seq<int>, n: nat, xp: int)
    requires IsTable(t) && n <= |t| && xp >= 0
    ensures n > 0 ==> Reaches(t, Scan(t, n, xp), xp)
    ensures forall level | level <= n && Reaches(t, level, xp) :: level <= Scan(t, n, xp)
  {
    if n > 1 && xp < t[n - 1] {
      ScanHighest(t, n - 1, xp);
    }
  }

  /** A level is the highest whose threshold has been reached. */
  lemma LevelIsHighest(t: seq<int>, xp: int, level: int)
    requires IsTable(t) && xp >= 0
    ensures level == Level(t, xp) <==> Reaches(t, level, xp) && (level < LEVELS ==> xp < t[level])
  {
    ScanHighest(t, |t|, xp);
    var top := Level(t, xp);
    if top < LEVELS {
      assert !Reaches(t, top + 1, xp);
    }
    if Reaches(t, level, xp) && level < top {
      assert t[level] <= t[top - 1];
    }
  }

  lemma LevelMonotone(t: seq<int>, x: int, y: int)
    requires IsTable(t) && x <= y
    ensures 1 <= Level(t, x) <= Level(t, y) <= LEVELS
  {
    if x >= 0 {
      ScanHighest(t, |t|, x);
      ScanHighest(t, |t|, y);
      assert Reaches(t, Level(t, x), y);
    } else {
      NegativeIsFirst(t, |t|, x);
      if y >= 0 {
        ScanHighest(t, |t|, y);
      } else {
        NegativeIsFirst(t, |t|, y);
      }
    }
  }

  lemma {:induction false} NegativeIsFirst(t: seq<int>, n: nat, xp: int)
    requires IsTable(t) && n <= |t| && xp < 0
    ensures Scan(t, n, xp) == 1
  {
    if n > 0 {
      NegativeIsFirst(t, n - 1, xp);
    }
  }

  /** A lookup in the table of levels, which run from 1. */
  function Threshold(t: seq<int>, level: int, default: int): int {
    if 1 <= level <= |t| then t[level - 1] else default
  }

  function NextThreshold(t: seq<int>, level: int): int { Threshold(t, Min(level + 1, LEVELS), BEYOND_TABLE) }

  function XpToNext(t: seq<int>, xp: int, level: int): int { Max(0, NextThreshold(t, level) - xp) }

  function Percent(levelXp: int, levelRange: int): int {
    if levelRange > 0 then Trunc(levelXp as real / levelRange as real * 100.0) else 100
  }

  function ProgressPercent(t: seq<int>, xp: int, level: int): int {
    var current := Threshold(t, level, 0);
    Min(100, Percent(xp - current, NextThreshold(t, level) - current))
  }

  /** Adding what is missing reaches exactly the next level; adding less stays. */
  lemma XpToNextIsExact(t: seq<int>, xp: int, less: int)
    requires IsTable(t) && xp >= 0
    ensures Level(t, xp + XpToNext(t, xp, Level(t, xp))) == Min(Level(t, xp) + 1, LEVELS)
    ensures 0 <= less < XpToNext(t, xp, Level(t, xp)) ==> Level(t, xp + less) == Level(t, xp)
    ensures XpToNext(t, xp, Level(t, xp)) == 0 <==> Level(t, xp) == LEVELS
  {
    var level, missing := Level(t, xp), XpToNext(t, xp, Level(t, xp));
    LevelIsHighest(t, xp, level);
    LevelIsHighest(t, xp + missing, Min(level + 1, LEVELS));
    if 0 <= less < missing {
      LevelIsHighest(t, xp + less, level);
    }
  }

  lemma PercentBounds(a: int, b: int)
    requires 0 <= a < b
    ensures 0 <= Percent(a, b) < 100
  {
    var q := a as real / b as real;
    assert q * b as real == a as real;
    assert 0.0 <= q < 1.0;
  }

  /** With the level of the total, progress is a percentage, and full exactly at the top. */
  lemma ProgressInRange(t: seq<int>, xp: int)
    requires IsTable(t) && xp >= 0
    ensures 0 <= ProgressPercent(t, xp, Level(t, xp)) <= 100
    ensures ProgressPercent(t, xp, Level(t, xp)) == 100 <==> Level(t, xp) == LEVELS
  {
    var level := Level(t, xp);
    LevelIsHighest(t, xp, level);
    if level < LEVELS {
      PercentBounds(xp - t[level - 1], t[level] - t[level - 1]);
    }
  }

  // ---- what a task is worth -------------------------------------------------------------------

  function BaseXp(storyPoints: int): int { storyPoints * 10 }

  function Clamp(x: real): real { if x > 2.0 then 2.0 else if x < 0.5 then 0.5 else x }

  function TimeBonus(deadlineDays: int, actualDays: int): real {
    if deadlineDays <= 0 then 1.0
    else Clamp(1.0 + (deadlineDays - actualDays) as real / deadlineDays as real)
  }

  function StreakBonus(streak: int): real {
    if streak >= 10 then 1.5 else if streak >= 5 then 1.2 else 1.0
  }

  function Multiplier(deadlineDays: int, actualDays: int, streak: int): real {
    TimeBonus(deadlineDays, actualDays) * StreakBonus(streak)
  }

  lemma PairMonotone(x: real, x': real, m: real, m': real)
    requires 0.0 <= x <= x' && 0.0 <= m <= m'
    ensures 0.0 <= x * m <= x' * m'
  {
    Product(x, x', m);
    Product(m, m', x');
  }

  lemma MultiplierInRange(deadlineDays: int, actualDays: int, streak: int)
    ensures 0.5 <= Multiplier(deadlineDays, actualDays, streak) <= 3.0
  {
    var time, run := TimeBonus(deadlineDays, actualDays), StreakBonus(streak);
    PairMonotone(0.5, time, 1.0, run);
    PairMonotone(time, 2.0, run, 1.5);
  }

  lemma QuotientMonotone(x: real, y: real, d: real)
    requires x <= y && d > 0.0
    ensures x / d <= y / d
  {
  }

  lemma TimeBonusMonotone(deadlineDays: int, sooner: int, later: int)
    requires sooner <= later
    ensures TimeBonus(deadlineDays, later) <= TimeBonus(deadlineDays, sooner)
  {
    if deadlineDays > 0 {
      QuotientMonotone((deadlineDays - later) as real, (deadlineDays - sooner) as real, deadlineDays as real);
    }
  }

  /** Finishing later never earns a higher multiplier, a longer streak never a lower one. */
  lemma MultiplierMonotone(deadlineDays: int, sooner: int, later: int, shorter: int, longer: int)
    requires sooner <= later && shorter <= longer
    ensures Multiplier(deadlineDays, later, shorter) <= Multiplier(deadlineDays, sooner, longer)
  {
    TimeBonusMonotone(deadlineDays, sooner, later);
    PairMonotone(TimeBonus(deadlineDays, later), TimeBonus(deadlineDays, sooner), StreakBonus(shorter), StreakBonus(longer));
  }

  lemma TripleMonotone(b: real, b': real, weight: real, m: real, m': real)
    requires 0.0 <= b <= b' && weight >= 0.0 && 0.0 <= m <= m'
    ensures b * weight * m <= b' * weight * m'
  {
    PairMonotone(b, b', weight, weight);
    PairMonotone(b * weight, b' * weight, m, m');
  }

  function Worth(baseXp: int, weight: real, multiplier: real): real { baseXp as real * weight * multiplier }

  function Share(baseXp: int, weight: real, multiplier: real): int { Trunc(Worth(baseXp, weight, multiplier)) }

  lemma WorthInRange(baseXp: int, weight: real, multiplier: real)
    requires baseXp >= 0 && 0.0 <= weight <= 1.0 && 0.0 <= multiplier <= 3.0
    ensures 0.0 <= Worth(baseXp, weight, multiplier) <= (3 * baseXp) as real
  {
    var b := baseXp as real;
    PairMonotone(b, b, weight, 1.0);
    PairMonotone(b * weight, b, multiplier, 3.0);
  }

  /** A share is at most three times the base, and less than one point below what the sphere's part is worth. */
  lemma ShareInRange(baseXp: int, weight: real, multiplier: real)
    requires baseXp >= 0 && 0.0 <= weight <= 1.0 && 0.0 <= multiplier <= 3.0
    ensures 0 <= Share(baseXp, weight, multiplier) <= 3 * baseXp
    ensures Worth(baseXp, weight, multiplier) - 1.0 < Share(baseXp, weight, multiplier) as real <= Worth(baseXp, weight, multiplier)
  {
    WorthInRange(baseXp, weight, multiplier);
    TruncAtMost(Worth(baseXp, weight, multiplier), 3 * baseXp);
  }

  /** More story points or a higher multiplier never make a share smaller. */
  lemma ShareMonotone(points: int, points': int, weight: real, m: real, m': real)
    requires 0 <= points <= points' && weight >= 0.0 && 0.0 <= m <= m'
    ensures Share(BaseXp(points), weight, m) <= Share(BaseXp(points'), weight, m')
  {
    var b, b' := BaseXp(points) as real, BaseXp(points') as real;
    TripleMonotone(b, b', weight, m, m');
    TruncMonotone(b * weight * m, b' * weight * m');
  }

  /** The same for a whole task: no share falls with more points, an earlier finish and a longer streak. */
  lemma TaskShareMonotone(points: int, points': int, weight: real, deadlineDays: int, sooner: int, later: int, shorter: int, longer: int)
    requires 0 <= points <= points' && weight >= 0.0 && sooner <= later && shorter <= longer
    ensures Share(BaseXp(points), weight, Multiplier(deadlineDays, later, shorter)) <=
            Share(BaseXp(points'), weight, Multiplier(deadlineDays, sooner, longer))
  {
    MultiplierInRange(deadlineDays, later, shorter);
    MultiplierMonotone(deadlineDays, sooner, later, shorter, longer);
    ShareMonotone(points, points', weight, Multiplier(deadlineDays, later, shorter), Multiplier(deadlineDays, sooner, longer));
  }

  // ---- sharing it out -------------------------------------------------------------------------

  /** A sphere of a task; a missing name or weight has a default. */
  datatype Sphere = Sphere(name: Option<string>, weight: Option<real>)

  function Name(upper: string -> string, s: Sphere): string { upper(if s.name.Some? then s.name.value else "BACKEND") }

  function Weight(s: Sphere): real { if s.weight.Some? then s.weight.value else 1.0 }

  function Weights(spheres: seq<Sphere>): real {
    if spheres == [] then 0.0 else Weights(spheres[..|spheres| - 1]) + Weight(spheres[|spheres| - 1])
  }

  function Distribution(upper: string -> string, spheres: seq<Sphere>, baseXp: int, multiplier: real): Items<int> {
    if spheres == [] then []
    else
      var last := spheres[|spheres| - 1];
      Put(Distribution(upper, spheres[..|spheres| - 1], baseXp, multiplier), Name(upper, last), Share(baseXp, Weight(last), multiplier))
  }

  function Total(items: Items<int>): int {
    if items == [] then 0 else items[0].1 + Total(items[1..])
  }

  predicate WeightsValid(spheres: seq<Sphere>) { forall s | s in spheres :: 0.0 <= Weight(s) <= 1.0 }

  predicate NamesDistinct(upper: string -> string, spheres: seq<Sphere>) {
    forall i, j | 0 <= i < j < |spheres| :: Name(upper, spheres[i]) != Name(upper, spheres[j])
  }

  lemma {:induction false} PutTotal(items: Items<int>, k: string, v: int)
    requires forall p | p in items :: p.1 >= 0
    ensures Total(Put(items, k, v)) <= Total(items) + v
    ensures Lacks(items, k) ==> Total(Put(items, k, v)) == Total(items) + v
  {
    if items != [] {
      assert items[0] in items;
      PutTotal(items[1..], k, v);
    }
  }

  /** The last sphere of a name decides what that name gets. */
  lemma {:induction false} DistributionEntry(upper: string -> string, spheres: seq<Sphere>, baseXp: int, multiplier: real, i: nat)
    requires i < |spheres|
    requires forall j | i < j < |spheres| :: Name(upper, spheres[j]) != Name(upper, spheres[i])
    ensures (Name(upper, spheres[i]), Share(baseXp, Weight(spheres[i]), multiplier)) in Distribution(upper, spheres, baseXp, multiplier)
  {
    var n := |spheres| - 1;
    var front := Distribution(upper, spheres[..n], baseXp, multiplier);
    PutItems(front, Name(upper, spheres[n]), Share(baseXp, Weight(spheres[n]), multiplier));
    if i < n {
      DistributionEntry(upper, spheres[..n], baseXp, multiplier, i);
    }
  }

  lemma {:induction false} DistributionInRange(upper: string -> string, spheres: seq<Sphere>, baseXp: int, multiplier: real)
    requires baseXp >= 0 && WeightsValid(spheres) && 0.0 <= multiplier <= 3.0
    ensures forall p | p in Distribution(upper, spheres, baseXp, multiplier) :: 0 <= p.1 <= 3 * baseXp
    ensures forall k | (forall s | s in spheres :: Name(upper, s) != k) :: Lacks(Distribution(upper, spheres, baseXp, multiplier), k)
  {
    if spheres != [] {
      var n := |spheres| - 1;
      DistributionInRange(upper, spheres[..n], baseXp, multiplier);
      ShareInRange(baseXp, Weight(spheres[n]), multiplier);
      PutItems(Distribution(upper, spheres[..n], baseXp, multiplier), Name(upper, spheres[n]), Share(baseXp, Weight(spheres[n]), multiplier));
    }
  }

  /** What the spheres' parts are worth together, before rounding. */
  function Worths(spheres: seq<Sphere>, baseXp: int, multiplier: real): real {
    if spheres == [] then 0.0
    else Worths(spheres[..|spheres| - 1], baseXp, multiplier) + Worth(baseXp, Weight(spheres[|spheres| - 1]), multiplier)
  }

  lemma WorthAdds(baseXp: int, v: real, w: real, multiplier: real)
    ensures Worth(baseXp, v + w, multiplier) == Worth(baseXp, v, multiplier) + Worth(baseXp, w, multiplier)
  {
  }

  lemma {:induction false} WorthsByWeight(spheres: seq<Sphere>, baseXp: int, multiplier: real)
    ensures Worths(spheres, baseXp, multiplier) == Worth(baseXp, Weights(spheres), multiplier)
  {
    if spheres != [] {
      var front := spheres[..|spheres| - 1];
      WorthsByWeight(front, baseXp, multiplier);
      WorthAdds(baseXp, Weights(front), Weight(spheres[|spheres| - 1]), multiplier);
    }
  }

  /**
   Whatever the spheres, no more is given out than their parts are worth; between spheres of different
   names, rounding loses less than one point a sphere.
   */
  lemma {:induction false} TotalInRange(upper: string -> string, spheres: seq<Sphere>, baseXp: int, multiplier: real)
    requires baseXp >= 0 && WeightsValid(spheres) && 0.0 <= multiplier <= 3.0
    ensures Total(Distribution(upper, spheres, baseXp, multiplier)) as real <= Worths(spheres, baseXp, multiplier)
    ensures NamesDistinct(upper, spheres) && spheres != [] ==>
      Worths(spheres, baseXp, multiplier) - |spheres| as real < Total(Distribution(upper, spheres, baseXp, multiplier)) as real
  {
    if spheres != [] {
      var n := |spheres| - 1;
      var front, last := spheres[..n], spheres[n];
      var before := Distribution(upper, front, baseXp, multiplier);
      TotalInRange(upper, front, baseXp, multiplier);
      DistributionInRange(upper, front, baseXp, multiplier);
      ShareInRange(baseXp, Weight(last), multiplier);
      PutTotal(before, Name(upper, last), Share(baseXp, Weight(last), multiplier));
      if NamesDistinct(upper, spheres) {
        assert forall s | s in front :: Name(upper, s) != Name(upper, last);
        assert Lacks(before, Name(upper, last));
      }
    }
  }

  function TaskXp(upper: string -> string, spheres: seq<Sphere>, storyPoints: int, deadlineDays: int, actualDays: int, streak: int): Items<int> {
    Distribution(upper, spheres, BaseXp(storyPoints), Multiplier(deadlineDays, actualDays, streak))
  }

  lemma WorthOfAll(baseXp: int, multiplier: real)
    ensures Worth(baseXp, 1.0, multiplier) == baseXp as real * multiplier
  {
  }

  /** With weights summing to one the shares add up to base times multiplier, less the roundings. */
  lemma FullWeightInRange(upper: string -> string, spheres: seq<Sphere>, baseXp: int, multiplier: real)
    requires baseXp >= 0 && WeightsValid(spheres) && Weights(spheres) == 1.0 && 0.0 <= multiplier <= 3.0
    ensures Total(Distribution(upper, spheres, baseXp, multiplier)) as real <= baseXp as real * multiplier
    ensures NamesDistinct(upper, spheres) ==>
      baseXp as real * multiplier - |spheres| as real < Total(Distribution(upper, spheres, baseXp, multiplier)) as real
  {
    TotalInRange(upper, spheres, baseXp, multiplier);
    WorthsByWeight(spheres, baseXp, multiplier);
    WorthOfAll(baseXp, multiplier);
  }

  /** The shares of a task, whatever made its multiplier. */
  ghost predicate SharesInRange(items: Items<int>, baseXp: int, multiplier: real, spheres: nat, distinct: bool) {
    && (forall p | p in items :: 0 <= p.1 <= 3 * baseXp)
    && Total(items) as real <= baseXp as real * multiplier
    && (distinct ==> baseXp as real * multiplier - spheres as real < Total(items) as real)
  }

  lemma DistributionSharesInRange(upper: string -> string, spheres: seq<Sphere>, baseXp: int, multiplier: real)
    requires baseXp >= 0 && WeightsValid(spheres) && Weights(spheres) == 1.0 && 0.5 <= multiplier <= 3.0
    ensures SharesInRange(Distribution(upper, spheres, baseXp, multiplier), baseXp, multiplier, |spheres|, NamesDistinct(upper, spheres))
  {
    DistributionInRange(upper, spheres, baseXp, multiplier);
    FullWeightInRange(upper, spheres, baseXp, multiplier);
  }

  lemma TaskXpInRange(upper: string -> string, spheres: seq<Sphere>, storyPoints: int, deadlineDays: int, actualDays: int, streak: int)
    requires storyPoints >= 0 && WeightsValid(spheres) && Weights(spheres) == 1.0
    ensures SharesInRange(TaskXp(upper, spheres, storyPoints, deadlineDays, actualDays, streak),
                          BaseXp(storyPoints), Multiplier(deadlineDays, actualDays, streak), |spheres|, NamesDistinct(upper, spheres))
  {
    MultiplierInRange(deadlineDays, actualDays, streak);
    DistributionSharesInRange(upper, spheres, BaseXp(storyPoints), Multiplier(deadlineDays, actualDays, streak));
  }

  // ---- what a task gives, in numbers ------------------------------------------------------------------

  /** A task of one sphere that takes all of it. */
  function OneSphere(upper: string -> string, sphere: string, points: nat, deadlineDays: int, actualDays: int, streak: int): Items<int> {
    TaskXp(upper, [Sphere(Some(sphere), Some(1.0))], points, deadlineDays, actualDays, streak)
  }

  lemma OneSphereShare(upper: string -> string, sphere: string, points: nat, deadlineDays: int, actualDays: int, streak: int)
    ensures OneSphere(upper, sphere, points, deadlineDays, actualDays, streak) ==
      [(upper(sphere), Share(BaseXp(points), 1.0, Multiplier(deadlineDays, actualDays, streak)))]
  {
    OneShare(upper, Sphere(Some(sphere), Some(1.0)), BaseXp(points), Multiplier(deadlineDays, actualDays, streak));
  }

  lemma OneShare(upper: string -> string, s: Sphere, baseXp: int, multiplier: real)
    ensures Distribution(upper, [s], baseXp, multiplier) == [(Name(upper, s), Share(baseXp, Weight(s), multiplier))]
  {
    var spheres := [s];
    assert spheres[..|spheres| - 1] == [] && spheres[|spheres| - 1] == s;
    assert Distribution(upper, spheres[..|spheres| - 1], baseXp, multiplier) == [];
  }

  lemma WholeShare(points: nat, multiplier: real, xp: int)
    requires multiplier * 10.0 == xp as real
    ensures Share(BaseXp(points), 1.0, multiplier) == points * xp
  {
    assert BaseXp(points) as real * 1.0 == points as real * 10.0;
    assert points as real * 10.0 * multiplier == points as real * (multiplier * 10.0);
    assert (points * xp) as real == points as real * xp as real;
  }

  /** Finished on the day of the deadline: ten a point, twelve from a streak of five, fifteen from ten. */
  lemma OnTheDeadline(upper: string -> string, sphere: string, points: nat, days: int, streak: int)
    requires days > 0
    ensures OneSphere(upper, sphere, points, days, days, streak) ==
      [(upper(sphere), points * (if streak >= 10 then 15 else if streak >= 5 then 12 else 10))]
  {
    OneSphereShare(upper, sphere, points, days, days, streak);
    assert 0.0 / days as real == 0.0;
    assert TimeBonus(days, days) == 1.0;
    WholeShare(points, Multiplier(days, days, streak), if streak >= 10 then 15 else if streak >= 5 then 12 else 10);
  }

  lemma Cancel(c: real, d: real)
    requires d > 0.0
    ensures c * d / d == c
  {
  }

  /** The part of the deadline that is left, against the ends of the clamp. */
  lemma PartLeft(days: int, actualDays: int)
    requires days > 0
    ensures var left := (days - actualDays) as real / days as real;
      && left * days as real == (days - actualDays) as real
      && (2 * actualDays >= 3 * days ==> left <= -0.5)
      && (2 * actualDays <= 3 * days ==> left >= -0.5)
      && (actualDays <= 0 ==> left >= 1.0)
      && (actualDays >= 0 ==> left <= 1.0)
  {
    var d, k := days as real, (days - actualDays) as real;
    Cancel(-0.5, d);
    Cancel(1.0, d);
    if 2 * actualDays >= 3 * days {
      QuotientMonotone(k, -0.5 * d, d);
    }
    if 2 * actualDays <= 3 * days {
      QuotientMonotone(-0.5 * d, k, d);
    }
    if actualDays <= 0 {
      QuotientMonotone(d, k, d);
    }
    if actualDays >= 0 {
      QuotientMonotone(k, d, d);
    }
  }

  /** Half the deadline over or more: five a point. At once: twenty. */
  lemma AtTheEnds(upper: string -> string, sphere: string, points: nat, days: int, actualDays: int, streak: int)
    requires days > 0 && streak < 5
    ensures 2 * actualDays >= 3 * days ==> OneSphere(upper, sphere, points, days, actualDays, streak) == [(upper(sphere), points * 5)]
    ensures actualDays <= 0 ==> OneSphere(upper, sphere, points, days, actualDays, streak) == [(upper(sphere), points * 20)]
  {
    OneSphereShare(upper, sphere, points, days, actualDays, streak);
    PartLeft(days, actualDays);
    if 2 * actualDays >= 3 * days {
      WholeShare(points, Multiplier(days, actualDays, streak), 5);
    }
    if actualDays <= 0 {
      WholeShare(points, Multiplier(days, actualDays, streak), 20);
    }
  }

  /** Without a deadline the days do not matter: it is as if finished on it. */
  lemma NoDeadline(upper: string -> string, sphere: string, points: nat, noDays: int, actualDays: int, streak: int)
    requires noDays <= 0
    ensures OneSphere(upper, sphere, points, noDays, actualDays, streak) == OneSphere(upper, sphere, points, 7, 7, streak)
  {
    assert TimeBonus(7, 7) == 1.0;
  }

  lemma TimesDays(days: int, actualDays: int, m: real)
    requires days > 0 && m == 1.0 + (days - actualDays) as real / days as real
    ensures m * days as real == (2 * days - actualDays) as real
  {
    PartLeft(days, actualDays);
  }

  /** In between: ten a point, times two less the part of the deadline used, without the fraction. */
  lemma InBetween(upper: string -> string, sphere: string, points: nat, days: int, actualDays: int, streak: int)
    requires days > 0 && 0 <= actualDays && 2 * actualDays <= 3 * days && streak < 5
    ensures var items := OneSphere(upper, sphere, points, days, actualDays, streak);
      && |items| == 1 && items[0].0 == upper(sphere)
      && items[0].1 * days <= 10 * points * (2 * days - actualDays) < (items[0].1 + 1) * days
  {
    OneSphereShare(upper, sphere, points, days, actualDays, streak);
    var m := Multiplier(days, actualDays, streak);
    PartLeft(days, actualDays);
    TimesDays(days, actualDays, m);
    FloorOf(10 * points, m, days, 2 * days - actualDays);
  }

  lemma RealTimes(a: int, b: int)
    ensures (a * b) as real == a as real * b as real
  {
  }

  lemma Strictly(a: real, b: real, c: real)
    requires a < b && c > 0.0
    ensures a * c < b * c
  {
  }

  /** If `n` is `w` times `d`, the whole part of `w` is that of the quotient. */
  lemma FloorTimes(w: real, r: int, d: int, n: int)
    requires d > 0 && r as real <= w < r as real + 1.0 && w * d as real == n as real
    ensures r * d <= n < (r + 1) * d
  {
    Product(r as real, w, d as real);
    Strictly(w, r as real + 1.0, d as real);
    RealTimes(r, d);
    RealTimes(r + 1, d);
  }

  lemma Regroup(a: real, b: real, c: real)
    ensures a * b * c == a * (b * c)
  {
  }

  lemma FloorOf(base: nat, m: real, days: int, part: int)
    requires days > 0 && m >= 0.0 && m * days as real == part as real
    ensures Share(base, 1.0, m) * days <= base * part < (Share(base, 1.0, m) + 1) * days
  {
    Product(0.0, base as real, m);
    WorthOfAll(base, m);
    Regroup(base as real, m, days as real);
    RealTimes(base, part);
    FloorTimes(base as real * m, Share(base, 1.0, m), days, base * part);
  }

  /** A sphere without a name or a weight counts as all of BACKEND. */
  lemma Defaults(upper: string -> string, points: nat, deadlineDays: int, actualDays: int, streak: int)
    ensures TaskXp(upper, [Sphere(None, None)], points, deadlineDays, actualDays, streak) ==
            OneSphere(upper, "BACKEND", points, deadlineDays, actualDays, streak)
  {
    OneSphereShare(upper, "BACKEND", points, deadlineDays, actualDays, streak);
    OneShare(upper, Sphere(None, None), BaseXp(points), Multiplier(deadlineDays, actualDays, streak));
  }

  /** Below the top, progress is the part of the way to the next threshold, in whole hundredths. */
  lemma ProgressIsFloor(t: seq<int>, xp: int)
    requires IsTable(t) && xp >= 0 && Level(t, xp) < LEVELS
    ensures var level, p := Level(t, xp), ProgressPercent(t, xp, Level(t, xp));
      && 1 <= level < |t|
      && p * (t[level] - t[level - 1]) <= 100 * (xp - t[level - 1]) < (p + 1) * (t[level] - t[level - 1])
  {
    var level := Level(t, xp);
    LevelIsHighest(t, xp, level);
    var a, b := xp - t[level - 1], t[level] - t[level - 1];
    PercentBounds(a, b);
    PercentIsFloor(a, b);
  }

  lemma PercentIsFloor(a: int, b: int)
    requires 0 <= a < b
    ensures Percent(a, b) * b <= 100 * a < (Percent(a, b) + 1) * b
  {
    var q := a as real / b as real;
    assert q * b as real == a as real && q >= 0.0;
    Regroup(100.0, q, b as real);
    assert (100 * a) as real == 100.0 * a as real;
    FloorTimes(q * 100.0, Percent(a, b), b, 100 * a);
  }
}
