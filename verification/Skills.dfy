/**
 Skills: what a gain does to the stored row and to the copy of it a call works on. A call reads the row in
 a unit of work that ends at once, changes the copy, and stores nothing.
 */
module Skills {
  import opened Dict
  import opened Schema
  import opened Xp

  const MAX_DAILY_XP := 500
  const SECONDS_PER_DAY := 86400

  /** `lastAt` is a time in seconds; a day is a calendar day in UTC. */
  datatype SkillState = SkillState(xpTotal: int, level: int, xpToday: int, lastAt: Option<nat>, streak: int, frozen: bool)

  /** The stored rows, by user and sphere, and a row as it is created. */
  type Stored = map<(int, string), SkillState>
  const NEW_SKILL := SkillState(0, 1, 0, None, 0, false)

  function Day(at: nat): nat { at / SECONDS_PER_DAY }

  predicate GainedOn(s: SkillState, day: nat) { s.lastAt.Some? && Day(s.lastAt.value) == day }

  function Reset(s: SkillState, now: nat): SkillState { if GainedOn(s, Day(now)) then s else s.(xpToday := 0) }

  /** `_check_daily_cap`. */
  function Allowed(s: SkillState, xp: int, now: nat): int {
    if !GainedOn(s, Day(now)) then xp
    else if MAX_DAILY_XP - s.xpToday <= 0 then 0
    else Min(xp, MAX_DAILY_XP - s.xpToday)
  }

  /** `_update_xp` and `_update_level`. */
  function Updated(t: seq<int>, s: SkillState, xp: int, now: nat): SkillState {
    var total := s.xpTotal + Min(xp, MAX_DAILY_XP);
    s.(xpTotal := total, level := Level(t, total), lastAt := Some(now))
  }

  datatype Gain = Gain(user: int, sphere: string, xp: nat, at: nat)

  function WithRow(stored: Stored, user: int, sphere: string): (r: Stored)
    ensures (user, sphere) in r
  {
    if (user, sphere) in stored then stored else stored[(user, sphere) := NEW_SKILL]
  }

  /** The row a call finds, or creates. */
  function RowOf(stored: Stored, user: int, sphere: string): SkillState { WithRow(stored, user, sphere)[(user, sphere)] }

  /** What the call's copy holds at its end. */
  function Copy(t: seq<int>, s: SkillState, xp: int, now: nat): SkillState {
    if s.frozen then s
    else
      var s1 := Reset(s, now);
      if Allowed(s1, xp, now) == 0 then s1 else Updated(t, s1, Allowed(s1, xp, now), now)
  }

  function AfterGains(stored: Stored, gains: seq<Gain>): Stored {
    if gains == [] then stored
    else WithRow(AfterGains(stored, gains[..|gains| - 1]), gains[|gains| - 1].user, gains[|gains| - 1].sphere)
  }

  // ---- updates of one object --------------------------------------------------------------------

  function AfterUpdates(t: seq<int>, s: SkillState, gains: seq<Gain>): SkillState {
    if gains == [] then s
    else Updated(t, AfterUpdates(t, s, gains[..|gains| - 1]), gains[|gains| - 1].xp, gains[|gains| - 1].at)
  }

  /** Any `_update_xp` and `_update_level` calls on one object: at most 500 a call, the level is the total's, neither ever falls. */
  lemma {:induction false} EveryRunOfUpdates(t: seq<int>, s: SkillState, gains: seq<Gain>)
    requires IsTable(t) && s.level == Level(t, s.xpTotal)
    ensures var s' := AfterUpdates(t, s, gains);
      && s.xpTotal <= s'.xpTotal <= s.xpTotal + MAX_DAILY_XP * |gains|
      && s'.level == Level(t, s'.xpTotal) && s.level <= s'.level
  {
    if gains != [] {
      EveryRunOfUpdates(t, s, gains[..|gains| - 1]);
    }
    LevelMonotone(t, s.xpTotal, AfterUpdates(t, s, gains).xpTotal);
  }

  // ---- what is stored ---------------------------------------------------------------------------

  /** Over every run of gains no stored row changes, and the rows created are as created: no XP is ever stored. */
  lemma {:induction false} EveryRunStoresNoXp(stored: Stored, gains: seq<Gain>, key: (int, string))
    ensures key in AfterGains(stored, gains) <==> key in stored || exists g :: g in gains && (g.user, g.sphere) == key
    ensures key in AfterGains(stored, gains) ==>
      AfterGains(stored, gains)[key] == if key in stored then stored[key] else NEW_SKILL
  {
    if gains != [] {
      var front, last := gains[..|gains| - 1], gains[|gains| - 1];
      EveryRunStoresNoXp(stored, front, key);
      assert gains == front + [last];
    }
  }

  /** The streak is judged against the date just written, so it does not move, on the copy either. */
  lemma StreakNeverMoves(t: seq<int>, s: SkillState, xp: int, now: nat)
    ensures Copy(t, s, xp, now).streak == s.streak
  {
  }

  /** Two moments are of one day exactly if no midnight lies between them. */
  lemma DayChangesAtMidnight(a: nat, b: nat)
    ensures Day(a) == Day(b) <==> forall k: nat :: a < Midnight(k) <==> b < Midnight(k)
  {
    forall k: nat ensures (a < Midnight(k) <==> Day(a) < k) && (b < Midnight(k) <==> Day(b) < k) {
      DayBefore(a, k);
      DayBefore(b, k);
    }
    if Day(a) != Day(b) {
      var k := if Day(a) < Day(b) then Day(b) else Day(a);
      assert (a < Midnight(k)) != (b < Midnight(k));
    }
  }

  function Midnight(k: nat): nat { k * 86400 }

  lemma DayBefore(at: nat, k: nat)
    ensures at < Midnight(k) <==> Day(at) < k
  {
  }

  /** What the cap leaves a call on that day, judged by the row. */
  function Room(s: SkillState, day: nat): nat {
    if s.frozen then 0
    else if s.lastAt.Some? && Day(s.lastAt.value) == day then Max(0, 500 - s.xpToday)
    else 500
  }

  /** The copy, column by column: what is given is added and dated, and is not counted as gained today. */
  lemma CopyColumns(t: seq<int>, s: SkillState, xp: nat, now: nat)
    requires s.xpToday >= 0
    ensures var c, given := Copy(t, s, xp, now), Min(xp, Room(s, Day(now)));
      && c.xpTotal == s.xpTotal + given
      && c.lastAt == (if given > 0 then Some(now) else s.lastAt)
      && c.level == (if given > 0 then Level(t, s.xpTotal + given) else s.level)
      && (c.xpToday == if s.frozen || (s.lastAt.Some? && Day(s.lastAt.value) == Day(now)) then s.xpToday else 0)
      && c.streak == s.streak && c.frozen == s.frozen
  {
  }

  // ---- what a call reports ----------------------------------------------------------------------

  /** A call compares the stored level with the copy's, the wrong way round. */
  predicate LeveledUp(t: seq<int>, s: SkillState, xp: int, now: nat) {
    !s.frozen && Allowed(Reset(s, now), xp, now) != 0 && s.level > Copy(t, s, xp, now).level
  }

  /** A rise in level is never reported; there is one exactly if what the call adds reaches the next threshold. */
  lemma RiseIsNotReported(t: seq<int>, s: SkillState, xp: nat, now: nat)
    requires IsTable(t) && s.xpTotal >= 0 && s.level == Level(t, s.xpTotal)
    ensures !LeveledUp(t, s, xp, now)
    ensures Copy(t, s, xp, now).level > s.level <==>
      !s.frozen && s.level < LEVELS && XpToNext(t, s.xpTotal, s.level) <= Min(Allowed(Reset(s, now), xp, now), MAX_DAILY_XP)
  {
    var total := Copy(t, s, xp, now).xpTotal;
    LevelMonotone(t, s.xpTotal, total);
    LevelIsHighest(t, s.xpTotal, s.level);
    LevelIsHighest(t, total, s.level);
    XpToNextIsExact(t, s.xpTotal, 0);
  }

  /** What is reported is a fall: the stored level is above the one the copy's new total has. */
  lemma FallIsReported(t: seq<int>, s: SkillState, xp: nat, now: nat)
    requires s.xpToday >= 0
    ensures LeveledUp(t, s, xp, now) <==>
      var given := Min(xp, Room(s, Day(now)));
      given > 0 && s.level > Level(t, s.xpTotal + given)
  {
    CopyColumns(t, s, xp, now);
  }

  // ---- the daily cap ----------------------------------------------------------------------------

  /** What the copies of a run's calls gain over the rows they were made from. */
  function HandedOut(t: seq<int>, stored: Stored, gains: seq<Gain>): int {
    if gains == [] then 0
    else
      var front, g := gains[..|gains| - 1], gains[|gains| - 1];
      var row := RowOf(AfterGains(stored, front), g.user, g.sphere);
      HandedOut(t, stored, front) + Copy(t, row, g.xp, g.at).xpTotal - row.xpTotal
  }

  function CappedSum(gains: seq<Gain>, room: nat): nat {
    if gains == [] then 0 else CappedSum(gains[..|gains| - 1], room) + Min(gains[|gains| - 1].xp, room)
  }

  /**
   The gains of one day on one skill: each call has all the room the stored row leaves. So the cap of 500
   holds for the day exactly if the calls, each cut off there, add up to no more.
   */
  lemma {:induction false} DayHandsOut(t: seq<int>, stored: Stored, gains: seq<Gain>, user: int, sphere: string, day: nat)
    requires RowOf(stored, user, sphere).xpToday >= 0
    requires forall g | g in gains :: g.user == user && g.sphere == sphere && Day(g.at) == day
    ensures HandedOut(t, stored, gains) == CappedSum(gains, Room(RowOf(stored, user, sphere), day))
  {
    if gains != [] {
      var front, g := gains[..|gains| - 1], gains[|gains| - 1];
      DayHandsOut(t, stored, front, user, sphere, day);
      EveryRunStoresNoXp(stored, front, (user, sphere));
      CopyColumns(t, RowOf(stored, user, sphere), g.xp, g.at);
    }
  }

  /** Two calls of 500 in one second: each copy shows 500, together twice the cap, and the stored total is 0. */
  lemma CapExceededOnCopies(user: int, sphere: string, now: nat)
    ensures var gains := [Gain(user, sphere, 500, now), Gain(user, sphere, 500, now)];
      && HandedOut(XP_THRESHOLDS, map[], gains) == 1000
      && AfterGains(map[], gains) == map[(user, sphere) := SkillState(0, 1, 0, None, 0, false)]
  {
    var g := Gain(user, sphere, 500, now);
    var gains := [g, g];
    assert gains[..1] == [g] && [g][..0] == [];
    assert CappedSum([g], 500) == CappedSum([], 500) + 500 == 500;
    assert CappedSum(gains, 500) == CappedSum(gains[..1], 500) + 500;
    DayHandsOut(XP_THRESHOLDS, map[], gains, user, sphere, Day(now));
    assert AfterGains(map[], [g]) == map[(user, sphere) := NEW_SKILL];
  }

  // ---- the service ------------------------------------------------------------------------------

  class SkillTable {
    var stored: Stored

    constructor (stored: Stored)
      ensures this.stored == stored
    {
      this.stored := stored;
    }
  }

  /** A row read by a session that has ended: changing it changes nothing stored. */
  class UserSkill {
    var state: SkillState

    constructor (state: SkillState)
      ensures this.state == state
    {
      this.state := state;
    }
  }

  class XPTransaction {
    const table: SkillTable

    constructor (table: SkillTable)
      ensures this.table == table
    {
      this.table := table;
    }

    method GetOrCreateSkill(user: int, sphere: string) returns (skill: UserSkill)
      modifies table
      ensures table.stored == WithRow(old(table.stored), user, sphere)
      ensures fresh(skill) && skill.state == RowOf(old(table.stored), user, sphere)
    {
      if (user, sphere) !in table.stored {
        table.stored := table.stored[(user, sphere) := NEW_SKILL];
      }
      skill := new UserSkill(table.stored[(user, sphere)]);
    }

    /** Finds or creates the row again, and leaves it as it is whatever the XP. */
    method AddSphereXp(user: int, sphere: string, xp: int) returns (added: bool, level: int)
      modifies table
      ensures table.stored == WithRow(old(table.stored), user, sphere)
      ensures added == !RowOf(old(table.stored), user, sphere).frozen && level == RowOf(old(table.stored), user, sphere).level
    {
      if (user, sphere) !in table.stored {
        table.stored := table.stored[(user, sphere) := NEW_SKILL];
      }
      added, level := !table.stored[(user, sphere)].frozen, table.stored[(user, sphere)].level;
    }
  }

  class XPService {
    const transaction: XPTransaction
    const upper: string -> string

    constructor (transaction: XPTransaction, upper: string -> string)
      ensures this.transaction == transaction && this.upper == upper
    {
      this.transaction := transaction;
      this.upper := upper;
    }

    /** Levels count from one in the order the thresholds are declared. */
    method GetXpThresholds() returns (levels: map<int, int>)
      ensures forall l :: l in levels <==> 1 <= l <= LEVELS
      ensures forall l | 1 <= l <= LEVELS :: levels[l] == XP_THRESHOLDS[l - 1]
    {
      levels := map[];
      for i := 0 to |XP_THRESHOLDS|
        invariant forall l :: l in levels <==> 1 <= l <= i
        invariant forall l | 1 <= l <= i :: levels[l] == XP_THRESHOLDS[l - 1]
      {
        var level := i + 1;
        if level !in levels {
          levels := levels[level := XP_THRESHOLDS[i]];
        }
      }
    }

    /** Sorted by falling threshold, an increasing table is read from its end. */
    method GetLevelFromXp(t: seq<int>, xp: int) returns (level: int)
      requires IsTable(t)
      ensures level == Level(t, xp)
      ensures xp >= 0 ==> Reaches(t, level, xp) && forall l | Reaches(t, l, xp) :: l <= level
    {
      level := 1;
      var i: nat := |t|;
      while i > 0
        invariant 0 <= i <= |t| && Level(t, xp) == Scan(t, i, xp)
      {
        if xp >= t[i - 1] {
          level := i;
          break;
        }
        i := i - 1;
      }
      assert i == 0 ==> Level(t, xp) == 1;
      if xp >= 0 {
        ScanHighest(t, |t|, xp);
      }
    }

    method DistributeXp(spheres: seq<Sphere>, baseXp: int, multiplier: real) returns (result: Items<int>)
      ensures result == Distribution(upper, spheres, baseXp, multiplier)
    {
      result := [];
      for i := 0 to |spheres|
        invariant result == Distribution(upper, spheres[..i], baseXp, multiplier)
      {
        assert spheres[..i + 1][..i] == spheres[..i];
        var sphere := upper(if spheres[i].name.Some? then spheres[i].name.value else "BACKEND");
        var weight := if spheres[i].weight.Some? then spheres[i].weight.value else 1.0;
        var xp := Share(baseXp, weight, multiplier);
        result := Put(result, sphere, xp);
      }
      assert spheres[..|spheres|] == spheres;
    }

    method CalculateTaskXp(spheres: seq<Sphere>, storyPoints: int, deadlineDays: int, actualDays: int, streak: int) returns (result: Items<int>)
      ensures result == TaskXp(upper, spheres, storyPoints, deadlineDays, actualDays, streak)
    {
      var baseXp := BaseXp(storyPoints);
      var timeBonus := TimeBonus(deadlineDays, actualDays);
      var streakBonus := StreakBonus(streak);
      var multiplier := timeBonus * streakBonus;
      result := DistributeXp(spheres, baseXp, multiplier);
    }

    method ResetDailyXp(skill: UserSkill, now: nat)
      modifies skill
      ensures skill.state == Reset(old(skill.state), now)
    {
      if skill.state.lastAt.None? || Day(skill.state.lastAt.value) != Day(now) {
        skill.state := skill.state.(xpToday := 0);
      }
    }

    method UpdateXp(skill: UserSkill, xp: int, now: nat)
      modifies skill
      ensures skill.state == old(skill.state).(xpTotal := old(skill.state.xpTotal) + Min(xp, MAX_DAILY_XP), lastAt := Some(now))
    {
      var oldXp := skill.state.xpTotal;
      skill.state := skill.state.(xpTotal := oldXp + Min(xp, MAX_DAILY_XP));
      skill.state := skill.state.(lastAt := Some(now));
    }

    method UpdateLevel(t: seq<int>, skill: UserSkill)
      requires IsTable(t)
      modifies skill
      ensures skill.state == old(skill.state).(level := Level(t, old(skill.state.xpTotal)))
    {
      var newLevel := GetLevelFromXp(t, skill.state.xpTotal);
      skill.state := skill.state.(level := newLevel);
    }

    method UpdateStreak(skill: UserSkill, now: nat)
      modifies skill
      ensures old(skill.state.lastAt) == Some(now) ==> skill.state == old(skill.state)
    {
      if skill.state.lastAt.Some? {
        var daysDiff := (now - skill.state.lastAt.value) / SECONDS_PER_DAY;
        if daysDiff == 1 {
          skill.state := skill.state.(streak := skill.state.streak + 1);
        } else if daysDiff > 1 {
          skill.state := skill.state.(streak := 1);
        }
      }
    }

    /** One gain, at one moment, so that the second look at the cap finds what the first did. */
    method AddSphereXp(t: seq<int>, user: int, sphere: string, xp: int, now: nat) returns (leveledUp: bool, level: int, skill: UserSkill)
      requires IsTable(t)
      modifies transaction.table
      ensures transaction.table.stored == WithRow(old(transaction.table.stored), user, sphere)
      ensures skill.state == Copy(t, RowOf(old(transaction.table.stored), user, sphere), xp, now)
      ensures leveledUp == LeveledUp(t, RowOf(old(transaction.table.stored), user, sphere), xp, now)
      ensures level == RowOf(old(transaction.table.stored), user, sphere).level
    {
      skill := transaction.GetOrCreateSkill(user, sphere);
      if skill.state.frozen {
        return false, skill.state.level, skill;
      }
      ResetDailyXp(skill, now);
      var allowed := Allowed(skill.state, xp, now);
      if allowed == 0 {
        return false, skill.state.level, skill;
      }
      var added;
      added, level := transaction.AddSphereXp(user, sphere, allowed);
      ResetDailyXp(skill, now);
      allowed := Allowed(skill.state, xp, now);
      UpdateXp(skill, allowed, now);
      UpdateLevel(t, skill);
      UpdateStreak(skill, now);
      leveledUp := level > skill.state.level;
    }
  }
}
