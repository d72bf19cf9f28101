/**
 * The example hero server built on the dispatcher: the health check, hero
 * creation with a uniqueness check, the fight loop of a dungeon task with
 * its experience and level-up arithmetic and its pushes, and the registry
 * of dungeon tasks kept in the global `tasks` map.
 *
 * The random monster and fight time of each round are inputs (`Round`);
 * the background task's scheduling, sleeps and cancellation points are not
 * modelled: a task's run is the sequence of rounds it completes.
 */
module ExampleServer {
  import opened JsonValue
  import opened Wrappers
  import PyText
  import opened JsonRpcModel
  import opened Router
  import Application
  import opened Schemas
  import opened Databases

  /** Code of the error detail returned when creating a hero whose name is taken. */
  const HeroExistsCode: int := -32001
  /** Code of the error detail returned when entering a dungeon with an unknown hero. */
  const HeroMissingCode: int := -32002

  // ---------------------------------------------------------------------------
  // healthy

  /** `healthy`: always the default `HealthyResult`, whose status is "ok". */
  function HealthyHandler(): (h: HealthyResult)
    ensures h.status == "ok"
    ensures ValidateHealthy(EncodeHealthy(h).fields) == Ok(h)
  {
    Healthy
  }

  // ---------------------------------------------------------------------------
  // The fight loop.

  /** The three monsters, in the order `random.choice` picks from. */
  const Monsters: seq<string> := ["史莱姆", "哥布林", "牛头"]

  type MonsterIndex = i: int | 0 <= i < 3

  /**
   * The random draws of one round: which monster, and how long the fight
   * took. The time is drawn in the monster's `FightTimeRange`; the fight's
   * outcome does not depend on it, only the news text does.
   */
  datatype Round = Round(monster: MonsterIndex, fightingTime: int)

  /** The bounds of the `random.randint` draw of the fight time, in seconds, for each monster. */
  function FightTimeRange(m: MonsterIndex): (bounds: (int, int))
    ensures 1 <= bounds.0 < bounds.1 <= 5
    ensures m == 0 ==> bounds == (1, 2)
    ensures m == 1 ==> bounds == (2, 3)
    ensures m == 2 ==> bounds == (3, 5)
  {
    if m == 0 then (1, 2) else if m == 1 then (2, 3) else (3, 5)
  }

  /** A round whose time lies in its monster's range, as every drawn round does. */
  predicate ValidRound(r: Round)
  {
    FightTimeRange(r.monster).0 <= r.fightingTime <= FightTimeRange(r.monster).1
  }

  /** Experience for beating each monster. */
  function Gain(m: MonsterIndex): (g: int)
    ensures g == 10 || g == 20 || g == 50
  {
    if m == 0 then 10 else if m == 1 then 20 else 50
  }

  /** Total experience of a sequence of rounds. */
  function SumGains(rounds: seq<Round>): (total: int)
  {
    if rounds == [] then 0 else Gain(rounds[0].monster) + SumGains(rounds[1..])
  }

  /**
   * Experience after a gain: at 100 or more it wraps to `experience % 100`
   * and the hero levels up once.
   */
  function Step(experience: int, gain: int): (r: (int, bool))
    ensures r.1 <==> experience + gain >= 100
    ensures !r.1 ==> r.0 == experience + gain
    ensures r.1 ==> 0 <= r.0 < 100 && (experience + gain - r.0) % 100 == 0
  {
    var e := experience + gain;
    if e >= 100 then (e % 100, true) else (e, false)
  }

  /** Since a gain is at most 100, experience stays in [0, 100) and nothing is lost on a level-up. */
  lemma {:induction false} StepBounded(experience: int, gain: int)
    requires 0 <= experience < 100 && 0 <= gain <= 100
    ensures 0 <= Step(experience, gain).0 < 100
    ensures Step(experience, gain).1 <==> experience + gain >= 100
    ensures Step(experience, gain).0 + (if Step(experience, gain).1 then 100 else 0) == experience + gain
  {
  }

  function News(heroName: string, r: Round): (text: string)
  {
    heroName + " 击败了 " + Monsters[r.monster] + ", 耗时 " + PyText.IntToString(r.fightingTime)
  }

  function Rewards(gain: int): (text: string)
  {
    "增加了 " + PyText.IntToString(gain) + " 经验"
  }

  function LevelUpRewards(gain: int, level: int): (text: string)
  {
    Rewards(gain) + ", 升级了! 当前等级 " + PyText.IntToString(level) + "."
  }

  /** A round whose level-up would pass level 50: the table's level check fails. */
  predicate Crashes(experience: int, level: int, r: Round)
  {
    Step(experience, Gain(r.monster)).1 && !ValidLevel(level + 1)
  }

  function NextLevel(experience: int, level: int, r: Round): (next: int)
  {
    if Step(experience, Gain(r.monster)).1 then level + 1 else level
  }

  /** The result a round pushes, naming the monster and the experience, and the new level on a level-up. */
  function RoundResult(heroName: string, experience: int, level: int, r: Round): (result: FightingResult)
  {
    var gain := Gain(r.monster);
    FightingResult(News(heroName, r),
                   if Step(experience, gain).1 then LevelUpRewards(gain, level + 1) else Rewards(gain))
  }

  /** What a fight produces: the pushed results, the experience and level reached, and whether it crashed. */
  datatype FightRun = FightRun(results: seq<FightingResult>, experience: int, level: int, crashed: bool)

  /**
   * The rounds of a fight, from the given experience and stored level: each
   * round pushes one result; a level-up that would pass level 50 fails the
   * table's level check, which ends the task without that round's push.
   */
  function Fight(heroName: string, experience: int, level: int, rounds: seq<Round>): (f: FightRun)
    ensures f.crashed ==> |f.results| < |rounds|
    ensures !f.crashed ==> |f.results| == |rounds|
    ensures level <= f.level
    decreases |rounds|
  {
    if rounds == [] then FightRun([], experience, level, false)
    else
      var r := rounds[0];
      var e := Step(experience, Gain(r.monster)).0;
      if Crashes(experience, level, r) then FightRun([], e, level, true)
      else
        var rest := Fight(heroName, e, NextLevel(experience, level, r), rounds[1..]);
        FightRun([RoundResult(heroName, experience, level, r)] + rest.results, rest.experience, rest.level, rest.crashed)
  }

  /**
   * Over a fight from experience in [0, 100) at a valid level: experience
   * stays in [0, 100), the level stays valid, every experience point is
   * accounted for by the final experience and 100 per level gained, and a
   * fight that does not crash pushes one result per round, while one that
   * crashes stopped at level 50.
   */
  lemma {:induction false} FightSpec(heroName: string, experience: int, level: int, rounds: seq<Round>)
    requires 0 <= experience < 100 && ValidLevel(level)
    ensures var f := Fight(heroName, experience, level, rounds);
            && 0 <= f.experience < 100
            && ValidLevel(f.level) && level <= f.level
            && (!f.crashed ==> |f.results| == |rounds|
                               && 100 * (f.level - level) + f.experience == experience + SumGains(rounds))
            && (f.crashed ==> |f.results| < |rounds| && f.level == MaxLevel
                              && 100 * (f.level - level) + f.experience + 100
                                 == experience + SumGains(rounds[..|f.results| + 1]))
    decreases |rounds|
  {
    if rounds != [] {
      var gain := Gain(rounds[0].monster);
      StepBounded(experience, gain);
      var e := Step(experience, gain).0;
      if Crashes(experience, level, rounds[0]) {
        assert Fight(heroName, experience, level, rounds) == FightRun([], e, level, true);
        assert rounds[..1] == [rounds[0]];
        assert SumGains(rounds[..1]) == gain + SumGains([]);
      } else {
        var newLevel := NextLevel(experience, level, rounds[0]);
        assert ValidLevel(newLevel) && level <= newLevel <= level + 1;
        FightSpec(heroName, e, newLevel, rounds[1..]);
        var rest := Fight(heroName, e, newLevel, rounds[1..]);
        var f := Fight(heroName, experience, level, rounds);
        assert f == FightRun([RoundResult(heroName, experience, level, rounds[0])] + rest.results,
                             rest.experience, rest.level, rest.crashed);
        assert SumGains(rounds) == gain + SumGains(rounds[1..]);
        if rest.crashed {
          var n := |rest.results|;
          assert rounds[..n + 2][1..] == rounds[1..][..n + 1];
          assert SumGains(rounds[..n + 2]) == gain + SumGains(rounds[1..][..n + 1]);
          assert |f.results| + 1 == n + 2;
          assert 100 * (f.level - level) + f.experience + 100 == experience + SumGains(rounds[..n + 2]);
        }
      }
    }
  }

  /** Each pushed result, as the response `JSONRPCResponse(id=task_id, result=...)` written for it. */
  function Pushes(taskId: string, results: seq<FightingResult>): (rs: seq<Response>)
    ensures |rs| == |results|
    ensures forall k | 0 <= k < |rs| ::
              rs[k].id == StrId(taskId) && rs[k].jsonrpc == Version
              && rs[k].result.JObj? && ValidateFightingResult(rs[k].result.fields) == Ok(results[k])
  {
    seq(|results|, k requires 0 <= k < |results| =>
      Response(StrId(taskId), Version, EncodeFightingResult(results[k])))
  }

  /** Pushing one more result appends its response. */
  lemma {:induction false} PushesSnoc(taskId: string, results: seq<FightingResult>, r: FightingResult)
    ensures Pushes(taskId, results + [r]) == Pushes(taskId, results) + [Response(StrId(taskId), Version, EncodeFightingResult(r))]
  {
  }

  /** Two fights run back to back: the pushes of the first come before those of the second. */
  lemma {:induction false} FightSplit(heroName: string, experience: int, level: int, a: seq<Round>, b: seq<Round>)
    ensures var fa := Fight(heroName, experience, level, a);
            Fight(heroName, experience, level, a + b)
            == if fa.crashed then fa
               else var fb := Fight(heroName, fa.experience, fa.level, b);
                    FightRun(fa.results + fb.results, fb.experience, fb.level, fb.crashed)
    decreases |a|
  {
    if a == [] {
      assert a + b == b;
    } else {
      assert (a + b)[0] == a[0] && (a + b)[1..] == a[1..] + b;
      var e := Step(experience, Gain(a[0].monster)).0;
      var newLevel := NextLevel(experience, level, a[0]);
      FightSplit(heroName, e, newLevel, a[1..], b);
      var fa1 := Fight(heroName, e, newLevel, a[1..]);
      if !fa1.crashed {
        var fb := Fight(heroName, fa1.experience, fa1.level, b);
        var pushed := RoundResult(heroName, experience, level, a[0]);
        assert [pushed] + (fa1.results + fb.results) == [pushed] + fa1.results + fb.results;
      }
    }
  }

  /** A fight's run with some results already pushed before it. */
  function After(pushed: seq<FightingResult>, f: FightRun): (run: FightRun)
  {
    f.(results := pushed + f.results)
  }

  /** A round that does not crash pushes its result and leaves the rest of the rounds. */
  lemma {:induction false} Advance(heroName: string, experience: int, level: int, rounds: seq<Round>, pushed: seq<FightingResult>)
    requires rounds != [] && !Crashes(experience, level, rounds[0])
    ensures After(pushed, Fight(heroName, experience, level, rounds))
            == After(pushed + [RoundResult(heroName, experience, level, rounds[0])],
                     Fight(heroName, Step(experience, Gain(rounds[0].monster)).0, NextLevel(experience, level, rounds[0]), rounds[1..]))
  {
    var rest := Fight(heroName, Step(experience, Gain(rounds[0].monster)).0, NextLevel(experience, level, rounds[0]), rounds[1..]);
    var result := RoundResult(heroName, experience, level, rounds[0]);
    assert pushed + ([result] + rest.results) == (pushed + [result]) + rest.results;
  }

  /** A round that crashes ends the fight with what was pushed before it, at the level reached. */
  lemma {:induction false} Halt(heroName: string, experience: int, level: int, rounds: seq<Round>, pushed: seq<FightingResult>)
    requires rounds != [] && Crashes(experience, level, rounds[0])
    ensures After(pushed, Fight(heroName, experience, level, rounds))
            == FightRun(pushed, Step(experience, Gain(rounds[0].monster)).0, level, true)
  {
    assert pushed + [] == pushed;
  }

  /** `Advance` for the round at index `i` of the whole sequence of rounds. */
  lemma {:induction false} AdvanceAt(heroName: string, experience: int, level: int, rounds: seq<Round>, i: nat,
                                     pushed: seq<FightingResult>)
    requires i < |rounds| && !Crashes(experience, level, rounds[i])
    ensures After(pushed, Fight(heroName, experience, level, rounds[i..]))
            == After(pushed + [RoundResult(heroName, experience, level, rounds[i])],
                     Fight(heroName, Step(experience, Gain(rounds[i].monster)).0, NextLevel(experience, level, rounds[i]),
                           rounds[i + 1..]))
  {
    assert rounds[i..][0] == rounds[i] && rounds[i..][1..] == rounds[i + 1..];
    Advance(heroName, experience, level, rounds[i..], pushed);
  }

  /** `Halt` for the round at index `i` of the whole sequence of rounds. */
  lemma {:induction false} HaltAt(heroName: string, experience: int, level: int, rounds: seq<Round>, i: nat,
                                  pushed: seq<FightingResult>)
    requires i < |rounds| && Crashes(experience, level, rounds[i])
    ensures After(pushed, Fight(heroName, experience, level, rounds[i..]))
            == FightRun(pushed, Step(experience, Gain(rounds[i].monster)).0, level, true)
  {
    assert rounds[i..][0] == rounds[i];
    Halt(heroName, experience, level, rounds[i..], pushed);
  }

  /** Setting the same row's level twice is setting it to the second level. */
  lemma {:induction false} SetLevelTwice(rows: seq<HeroRow>, id: int, a: int, b: int)
    ensures SetLevel(SetLevel(rows, id, a), id, b) == SetLevel(rows, id, b)
  {
    var twice, once := SetLevel(SetLevel(rows, id, a), id, b), SetLevel(rows, id, b);
    assert forall i | 0 <= i < |rows| :: twice[i] == once[i];
  }

  /**
   * `hero_upgrade` during a fight, on the table as it was at the start with
   * only the hero's level changed: below the top level it sets that level
   * one higher, at the top it fails the check.
   */
  lemma {:induction false} UpgradeDuringFight(t0: HeroTable, name: string, row: HeroRow, level: int)
    requires FindHero(t0.rows, name) == Some(row)
    ensures UpgradeOf(HeroTable(SetLevel(t0.rows, row.id, level), t0.lastId), name)
            == if ValidLevel(level + 1)
               then UpgradeEffect(Upgraded(level + 1), HeroTable(SetLevel(t0.rows, row.id, level + 1), t0.lastId))
               else UpgradeEffect(LevelCheckFailed, HeroTable(SetLevel(t0.rows, row.id, level), t0.lastId))
  {
    var t := HeroTable(SetLevel(t0.rows, row.id, level), t0.lastId);
    FindSetLevel(t0.rows, row.id, level, name);
    UpgradeOfFound(t, name, HeroRow(row.id, name, level));
    SetLevelTwice(t0.rows, row.id, level, level + 1);
  }

  // ---------------------------------------------------------------------------
  // The handlers, over the application's state.

  /** What `create` answers: the stored hero, or the error detail for a taken name. */
  datatype CreateAnswer = Created(hero: PublicHero) | AlreadyExists(error: ErrorDetail)

  /** What `dungeon` answers: the new task, or the error detail for an unknown hero. */
  datatype DungeonAnswer = Started(task: FightingTask) | NoSuchHero(error: ErrorDetail)

  /** The range of the signed 64-bit integers `sqlite3` can bind. */
  const MinInt64: int := -0x8000_0000_0000_0000
  const MaxInt64: int := 0x7fff_ffff_ffff_ffff

  /**
   * What `sqlite3` makes of the argument bound for `hero_name = ?` against
   * the TEXT column: a string compares as itself; an int (a bool as 1 or 0)
   * takes the column's text affinity and compares as its decimal text; None
   * binds NULL, which equals no row; an int outside the 64-bit range
   * (`OverflowError`), a list, a dict or the `inspect.Parameter.empty`
   * marker cannot be bound.
   */
  datatype BoundName = Text(text: string) | Null | Unbindable

  function SqlName(a: Application.Arg): (key: BoundName)
  {
    match a
    case Value(JStr(s)) => Text(s)
    case Value(JInt(i)) => if MinInt64 <= i <= MaxInt64 then Text(PyText.IntToString(i)) else Unbindable
    case Value(JBool(b)) => Text(if b then "1" else "0")
    case Value(JNull) => Null
    case _ => Unbindable
  }

  /** The row `get_hero` fetches for a bound name: the first of that name, none for NULL. */
  function LookupHero(rows: seq<HeroRow>, key: BoundName): (row: Option<HeroRow>)
  {
    if key.Text? then FindHero(rows, key.text) else None
  }

  /** `str()` of a bindable argument, as the f-string of the error message prints it. */
  function ArgText(a: Application.Arg): (text: string)
  {
    match a
    case Value(JStr(s)) => s
    case Value(JInt(i)) => PyText.IntToString(i)
    case Value(JBool(b)) => if b then "True" else "False"
    case Value(JNull) => "None"
    case _ => ""
  }

  /** An argument `dict.get` cannot hash: a list or a dict. */
  predicate Unhashable(a: Application.Arg)
  {
    a.Value? && (a.value.JArr? || a.value.JObj?)
  }

  /** The task id an argument can equal: `tasks` has string keys, so only a string finds an entry. */
  function TaskKey(a: Application.Arg): (key: Option<string>)
  {
    if a.Value? && a.value.JStr? then Some(a.value.s) else None
  }

  /** An entry of `tasks`: the task's fight, and whether `cancel()` was called on it. */
  datatype TaskEntry = TaskEntry(task: FightingTask, cancelRequested: bool)

  /** The example server's global state: the database and the `tasks` map. */
  class ExampleApp {
    const db: AppDb
    var tasks: map<string, TaskEntry>

    constructor (db: AppDb)
      ensures this.db == db && tasks == map[]
    {
      this.db := db;
      tasks := map[];
    }

    /**
     * `create`: a name already stored gets error -32001 and nothing is
     * created; a new name is inserted at level 0 and the stored hero is
     * returned with its new id.
     */
    method Create(hero: CreateHero) returns (answer: CreateAnswer)
      requires db.Valid()
      modifies db`stored
      ensures db.Valid()
      ensures old(FindHero(db.Table().rows, hero.heroName)).Some? ==>
                && answer == AlreadyExists(ErrorDetail(HeroExistsCode, "英雄 " + hero.heroName + " 已经存在,无法再次创建.", NoData))
                && db.stored == old(db.stored)
      ensures old(FindHero(db.Table().rows, hero.heroName)).None? ==>
                && db.Table() == InsertHero(old(db.Table()), hero.heroName)
                && answer == Created(PublicHero(hero.heroName, Some(old(db.Table()).lastId + 1), 0))
                && ValidPublicHero(answer.hero)
    {
      var existing := db.GetHero(hero.heroName);
      if existing.Some? {
        return AlreadyExists(ErrorDetail(HeroExistsCode, "英雄 " + hero.heroName + " 已经存在,无法再次创建.", NoData));
      }
      ghost var before := db.Table();
      InsertFound(before, hero.heroName);
      var _ := db.CreateHero(hero.heroName);
      var stored := db.GetHero(hero.heroName);
      assert stored == Some(HeroRow(before.lastId + 1, hero.heroName, 0));
      answer := Created(PublicHero(stored.value.heroName, Some(stored.value.id), stored.value.level));
    }

    /**
     * `fighting`: the rounds the task completes, in order. Each round adds
     * its monster's experience; at 100 the experience wraps and the hero is
     * upgraded in the table; one response tagged with the task's id is
     * pushed per round. The run is the pure `Fight` from experience 0 at the
     * hero's stored level, and the table ends with the hero at the level
     * reached.
     */
    method Fighting(task: FightingTask, rounds: seq<Round>) returns (pushes: seq<Response>, crashed: bool)
      requires db.Valid() && FindHero(db.Table().rows, task.hero.heroName).Some?
      requires forall r | r in rounds :: ValidRound(r)
      modifies db`stored
      ensures db.Valid()
      ensures var row := old(FindHero(db.Table().rows, task.hero.heroName)).value;
              var f := Fight(task.hero.heroName, 0, row.level, rounds);
              && pushes == Pushes(task.taskId, f.results)
              && crashed == f.crashed
              && db.Table() == HeroTable(SetLevel(old(db.Table()).rows, row.id, f.level), old(db.Table()).lastId)
    {
      var name := task.hero.heroName;
      ghost var t0 := db.Table();
      ghost var row := FindHero(t0.rows, name).value;
      ghost var whole := Fight(name, 0, row.level, rounds);
      ghost var level := row.level;
      ghost var results: seq<FightingResult> := [];
      var current := task;
      var experience := 0;
      var i := 0;
      pushes := [];
      crashed := false;
      SetLevelTwice(t0.rows, row.id, row.level, row.level);
      assert SetLevel(t0.rows, row.id, row.level) == t0.rows;
      assert rounds[0..] == rounds;
      while i < |rounds|
        invariant 0 <= i <= |rounds|
        invariant db.Valid()
        invariant db.Table() == HeroTable(SetLevel(t0.rows, row.id, level), t0.lastId)
        invariant current == task.(hero := current.hero)
        invariant pushes == Pushes(task.taskId, results)
        invariant whole == After(results, Fight(name, experience, level, rounds[i..]))
        decreases |rounds| - i
      {
        var r := rounds[i];
        ghost var e0, l0 := experience, level;
        var pushed, ok;
        pushed, experience, current, ok := PlayRound(name, t0, row, level, experience, r, current);
        if !ok {
          HaltAt(name, e0, l0, rounds, i, results);
          crashed := true;
          return;
        }
        level := NextLevel(e0, l0, r);
        AdvanceAt(name, e0, l0, rounds, i, results);
        PushesSnoc(task.taskId, results, pushed);
        pushes := pushes + [Response(StrId(current.taskId), Version, EncodeFightingResult(pushed))];
        results := results + [pushed];
        i := i + 1;
      }
      assert rounds[i..] == [];
    }

    /**
     * One round of the fight loop: the monster's experience is added; at 100
     * it wraps and the hero is upgraded in the table, and the task's copy of
     * the hero takes the new level; the round's result is returned for
     * pushing. A failed upgrade ends the round without a result.
     */
    method PlayRound(name: string, ghost t0: HeroTable, ghost row: HeroRow, ghost level: int,
                     experience: int, r: Round, current: FightingTask)
      returns (pushed: FightingResult, newExperience: int, updated: FightingTask, ok: bool)
      requires db.Valid() && FindHero(t0.rows, name) == Some(row)
      requires db.Table() == HeroTable(SetLevel(t0.rows, row.id, level), t0.lastId)
      modifies db`stored
      ensures db.Valid()
      ensures ok <==> !Crashes(experience, level, r)
      ensures !ok ==> db.stored == old(db.stored)
      ensures ok ==>
                && pushed == RoundResult(name, experience, level, r)
                && newExperience == Step(experience, Gain(r.monster)).0
                && updated == current.(hero := updated.hero)
                && db.Table() == HeroTable(SetLevel(t0.rows, row.id, NextLevel(experience, level, r)), t0.lastId)
    {
      var increase := Gain(r.monster);
      newExperience := experience + increase;
      var rewards := Rewards(increase);
      updated := current;
      if newExperience >= 100 {
        newExperience := newExperience % 100;
        assert Step(experience, increase) == (newExperience, true);
        var upgraded := LevelUp(name, t0, row, level);
        if upgraded.None? {
          assert Crashes(experience, level, r);
          return FightingResult("", ""), newExperience, updated, false;
        }
        assert upgraded.value == level + 1 == NextLevel(experience, level, r);
        updated := updated.(hero := updated.hero.(level := upgraded.value));
        rewards := LevelUpRewards(increase, updated.hero.level);
      }
      pushed := FightingResult(News(name, r), rewards);
      ok := true;
    }

    /**
     * The `hero_upgrade` call of the fight loop, on a hero whose stored row
     * differs from the table at the start of the fight only by its level.
     */
    method LevelUp(name: string, ghost t0: HeroTable, ghost row: HeroRow, ghost level: int) returns (newLevel: Option<int>)
      requires db.Valid() && FindHero(t0.rows, name) == Some(row)
      requires db.Table() == HeroTable(SetLevel(t0.rows, row.id, level), t0.lastId)
      modifies db`stored
      ensures db.Valid()
      ensures ValidLevel(level + 1) ==>
                newLevel == Some(level + 1) && db.Table() == HeroTable(SetLevel(t0.rows, row.id, level + 1), t0.lastId)
      ensures !ValidLevel(level + 1) ==> newLevel == None && db.stored == old(db.stored)
    {
      UpgradeDuringFight(t0, name, row, level);
      var upgraded := db.HeroUpgrade(name);
      if upgraded.LevelCheckFailed? {
        return None;
      }
      newLevel := Some(upgraded.level);
    }

    /**
     * `dungeon`: the argument the binder gave for `hero_name`, which is not
     * validated, is bound into the query of `get_hero`. One that cannot be
     * bound makes the cursor raise, and that exception is not one the
     * dispatcher catches (`Err(Fatal(..))`, which stops the read loop). Otherwise an
     * unknown hero gets error -32002 naming the argument as `str()` prints it,
     * and no task is registered; a found hero gets a task for the stored
     * hero, with the fresh id the uuid gives, registered under that id and
     * returned.
     */
    method Dungeon(heroName: Application.Arg, uuid: nat) returns (answer: Result<DungeonAnswer>)
      requires db.Valid() && uuid < Pow16(UuidDigits)
      requires !heroName.Default?
      modifies this`tasks
      ensures answer.Err? <==> SqlName(heroName).Unbindable?
      ensures answer.Err? ==> answer.failure.Fatal? && tasks == old(tasks)
      ensures answer.Ok? && LookupHero(db.Table().rows, SqlName(heroName)).None? ==>
                && answer.value == NoSuchHero(ErrorDetail(HeroMissingCode, "英雄 " + ArgText(heroName) + " 不存在.", NoData))
                && tasks == old(tasks)
      ensures answer.Ok? && LookupHero(db.Table().rows, SqlName(heroName)).Some? ==>
                var row := LookupHero(db.Table().rows, SqlName(heroName)).value;
                && answer.value == Started(NewFightingTask(PublicHero(row.heroName, Some(row.id), row.level), uuid))
                && tasks == old(tasks)[answer.value.task.taskId := TaskEntry(answer.value.task, false)]
                && ValidPublicHero(answer.value.task.hero)
    {
      var key := SqlName(heroName);
      if key.Unbindable? {
        return Err(Fatal("Error binding parameter 1"));
      }
      var hero := None;
      if key.Text? {
        hero := db.GetHero(key.text);
      }
      assert hero == LookupHero(db.Table().rows, key);
      if hero.None? {
        return Ok(NoSuchHero(ErrorDetail(HeroMissingCode, "英雄 " + ArgText(heroName) + " 不存在.", NoData)));
      }
      var publicHero := PublicHero(hero.value.heroName, Some(hero.value.id), hero.value.level);
      var fightingTask := NewFightingTask(publicHero, uuid);
      tasks := tasks[fightingTask.taskId := TaskEntry(fightingTask, false)];
      answer := Ok(Started(fightingTask));
    }

    /**
     * `stop_dungeon`: looks the argument the binder gave for `task_id` up in
     * `tasks`. A list or an object cannot be hashed and the lookup raises an
     * exception the dispatcher does not catch. Any other argument answers
     * true; only a string that is a registered task id cancels that task,
     * whose entry stays in `tasks`.
     */
    method StopDungeon(taskId: Application.Arg) returns (stopped: Result<bool>)
      requires !taskId.Default?
      modifies this`tasks
      ensures stopped.Err? <==> Unhashable(taskId)
      ensures stopped.Err? ==> stopped.failure.Fatal? && tasks == old(tasks)
      ensures stopped.Ok? ==> stopped.value
      ensures tasks.Keys == old(tasks).Keys
      ensures TaskKey(taskId).Some? && TaskKey(taskId).value in old(tasks) ==>
                var id := TaskKey(taskId).value;
                tasks == old(tasks)[id := old(tasks)[id].(cancelRequested := true)]
      ensures !(TaskKey(taskId).Some? && TaskKey(taskId).value in old(tasks)) ==> tasks == old(tasks)
    {
      if Unhashable(taskId) {
        return Err(Fatal("unhashable type"));
      }
      var key := TaskKey(taskId);
      if key.Some? && key.value in tasks {
        tasks := tasks[key.value := tasks[key.value].(cancelRequested := true)];
      }
      stopped := Ok(true);
    }
  }
}
