/**
 * The example application's hero table, held in memory: rows of
 * (id, hero_name, level) with an autoincrement id, a unique name and a level
 * checked to lie in 0..50. The database engine, connection and cursor are
 * not modelled; each statement is one atomic change of the table.
 */
module Databases {
  import opened Wrappers
  import Schemas

  /** One row of the `hero` table, as `SELECT id, hero_name, level` returns it. */
  datatype HeroRow = HeroRow(id: int, heroName: string, level: int)

  /**
   * The `hero` table: its rows in id order and the largest id ever handed
   * out (the table's autoincrement counter), which never goes back.
   */
  datatype HeroTable = HeroTable(rows: seq<HeroRow>, lastId: int)

  const EmptyTable: HeroTable := HeroTable([], 0)

  /**
   * What the table's declaration guarantees: ids are positive, increasing
   * and at most the counter (`INTEGER PRIMARY KEY AUTOINCREMENT`), names are
   * unique (`UNIQUE`), and levels lie in 0..50 (`CHECK(level BETWEEN 0 AND 50)`).
   */
  ghost predicate TableOk(t: HeroTable)
  {
    && 0 <= t.lastId
    && (forall i | 0 <= i < |t.rows| :: 1 <= t.rows[i].id <= t.lastId)
    && (forall i, j | 0 <= i < j < |t.rows| :: t.rows[i].id < t.rows[j].id)
    && (forall i, j | 0 <= i < j < |t.rows| :: t.rows[i].heroName != t.rows[j].heroName)
    && (forall i | 0 <= i < |t.rows| :: Schemas.ValidLevel(t.rows[i].level))
  }

  /** `SELECT ... WHERE hero_name = ?` followed by `fetchone()`: the first row of that name. */
  function FindHero(rows: seq<HeroRow>, name: string): (r: Option<HeroRow>)
    ensures r.None? <==> forall i | 0 <= i < |rows| :: rows[i].heroName != name
    ensures r.Some? ==> r.value in rows && r.value.heroName == name
  {
    if rows == [] then None
    else if rows[0].heroName == name then Some(rows[0])
    else FindHero(rows[1..], name)
  }

  /** The row found is the first of that name. */
  lemma {:induction false} FindFirst(rows: seq<HeroRow>, name: string, i: nat)
    requires i < |rows| && rows[i].heroName == name
    requires forall j | 0 <= j < i :: rows[j].heroName != name
    ensures FindHero(rows, name) == Some(rows[i])
  {
    if i > 0 {
      FindFirst(rows[1..], name, i - 1);
    }
  }

  /** With unique names, the row found is the one row of that name. */
  lemma {:induction false} FindUnique(t: HeroTable, name: string, i: nat)
    requires TableOk(t)
    requires i < |t.rows| && t.rows[i].heroName == name
    ensures FindHero(t.rows, name) == Some(t.rows[i])
  {
    FindFirst(t.rows, name, i);
  }

  /** The index of the row a name finds. */
  lemma {:induction false} FoundAt(t: HeroTable, name: string) returns (k: nat)
    requires TableOk(t) && FindHero(t.rows, name).Some?
    ensures k < |t.rows| && t.rows[k] == FindHero(t.rows, name).value
  {
    k :| 0 <= k < |t.rows| && t.rows[k] == FindHero(t.rows, name).value;
  }

  /** `INSERT INTO hero(hero_name, level) VALUES (?, 0)` on a name not yet stored. */
  function InsertHero(t: HeroTable, name: string): (u: HeroTable)
    ensures u.lastId == t.lastId + 1
    ensures |u.rows| == |t.rows| + 1 && u.rows[..|t.rows|] == t.rows
    ensures u.rows[|t.rows|] == HeroRow(u.lastId, name, 0)
  {
    HeroTable(t.rows + [HeroRow(t.lastId + 1, name, 0)], t.lastId + 1)
  }

  /** Looking a name up after appending a row: an earlier row of that name wins, then the new row. */
  lemma {:induction false} FindAppend(rows: seq<HeroRow>, x: HeroRow, name: string)
    ensures FindHero(rows + [x], name)
            == if FindHero(rows, name).Some? then FindHero(rows, name)
               else if x.heroName == name then Some(x) else None
  {
    if rows != [] {
      assert (rows + [x])[1..] == rows[1..] + [x];
      FindAppend(rows[1..], x, name);
    }
  }

  /** Appending a row of a new name, with an id above the counter, keeps the table well formed. */
  lemma {:induction false} InsertOk(t: HeroTable, name: string)
    requires TableOk(t) && forall i | 0 <= i < |t.rows| :: t.rows[i].heroName != name
    ensures TableOk(InsertHero(t, name))
  {
    var u := InsertHero(t, name);
    assert forall i | 0 <= i < |t.rows| :: u.rows[i] == t.rows[i];
  }

  /** The inserted name is found, with the new id and level 0. */
  lemma {:induction false} InsertFound(t: HeroTable, name: string)
    requires FindHero(t.rows, name).None?
    ensures FindHero(InsertHero(t, name).rows, name) == Some(HeroRow(t.lastId + 1, name, 0))
  {
    FindAppend(t.rows, HeroRow(t.lastId + 1, name, 0), name);
  }

  /**
   * Inserting a new name keeps the table well formed, appends one row at
   * level 0 whose id is larger than every id handed out before, and leaves
   * every other name's row as it was.
   */
  lemma {:induction false} InsertHeroSpec(t: HeroTable, name: string)
    requires TableOk(t) && FindHero(t.rows, name).None?
    ensures TableOk(InsertHero(t, name))
    ensures FindHero(InsertHero(t, name).rows, name) == Some(HeroRow(t.lastId + 1, name, 0))
    ensures forall i | 0 <= i < |t.rows| :: t.rows[i].id < InsertHero(t, name).lastId
    ensures forall other | other != name :: FindHero(InsertHero(t, name).rows, other) == FindHero(t.rows, other)
  {
    InsertOk(t, name);
    var x := HeroRow(t.lastId + 1, name, 0);
    FindAppend(t.rows, x, name);
    forall other | other != name
      ensures FindHero(t.rows + [x], other) == FindHero(t.rows, other)
    {
      FindAppend(t.rows, x, other);
    }
  }

  /** The rows with the level of the row of the given id replaced. */
  function SetLevel(rows: seq<HeroRow>, id: int, level: int): (r: seq<HeroRow>)
    ensures |r| == |rows|
    ensures forall i {:trigger r[i]} | 0 <= i < |rows| ::
              r[i] == if rows[i].id == id then HeroRow(id, rows[i].heroName, level) else rows[i]
  {
    seq(|rows|, i requires 0 <= i < |rows| =>
      if rows[i].id == id then HeroRow(id, rows[i].heroName, level) else rows[i])
  }

  /** `UPDATE hero SET level = level + 1` on the row of a stored name. */
  function Upgrade(t: HeroTable, row: HeroRow): (u: HeroTable)
    ensures u.lastId == t.lastId && |u.rows| == |t.rows|
    ensures forall i | 0 <= i < |t.rows| :: u.rows[i].id == t.rows[i].id && u.rows[i].heroName == t.rows[i].heroName
    ensures forall i | 0 <= i < |t.rows| ::
              u.rows[i].level == if t.rows[i].id == row.id then row.level + 1 else t.rows[i].level
  {
    HeroTable(SetLevel(t.rows, row.id, row.level + 1), t.lastId)
  }

  /** Setting a level keeps the names, so a lookup finds the same row, updated if it has that id. */
  lemma {:induction false} FindSetLevel(rows: seq<HeroRow>, id: int, level: int, name: string)
    ensures FindHero(SetLevel(rows, id, level), name)
            == match FindHero(rows, name)
               case None => None
               case Some(r) => Some(if r.id == id then HeroRow(id, r.heroName, level) else r)
  {
    if rows != [] {
      assert SetLevel(rows, id, level)[1..] == SetLevel(rows[1..], id, level);
      FindSetLevel(rows[1..], id, level, name);
    }
  }

  /** Setting the level of a row to a valid level keeps the table well formed. */
  lemma {:induction false} SetLevelOk(t: HeroTable, id: int, level: int)
    requires TableOk(t) && Schemas.ValidLevel(level)
    ensures TableOk(HeroTable(SetLevel(t.rows, id, level), t.lastId))
  {
  }

  /** Two rows of different names have different ids. */
  lemma {:induction false} DistinctIds(t: HeroTable, name: string, other: string)
    requires TableOk(t) && name != other
    requires FindHero(t.rows, name).Some? && FindHero(t.rows, other).Some?
    ensures FindHero(t.rows, name).value.id != FindHero(t.rows, other).value.id
  {
    var k := FoundAt(t, name);
    var m := FoundAt(t, other);
    if m < k { assert t.rows[m].id < t.rows[k].id; } else { assert t.rows[k].id < t.rows[m].id; }
  }

  /** Upgrading one hero leaves the lookup of every other name as it was. */
  lemma {:induction false} UpgradeOther(t: HeroTable, name: string, row: HeroRow, other: string)
    requires TableOk(t) && FindHero(t.rows, name) == Some(row) && other != name
    ensures FindHero(Upgrade(t, row).rows, other) == FindHero(t.rows, other)
  {
    var rows := SetLevel(t.rows, row.id, row.level + 1);
    assert Upgrade(t, row).rows == rows;
    FindSetLevel(t.rows, row.id, row.level + 1, other);
    match FindHero(t.rows, other)
    case None =>
    case Some(r) =>
      DistinctIds(t, name, other);
      assert r.id != row.id;
      assert FindHero(rows, other) == Some(r);
  }

  /** The upgraded hero's row is found with its level one higher. */
  lemma {:induction false} UpgradeSelf(t: HeroTable, name: string, row: HeroRow)
    requires FindHero(t.rows, name) == Some(row)
    ensures FindHero(Upgrade(t, row).rows, name) == Some(HeroRow(row.id, name, row.level + 1))
  {
    FindSetLevel(t.rows, row.id, row.level + 1, name);
  }

  /**
   * Upgrading a stored hero below the top level keeps the table well formed,
   * raises that hero's level by one and changes no other name's row.
   */
  lemma {:induction false} UpgradeSpec(t: HeroTable, name: string, row: HeroRow)
    requires TableOk(t) && FindHero(t.rows, name) == Some(row)
    requires Schemas.ValidLevel(row.level + 1)
    ensures TableOk(Upgrade(t, row))
    ensures FindHero(Upgrade(t, row).rows, name) == Some(HeroRow(row.id, name, row.level + 1))
    ensures forall other | other != name :: FindHero(Upgrade(t, row).rows, other) == FindHero(t.rows, other)
  {
    SetLevelOk(t, row.id, row.level + 1);
    UpgradeSelf(t, name, row);
    forall other | other != name
      ensures FindHero(Upgrade(t, row).rows, other) == FindHero(t.rows, other)
    {
      UpgradeOther(t, name, row, other);
    }
  }

  /** What `hero_upgrade` does: no such hero (None), the new level, or a failed level check. */
  datatype UpgradeOutcome = NoHero | Upgraded(level: int) | LevelCheckFailed

  /** The outcome of `hero_upgrade` together with the table it leaves. */
  datatype UpgradeEffect = UpgradeEffect(outcome: UpgradeOutcome, table: HeroTable)

  /**
   * What `hero_upgrade` does to a table: an unknown name is reported and
   * changes nothing; a stored hero below the top level is raised by one; at
   * the top level the check fails and nothing changes.
   */
  function UpgradeOf(t: HeroTable, name: string): (e: UpgradeEffect)
    ensures e.outcome == NoHero <==> FindHero(t.rows, name).None?
    ensures !e.outcome.Upgraded? ==> e.table == t
    ensures e.outcome.Upgraded? ==>
              Schemas.ValidLevel(e.outcome.level) && e.outcome.level == FindHero(t.rows, name).value.level + 1
  {
    match FindHero(t.rows, name)
    case None => UpgradeEffect(NoHero, t)
    case Some(row) =>
      if Schemas.ValidLevel(row.level + 1) then UpgradeEffect(Upgraded(row.level + 1), Upgrade(t, row))
      else UpgradeEffect(LevelCheckFailed, t)
  }

  /** Raising a hero's level to a valid level keeps the table well formed. */
  lemma {:induction false} UpgradeOk(t: HeroTable, row: HeroRow)
    requires TableOk(t) && Schemas.ValidLevel(row.level + 1)
    ensures TableOk(Upgrade(t, row))
  {
    SetLevelOk(t, row.id, row.level + 1);
  }

  /** `hero_upgrade` on a stored hero raises it below the top level and fails the check at the top. */
  lemma {:induction false} UpgradeOfFound(t: HeroTable, name: string, row: HeroRow)
    requires FindHero(t.rows, name) == Some(row)
    ensures Schemas.ValidLevel(row.level + 1) ==> UpgradeOf(t, name) == UpgradeEffect(Upgraded(row.level + 1), Upgrade(t, row))
    ensures !Schemas.ValidLevel(row.level + 1) ==> UpgradeOf(t, name) == UpgradeEffect(LevelCheckFailed, t)
  {
  }

  /** The successful branch of `hero_upgrade`, as the method takes it. */
  lemma {:induction false} UpgradeStep(t: HeroTable, name: string, row: HeroRow)
    requires TableOk(t) && FindHero(t.rows, name) == Some(row) && Schemas.ValidLevel(row.level + 1)
    ensures TableOk(Upgrade(t, row))
    ensures FindHero(Upgrade(t, row).rows, name) == Some(HeroRow(row.id, name, row.level + 1))
    ensures UpgradeOf(t, name) == UpgradeEffect(Upgraded(row.level + 1), Upgrade(t, row))
  {
    UpgradeOk(t, row);
    UpgradeSelf(t, name, row);
    UpgradeOfFound(t, name, row);
  }

  /** What `create_hero` does: insert, or fail on the uniqueness constraint. */
  datatype CreateOutcome = Inserted | IntegrityError


  class AppDb {
    /** The `hero` table of the database file; None before it is created. */
    var stored: Option<HeroTable>

    ghost predicate Valid()
      reads this
    {
      stored.Some? && TableOk(stored.value)
    }

    function Table(): (t: HeroTable)
      reads this
      requires Valid()
    {
      stored.value
    }

    /** `AppDB()`: opens the database file, which may already hold the table, and creates the table if missing. */
    constructor (file: Option<HeroTable>)
      requires file.Some? ==> TableOk(file.value)
      ensures Valid()
      ensures stored == Some(file.GetOr(EmptyTable))
    {
      stored := file;
      new;
      CreateAllTable();
    }

    /** `CREATE TABLE IF NOT EXISTS`: an existing table is left as it is, so calling it again changes nothing. */
    method CreateAllTable()
      requires stored.Some? ==> TableOk(stored.value)
      modifies this`stored
      ensures Valid()
      ensures stored == Some(old(stored).GetOr(EmptyTable))
      ensures old(stored).Some? ==> stored == old(stored)
    {
      if stored.None? {
        stored := Some(EmptyTable);
      }
    }

    /**
     * `create_hero`: a new name is inserted at level 0 under the next id; a
     * name already stored fails the `UNIQUE` constraint and changes nothing.
     */
    method CreateHero(name: string) returns (outcome: CreateOutcome)
      requires Valid()
      modifies this`stored
      ensures Valid()
      ensures old(FindHero(Table().rows, name)).Some? ==> outcome == IntegrityError && stored == old(stored)
      ensures old(FindHero(Table().rows, name)).None? ==>
                outcome == Inserted && Table() == InsertHero(old(Table()), name)
    {
      var t := stored.value;
      if FindHero(t.rows, name).Some? {
        return IntegrityError;
      }
      InsertOk(t, name);
      stored := Some(InsertHero(t, name));
      outcome := Inserted;
    }

    /** `get_hero_list`: every stored hero, once each, in id order. */
    method GetHeroList() returns (heroes: seq<HeroRow>)
      requires Valid()
      ensures heroes == Table().rows
      ensures forall i, j | 0 <= i < j < |heroes| :: heroes[i].heroName != heroes[j].heroName && heroes[i].id < heroes[j].id
    {
      heroes := stored.value.rows;
    }

    /** `get_hero`: the row of that name, or None. */
    method GetHero(name: string) returns (hero: Option<HeroRow>)
      requires Valid()
      ensures hero == FindHero(Table().rows, name)
      ensures hero.Some? <==> exists i | 0 <= i < |Table().rows| :: Table().rows[i].heroName == name
      ensures hero.Some? ==> hero.value.heroName == name && hero.value in Table().rows
    {
      hero := FindHero(stored.value.rows, name);
    }

    /**
     * `hero_upgrade`: None for an unknown name; otherwise the level goes up
     * by one and the new level is returned, unless that breaks the level
     * check (a hero at 50), which raises and changes nothing.
     */
    method HeroUpgrade(name: string) returns (outcome: UpgradeOutcome)
      requires Valid()
      modifies this`stored
      ensures Valid()
      ensures UpgradeEffect(outcome, Table()) == UpgradeOf(old(Table()), name)
    {
      var t := stored.value;
      var hero := FindHero(t.rows, name);
      if hero.None? {
        return NoHero;
      }
      var row := hero.value;
      if !Schemas.ValidLevel(row.level + 1) {
        return LevelCheckFailed;
      }
      UpgradeStep(t, name, row);
      stored := Some(Upgrade(t, row));
      var after := FindHero(stored.value.rows, name);
      outcome := Upgraded(after.value.level);
    }
  }
}
