/**
 Schema upgrades: `initSchema` of internal/store/sqlite.go over an arbitrary migration list,
 with the effect of each query left open.
 */
module Migration {
  import opened Types

  datatype Migration = Migration(ver: int, query: nat)

  // Executing a query changes the database or fails.
  type Exec<!D> = (nat, D) -> Option<D>

  datatype Db<D> = Db(version: Option<int>, config: Option<(int, int)>, data: D)

  ghost predicate Ascending(ms: seq<Migration>) {
    forall i, j :: 0 <= i < j < |ms| ==> ms[i].ver < ms[j].ver
  }

  // The migrations above a version, in list order: what an upgrade from it should run.
  ghost function Later(ms: seq<Migration>, version: int): seq<Migration>
    decreases |ms|
  {
    if ms == [] then []
    else (if version < ms[0].ver then [ms[0]] else []) + Later(ms[1..], version)
  }

  // The migrations the loop selects: it raises `version` as it goes.
  ghost function Selected(ms: seq<Migration>, version: int): seq<Migration>
    decreases |ms|
  {
    if ms == [] then []
    else if version < ms[0].ver then [ms[0]] + Selected(ms[1..], ms[0].ver)
    else Selected(ms[1..], version)
  }

  ghost function ExecAll<D>(exec: Exec<D>, ms: seq<Migration>, data: D): Option<D>
    decreases |ms|
  {
    if ms == [] then Some(data) else
    match exec(ms[0].query, data)
    case None => None
    case Some(d) => ExecAll(exec, ms[1..], d)
  }

  function LastVersion(ms: seq<Migration>, version: int): int {
    if ms == [] then version else ms[|ms| - 1].ver
  }

  // A database without a version row gets the base schema, version 1 and a config row first.
  function Prepared<D>(create: D -> D, db: Db<D>, today: int): Db<D> {
    if db.version.Some? then db
    else Db(Some(1), if db.config.Some? then db.config else Some((1, today)), create(db.data))
  }

  // Run the given migrations on a prepared database and record the last version.
  ghost function Running<D>(exec: Exec<D>, base: Db<D>, todo: seq<Migration>): Option<Db<D>>
    requires base.version.Some?
  {
    match ExecAll(exec, todo, base.data)
    case None => None
    case Some(d) => Some(base.(version := Some(LastVersion(todo, base.version.value)), data := d))
  }

  // What an upgrade should do: run the later migrations, each once and in order.
  ghost function Upgrade<D>(exec: Exec<D>, create: D -> D, ms: seq<Migration>, db: Db<D>,
                                   today: int): Option<Db<D>>
  {
    var base := Prepared(create, db, today);
    Running(exec, base, Later(ms, base.version.value))
  }

  // What `initSchema` does.
  ghost function InitSchemaSpec<D>(exec: Exec<D>, create: D -> D, ms: seq<Migration>, db: Db<D>,
                                   today: int): Option<Db<D>>
  {
    var base := Prepared(create, db, today);
    Running(exec, base, Selected(ms, base.version.value))
  }

  lemma LaterBounds(ms: seq<Migration>, version: int)
    ensures forall m :: m in Later(ms, version) <==> m in ms && version < m.ver
  {
    if ms != [] {
      assert ms == [ms[0]] + ms[1..];
      LaterBounds(ms[1..], version);
    }
  }

  lemma AscendingTail(ms: seq<Migration>, k: nat)
    requires Ascending(ms) && k <= |ms|
    ensures Ascending(ms[k..]) && Ascending(ms[..k])
  {
  }

  lemma {:induction false} LaterAscends(ms: seq<Migration>, version: int)
    requires Ascending(ms)
    ensures Ascending(Later(ms, version))
    decreases |ms|
  {
    if ms != [] {
      AscendingTail(ms, 1);
      LaterAscends(ms[1..], version);
      LaterBounds(ms[1..], version);
    }
  }

  lemma {:induction false} SelectedAscends(ms: seq<Migration>, version: int)
    ensures Ascending(Selected(ms, version))
    ensures forall i :: 0 <= i < |Selected(ms, version)| ==> version < Selected(ms, version)[i].ver
    decreases |ms|
  {
    if ms != [] {
      SelectedAscends(ms[1..], if version < ms[0].ver then ms[0].ver else version);
    }
  }

  lemma {:induction false} RaisingTheFloor(ms: seq<Migration>, low: int, high: int)
    requires low <= high
    requires forall m :: m in Later(ms, low) ==> high < m.ver
    ensures Later(ms, high) == Later(ms, low)
    decreases |ms|
  {
    if ms != [] {
      assert forall m :: m in Later(ms[1..], low) ==> m in Later(ms, low);
      assert low < ms[0].ver ==> ms[0] in Later(ms, low);
      RaisingTheFloor(ms[1..], low, high);
    }
  }

  lemma HeadIsBelow(m: Migration, rest: seq<Migration>)
    requires Ascending([m] + rest)
    ensures Ascending(rest) && forall x :: x in rest ==> m.ver < x.ver
  {
    assert ([m] + rest)[1..] == rest;
    forall x | x in rest
      ensures m.ver < x.ver
    {
      var i :| 0 <= i < |rest| && rest[i] == x;
      assert ([m] + rest)[0] == m && ([m] + rest)[i + 1] == x;
    }
  }

  lemma {:induction false} AscendingIsSelected(ms: seq<Migration>, version: int)
    requires Ascending(Later(ms, version))
    ensures Selected(ms, version) == Later(ms, version)
    decreases |ms|
  {
    if ms == [] {
    } else if version < ms[0].ver {
      HeadIsBelow(ms[0], Later(ms[1..], version));
      RaisingTheFloor(ms[1..], version, ms[0].ver);
      AscendingIsSelected(ms[1..], ms[0].ver);
    } else {
      assert Later(ms, version) == Later(ms[1..], version);
      AscendingIsSelected(ms[1..], version);
    }
  }

  /** The loop runs all migrations above the starting version, each once and in order, exactly if
      those stand in ascending order in the list; otherwise it skips some. */
  lemma SelectsAllLater(ms: seq<Migration>, version: int)
    ensures Selected(ms, version) == Later(ms, version) <==> Ascending(Later(ms, version))
  {
    SelectedAscends(ms, version);
    if Ascending(Later(ms, version)) {
      AscendingIsSelected(ms, version);
    }
  }

  /** `initSchema`: everything the loop selects, or an error and no change at all. */
  method InitSchema<D>(exec: Exec<D>, create: D -> D, ms: seq<Migration>, db: Db<D>, today: int)
    returns (db': Db<D>, ok: bool)
    ensures ok <==> InitSchemaSpec(exec, create, ms, db, today).Some?
    ensures ok ==> Some(db') == InitSchemaSpec(exec, create, ms, db, today)
    ensures !ok ==> db' == db
  {
    var version, data, config := 1, db.data, db.config;
    if db.version.None? {
      data := create(data);
      if config.None? {
        config := Some((1, today));
      }
    } else {
      version := db.version.value;
    }
    ghost var todo, base := Selected(ms, version), Prepared(create, db, today);
    assert ms[0..] == ms;
    for i := 0 to |ms|
      invariant ExecAll(exec, Selected(ms[i..], version), data) == ExecAll(exec, todo, base.data)
      invariant LastVersion(Selected(ms[i..], version), version) == LastVersion(todo, base.version.value)
    {
      assert ms[i..][1..] == ms[i + 1..];
      if version < ms[i].ver {
        ghost var sel := Selected(ms[i..], version);
        assert sel[0] == ms[i] && sel[1..] == Selected(ms[i + 1..], ms[i].ver);
        var r := exec(ms[i].query, data);
        if r.None? {
          return db, false;
        }
        data := r.value;
        version := ms[i].ver;
      }
    }
    return Db(Some(version), config, data), true;
  }

  /** With an ascending list `initSchema` is the upgrade it should be. */
  lemma InitSchemaUpgrades<D>(exec: Exec<D>, create: D -> D, ms: seq<Migration>, db: Db<D>, today: int)
    requires Ascending(ms)
    ensures InitSchemaSpec(exec, create, ms, db, today) == Upgrade(exec, create, ms, db, today)
  {
    var version := Prepared(create, db, today).version.value;
    LaterAscends(ms, version);
    AscendingIsSelected(ms, version);
  }

  lemma {:induction false} ExecAllSplits<D>(exec: Exec<D>, a: seq<Migration>, b: seq<Migration>, data: D)
    ensures ExecAll(exec, a + b, data) ==
            match ExecAll(exec, a, data) case None => None case Some(d) => ExecAll(exec, b, d)
    decreases |a|
  {
    if a == [] {
      assert a + b == b;
    } else {
      assert (a + b)[1..] == a[1..] + b;
      var r := exec(a[0].query, data);
      if r.Some? {
        ExecAllSplits(exec, a[1..], b, r.value);
      }
    }
  }

  lemma {:induction false} LaterSplits(a: seq<Migration>, b: seq<Migration>, version: int)
    ensures Later(a + b, version) == Later(a, version) + Later(b, version)
    decreases |a|
  {
    if a == [] {
      assert a + b == b;
    } else {
      assert (a + b)[1..] == a[1..] + b;
      LaterSplits(a[1..], b, version);
    }
  }

  // An upgraded database is above every migration of the list.
  lemma NothingLeft(ms: seq<Migration>, version: int)
    requires Ascending(ms)
    ensures
      var v := LastVersion(Later(ms, version), version);
      version <= v && Later(ms, v) == []
  {
    var done := Later(ms, version);
    var v := LastVersion(done, version);
    LaterAscends(ms, version);
    LaterBounds(ms, version);
    LaterBounds(ms, v);
    assert Later(ms, v) == [] || Later(ms, v)[0] in Later(ms, v);
    assert version <= v by {
      if done != [] {
        assert done[|done| - 1] in done;
      }
    }
    forall m | m in done
      ensures m.ver <= v
    {
      var i :| 0 <= i < |done| && done[i] == m;
    }
  }

  lemma RestIsAbove(a: seq<Migration>, b: seq<Migration>, version: int, m: Migration)
    requires Ascending(a + b) && m in Later(b, version)
    ensures LastVersion(Later(a, version), version) < m.ver
  {
    LaterBounds(b, version);
    var done := Later(a, version);
    if done != [] {
      var x := done[|done| - 1];
      LaterBounds(a, version);
      assert x in done;
      var i :| 0 <= i < |a| && a[i] == x;
      var j :| 0 <= j < |b| && b[j] == m;
      assert (a + b)[i] == x && (a + b)[|a| + j] == m;
    }
  }

  lemma LaterAfter(a: seq<Migration>, b: seq<Migration>, version: int)
    requires Ascending(a + b)
    ensures
      var v := LastVersion(Later(a, version), version);
      && Later(a + b, version) == Later(a, version) + Later(a + b, v)
      && Later(a + b, v) == Later(b, version)
  {
    hide Later, LastVersion;
    var v := LastVersion(Later(a, version), version);
    assert (a + b)[..|a|] == a;
    AscendingTail(a + b, |a|);
    LaterSplits(a, b, version);
    LaterSplits(a, b, v);
    NothingLeft(a, version);
    forall m | m in Later(b, version)
      ensures v < m.ver
    {
      RestIsAbove(a, b, version, m);
    }
    RaisingTheFloor(b, version, v);
    assert Later(a + b, v) == [] + Later(b, version) == Later(b, version);
  }

  // After upgrading through the first k migrations, what remains is what stood after them.
  lemma LaterAfterPrefix(ms: seq<Migration>, k: nat, version: int)
    requires Ascending(ms) && k <= |ms|
    ensures
      var v := LastVersion(Later(ms[..k], version), version);
      && Later(ms, version) == Later(ms[..k], version) + Later(ms, v)
      && LastVersion(Later(ms, v), v) == LastVersion(Later(ms, version), version)
  {
    hide Later, Ascending;
    assert ms == ms[..k] + ms[k..];
    LaterAfter(ms[..k], ms[k..], version);
  }

  /** Starting the program with any prefix of the list and later with the whole list leaves what
      starting it once with the whole list leaves, and starting it again changes nothing. */
  lemma PathIndependence<D>(exec: Exec<D>, create: D -> D, ms: seq<Migration>, k: nat, db: Db<D>, day1: int, day2: int)
    requires Ascending(ms) && k <= |ms|
    requires InitSchemaSpec(exec, create, ms[..k], db, day1).Some?
    ensures
      var mid := InitSchemaSpec(exec, create, ms[..k], db, day1).value;
      && InitSchemaSpec(exec, create, ms, mid, day2) == InitSchemaSpec(exec, create, ms, db, day1)
      && InitSchemaSpec(exec, create, ms[..k], mid, day2) == Some(mid)
  {
    AscendingTail(ms, k);
    InitSchemaUpgrades(exec, create, ms[..k], db, day1);
    InitSchemaUpgrades(exec, create, ms, db, day1);
    var base := Prepared(create, db, day1);
    var version := base.version.value;
    var mid := Upgrade(exec, create, ms[..k], db, day1).value;
    InitSchemaUpgrades(exec, create, ms, mid, day2);
    InitSchemaUpgrades(exec, create, ms[..k], mid, day2);
    LaterAfterPrefix(ms, k, version);
    ExecAllSplits(exec, Later(ms[..k], version), Later(ms, mid.version.value), base.data);
    NothingLeft(ms[..k], version);
  }

  // The list the program has: version 2 adds the owner column to the announce table.
  const ADD_OWNER_COLUMN := 2

  const MIGRATIONS := [Migration(2, ADD_OWNER_COLUMN)]

  /** The first start creates the tables, brings them to version 2 and starts the day counter at 1; a
      version 1 database is brought to version 2; a later one is left as it is. */
  lemma StartsAtVersionTwo<D>(exec: Exec<D>, create: D -> D, db: Db<D>, today: int)
    ensures db.version == None ==>
      InitSchemaSpec(exec, create, MIGRATIONS, db, today) ==
      match exec(ADD_OWNER_COLUMN, create(db.data))
      case None => None
      case Some(d) => Some(Db(Some(2), if db.config.Some? then db.config else Some((1, today)), d))
    ensures db.version == Some(1) ==>
      InitSchemaSpec(exec, create, MIGRATIONS, db, today) ==
      match exec(ADD_OWNER_COLUMN, db.data)
      case None => None
      case Some(d) => Some(Db(Some(2), db.config, d))
    ensures db.version.Some? && db.version.value >= 2 ==>
      InitSchemaSpec(exec, create, MIGRATIONS, db, today) == Some(db)
  {
    var m := MIGRATIONS[0];
    assert MIGRATIONS[1..] == [];
    assert Selected(MIGRATIONS, 1) == [m] && [m][1..] == [];
    assert forall d :: ExecAll(exec, [m], d) == exec(ADD_OWNER_COLUMN, d);
    if db.version.Some? && db.version.value >= 2 {
      assert Selected(MIGRATIONS, db.version.value) == Selected([], db.version.value) == [];
    }
  }
}
