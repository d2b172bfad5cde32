/** Persistent namespace versions with a short-lived copy in each process. */
module CacheVersions {
  import opened Lists
  import CacheModel

  type Time = CacheModel.Time

  /** `int(value or 1)`: an absent row and a stored 0 both count as 1. */
  function Effective(table: map<string, int>, ns: string): int {
    if ns in table && table[ns] != 0 then table[ns] else 1
  }

  /** The upsert: a new row starts at 2, an existing one is raised by 1. */
  function Upserted(table: map<string, int>, names: seq<string>): map<string, int> {
    map ns | ns in table.Keys + (set n | n in names) ::
      if ns !in names then table[ns] else if ns in table then table[ns] + 1 else 2
  }

  predicate Positive(table: map<string, int>) { forall ns | ns in table :: table[ns] >= 1 }

  /** One process: the committed version rows it reads and its local copies. */
  class Versions {
    var table: map<string, int>
    var local: map<string, (Time, int)>

    constructor (table: map<string, int>)
      ensures this.table == table && local == map[]
    {
      this.table := table;
      local := map[];
    }

    /** Without Redis the version is 1; a copy that has not expired is returned as it is;
        otherwise the row is read and copied for 5 s. */
    method CacheVersion(redis: bool, ns: string, now: Time) returns (version: int)
      modifies this
      ensures table == old(table)
      ensures !redis ==> version == 1 && local == old(local)
      ensures redis && ns in old(local) && old(local)[ns].0 > now ==>
        version == old(local)[ns].1 && local == old(local)
      ensures redis && !(ns in old(local) && old(local)[ns].0 > now) ==>
        version == Effective(table, ns) && local == old(local)[ns := (now + 5.0, version)]
    {
      if !redis {
        return 1;
      }
      if ns in local && local[ns].0 > now {
        return local[ns].1;
      }
      version := Effective(table, ns);
      local := local[ns := (now + CacheModel.LOCAL_WINDOW, version)];
    }

    /** Raises the named namespaces once each, however often they are named, and drops the
        process's copies of exactly those. */
    method Bump(namespaces: seq<string>)
      modifies this
      ensures table == Upserted(old(table), namespaces)
      ensures local == old(local) - (set n | n in namespaces)
    {
      var names := Dedup(namespaces);
      if names == [] {
        assert table == Upserted(table, namespaces);
        return;
      }
      table := Upserted(table, names);
      assert table == Upserted(old(table), namespaces);
      for i := 0 to |names|
        invariant table == Upserted(old(table), namespaces)
        invariant local == old(local) - (set n | n in names[..i])
      {
        local := local - {names[i]};
        assert names[..i + 1] == names[..i] + [names[i]];
      }
      assert names[..|names|] == names;
    }
  }

  /** A bump raises what readers see by exactly one for exactly the named namespaces. */
  lemma BumpRaisesByOne(table: map<string, int>, names: seq<string>, ns: string)
    requires Positive(table)
    ensures Positive(Upserted(table, names))
    ensures Effective(Upserted(table, names), ns) == Effective(table, ns) + (if ns in names then 1 else 0)
  {
    var up := Upserted(table, names);
    assert ns in up <==> ns in table || ns in names;
  }

  /** Why the rows must be positive: of all the values a row could hold, 0 and -1, which no
      bump ever writes, are the ones that `value or 1` confuses with an absent row. */
  lemma RaisesByOneIff(table: map<string, int>, names: seq<string>, ns: string)
    requires ns in names
    ensures Effective(Upserted(table, names), ns) == Effective(table, ns) + 1 <==>
      !(ns in table && table[ns] in {0, -1})
  {
    assert ns in Upserted(table, names);
  }

  /** The number of bumps naming `ns`. */
  function Bumps(log: seq<seq<string>>, ns: string): nat {
    if log == [] then 0 else (if ns in log[0] then 1 else 0) + Bumps(log[1..], ns)
  }

  function AfterAll(table: map<string, int>, log: seq<seq<string>>): map<string, int>
    decreases |log|
  {
    if log == [] then table else AfterAll(Upserted(table, log[0]), log[1..])
  }

  /** Over any sequence of committed bumps, from rows that start at 1 or more, the rows stay
      positive and the version counts the bumps that name it. */
  lemma {:induction false} VersionCountsBumps(table: map<string, int>, log: seq<seq<string>>, ns: string)
    requires Positive(table)
    ensures Positive(AfterAll(table, log))
    ensures Effective(AfterAll(table, log), ns) == Effective(table, ns) + Bumps(log, ns)
    decreases |log|
  {
    if log == [] {
    } else {
      BumpRaisesByOne(table, log[0], ns);
      VersionCountsBumps(Upserted(table, log[0]), log[1..], ns);
    }
  }
}
