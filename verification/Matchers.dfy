/** The matchers by which an operator takes replication slots out of the keeper's hands. */
module Matchers {
  import opened Options

  datatype Kind = Physical | Logical

  /** An empty field matches anything. */
  datatype Matcher = Matcher(kind: Option<Kind>, name: string, database: string, plugin: string)

  /** A matcher that names a database or a plugin is about logical slots only. */
  predicate MatchesPhysical(m: Matcher, slot: string) {
    m.kind != Some(Logical) && m.name in {"", slot} && m.database == "" && m.plugin == ""
  }

  predicate MatchesLogical(m: Matcher, name: string, database: string, plugin: string) {
    m.kind != Some(Physical) && m.name in {"", name} && m.database in {"", database} && m.plugin in {"", plugin}
  }

  ghost predicate PhysicalIgnored(matchers: seq<Matcher>, slot: string) {
    exists m :: m in matchers && MatchesPhysical(m, slot)
  }

  ghost predicate LogicalIgnored(matchers: seq<Matcher>, name: string, database: string, plugin: string) {
    exists m :: m in matchers && MatchesLogical(m, name, database, plugin)
  }

  /**
   * A matcher without any field takes every slot, one for the other kind none;
   * a name takes just that slot, and more matchers never take less.
   */
  lemma MatcherLaws(matchers: seq<Matcher>, m: Matcher, slot: string, database: string, plugin: string)
    ensures m == Matcher(None, "", "", "") ==> MatchesPhysical(m, slot) && MatchesLogical(m, slot, database, plugin)
    ensures m.kind == Some(Logical) || m.database != "" || m.plugin != "" ==> !MatchesPhysical(m, slot)
    ensures m.kind == Some(Physical) ==> !MatchesLogical(m, slot, database, plugin)
    ensures m.name != "" && m.name != slot ==> !MatchesPhysical(m, slot) && !MatchesLogical(m, slot, database, plugin)
    ensures m.database != "" && m.database != database ==> !MatchesLogical(m, slot, database, plugin)
    ensures m.plugin != "" && m.plugin != plugin ==> !MatchesLogical(m, slot, database, plugin)
    ensures PhysicalIgnored(matchers + [m], slot) <==> PhysicalIgnored(matchers, slot) || MatchesPhysical(m, slot)
    ensures LogicalIgnored(matchers + [m], slot, database, plugin) <==> LogicalIgnored(matchers, slot, database, plugin) || MatchesLogical(m, slot, database, plugin)
  {
    assert m in matchers + [m];
    assert forall x :: x in matchers + [m] <==> x in matchers || x == m;
  }

  method IsIgnoredPhysicalSlot(matchers: seq<Matcher>, slot: string) returns (r: bool)
    ensures r <==> PhysicalIgnored(matchers, slot)
  {
    for i := 0 to |matchers|
      invariant forall j :: 0 <= j < i ==> !MatchesPhysical(matchers[j], slot)
    {
      var m := matchers[i];
      if m.kind.Some? && m.kind.value != Physical {
        continue;
      }
      if m.name != "" && m.name != slot {
        continue;
      }
      if m.database != "" || m.plugin != "" {
        continue;
      }
      assert m in matchers;
      return true;
    }
    return false;
  }

  method IsIgnoredLogicalSlot(matchers: seq<Matcher>, name: string, database: string, plugin: string) returns (r: bool)
    ensures r <==> LogicalIgnored(matchers, name, database, plugin)
  {
    for i := 0 to |matchers|
      invariant forall j :: 0 <= j < i ==> !MatchesLogical(matchers[j], name, database, plugin)
    {
      var m := matchers[i];
      if m.kind.Some? && m.kind.value != Logical {
        continue;
      }
      if m.name != "" && m.name != name {
        continue;
      }
      if m.database != "" && m.database != database {
        continue;
      }
      if m.plugin != "" && m.plugin != plugin {
        continue;
      }
      assert m in matchers;
      return true;
    }
    return false;
  }
}
