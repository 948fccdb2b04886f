/** The power-entity tables of the CPU-core/cluster provider and of the
    power-domain provider. Both providers read one shared statistics file
    in which each entity's section starts with a header line, so each table
    pairs an entity name with the header that locates its section. */
module EntityTables {
  import opened StateResidencyConfigs

  /** One power entity: the state configuration and state headers its
      states are generated from, its name, and its section header. */
  datatype PowerEntityConfig = PowerEntityConfig(
    stateConfig: StateResidencyConfig,
    stateHeaders: seq<(string, string)>,
    name: string,
    header: string)

  /** How a table derives an entity's header from its name. */
  datatype HeaderRule = NameAsHeader | NameWithColon

  function HeaderOf(rule: HeaderRule, name: string): string
  {
    match rule
    case NameAsHeader => name
    case NameWithColon => name + ":"
  }

  /** The entity of one name in a table. */
  function EntityOf(stateConfig: StateResidencyConfig, stateHeaders: seq<(string, string)>,
                    rule: HeaderRule, name: string): PowerEntityConfig
  {
    PowerEntityConfig(stateConfig, stateHeaders, name, HeaderOf(rule, name))
  }

  /** The table built by appending one entity per name, in order. */
  function EntityConfigs(stateConfig: StateResidencyConfig, stateHeaders: seq<(string, string)>,
                         names: seq<string>, rule: HeaderRule): (r: seq<PowerEntityConfig>)
    ensures |r| == |names|
    ensures forall i :: 0 <= i < |names| ==>
              r[i].name == names[i] && r[i].header == HeaderOf(rule, names[i]) &&
              r[i].stateConfig == stateConfig && r[i].stateHeaders == stateHeaders
    decreases |names|
  {
    if |names| == 0 then []
    else EntityConfigs(stateConfig, stateHeaders, names[..|names| - 1], rule)
         + [EntityOf(stateConfig, stateHeaders, rule, names[|names| - 1])]
  }

  /** The table-building loop: one entity appended per name. */
  method BuildEntityConfigs(stateConfig: StateResidencyConfig, stateHeaders: seq<(string, string)>,
                            names: seq<string>, rule: HeaderRule)
    returns (cfgs: seq<PowerEntityConfig>)
    ensures cfgs == EntityConfigs(stateConfig, stateHeaders, names, rule)
  {
    cfgs := [];
    var i := 0;
    while i < |names|
      invariant 0 <= i <= |names|
      invariant cfgs == EntityConfigs(stateConfig, stateHeaders, names[..i], rule)
    {
      assert names[..i + 1][..i] == names[..i];
      cfgs := cfgs + [EntityOf(stateConfig, stateHeaders, rule, names[i])];
      i := i + 1;
    }
    assert names[..i] == names;
  }

  predicate Distinct(s: seq<string>)
  {
    forall i, j :: 0 <= i < j < |s| ==> s[i] != s[j]
  }

  /** No two entities of a table share a name, and no two share a header. */
  predicate NamesAndHeadersUnique(cfgs: seq<PowerEntityConfig>)
  {
    forall i, j :: 0 <= i < j < |cfgs| ==> cfgs[i].name != cfgs[j].name && cfgs[i].header != cfgs[j].header
  }

  /** Different names give different headers under either rule. */
  lemma HeaderOfInjective(rule: HeaderRule, a: string, b: string)
    requires HeaderOf(rule, a) == HeaderOf(rule, b)
    ensures a == b
  {
    if rule == NameWithColon {
      assert |a| == |b|;
      assert a == (a + ":")[..|a|];
      assert b == (b + ":")[..|b|];
    }
  }

  /** Distinct names make a table whose names and headers are all distinct. */
  lemma EntityConfigsUnique(stateConfig: StateResidencyConfig, stateHeaders: seq<(string, string)>,
                            names: seq<string>, rule: HeaderRule)
    requires Distinct(names)
    ensures NamesAndHeadersUnique(EntityConfigs(stateConfig, stateHeaders, names, rule))
  {
    var cfgs := EntityConfigs(stateConfig, stateHeaders, names, rule);
    forall i, j | 0 <= i < j < |cfgs|
      ensures cfgs[i].name != cfgs[j].name && cfgs[i].header != cfgs[j].header
    {
      if cfgs[i].header == cfgs[j].header {
        HeaderOfInjective(rule, names[i], names[j]);
      }
    }
  }

  /** The CPU cores and clusters, in the order the provider lists them. */
  const CpuClusterNames: seq<string> := [
    "CORE00", "CORE01", "CORE02", "CORE03", "CORE10", "CORE11",
    "CORE20", "CORE21", "CLUSTER0", "CLUSTER1", "CLUSTER2"]

  /** Each core or cluster has one state, DOWN, under an empty state header. */
  const CpuClusterStateHeaders: seq<(string, string)> := [("DOWN", "")]

  /** The power domains, in the order the provider lists them. */
  const PowerDomainNames: seq<string> := [
    "pd-aur", "pd-tpu", "pd-bo", "pd-tnr", "pd-gdc", "pd-mcsc", "pd-itp",
    "pd-ipp", "pd-g3aa", "pd-dns", "pd-pdp", "pd-csis",
    "pd-mfc", "pd-g2d", "pd-disp", "pd-dpu", "pd-hsi0",
    "pd-g3d", "pd-embedded_g3d", "pd-eh"]

  /** Each power domain has one state, ON, under an empty state header. */
  const PowerDomainStateHeaders: seq<(string, string)> := [("ON", "")]

  function CpuClusterConfigs(): seq<PowerEntityConfig>
  {
    EntityConfigs(CpuClusterStateConfig, CpuClusterStateHeaders, CpuClusterNames, NameAsHeader)
  }

  function PowerDomainConfigs(): seq<PowerEntityConfig>
  {
    EntityConfigs(PowerDomainStateConfig, PowerDomainStateHeaders, PowerDomainNames, NameWithColon)
  }

  lemma CpuClusterNamesDistinct()
    ensures Distinct(CpuClusterNames)
  {
  }

  lemma PowerDomainNamesDistinct()
    ensures Distinct(PowerDomainNames)
  {
    var keys := seq(|PowerDomainNames|, i requires 0 <= i < |PowerDomainNames| => ShortKey(PowerDomainNames[i]));
    assert keys == [
      ('a', 'u', 6), ('t', 'p', 6), ('b', 'o', 5), ('t', 'n', 6), ('g', 'd', 6), ('m', 'c', 7), ('i', 't', 6),
      ('i', 'p', 6), ('g', '3', 7), ('d', 'n', 6), ('p', 'd', 6), ('c', 's', 7),
      ('m', 'f', 6), ('g', '2', 6), ('d', 'i', 7), ('d', 'p', 6), ('h', 's', 7),
      ('g', '3', 6), ('e', 'm', 15), ('e', 'h', 5)];
    forall i, j | 0 <= i < j < |PowerDomainNames|
      ensures PowerDomainNames[i] != PowerDomainNames[j]
    {
      assert keys[i] != keys[j];
    }
  }

  /** The fourth and fifth letters and the length, which already tell the
      power domains apart. */
  function ShortKey(name: string): (char, char, int)
  {
    if |name| < 5 then (' ', ' ', |name|) else (name[3], name[4], |name|)
  }

  /** The CPU table has 11 entities, each located by its own name, with no
      repeated name or header. */
  lemma CpuClusterTable()
    ensures |CpuClusterConfigs()| == 11
    ensures forall e :: e in CpuClusterConfigs() ==> e.header == e.name
    ensures NamesAndHeadersUnique(CpuClusterConfigs())
  {
    CpuClusterNamesDistinct();
    EntityConfigsUnique(CpuClusterStateConfig, CpuClusterStateHeaders, CpuClusterNames, NameAsHeader);
  }

  /** The power-domain table has 20 entities, each located by its name
      followed by a colon, with no repeated name or header. */
  lemma PowerDomainTable()
    ensures |PowerDomainConfigs()| == 20
    ensures forall e :: e in PowerDomainConfigs() ==> e.header == e.name + ":"
    ensures NamesAndHeadersUnique(PowerDomainConfigs())
  {
    PowerDomainNamesDistinct();
    EntityConfigsUnique(PowerDomainStateConfig, PowerDomainStateHeaders, PowerDomainNames, NameWithColon);
  }
}
