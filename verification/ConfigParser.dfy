/**
 Filling a configuration from a parsed JSON tree. A relation says which configuration a tree
 describes; parsing finds it, or fails exactly when there is none.
 */
module ConfigParser {
  import opened Common
  import opened Configs

  datatype Json =
    | Null | Bool(b: bool) | Number(n: int) | Text(s: string)
    | Array(items: seq<Json>) | Object(members: map<string, Json>)

  const SERVERS_KEY := "gearman_servers_list"
  const POOLS_KEY := "pools_list"
  const COUNT_KEY := "worker_count"
  const JOBS_KEY := "jobs_list"
  const URI_KEY := "job_processing_uri"

  /** The JSON library's conversion to a string; `None` is its exception. */
  type Conversion = Json -> Option<string>

  predicate IsUint(j: Json) {
    j.Number? && 0 <= j.n < UINT32_MODULUS
  }

  /** The top level has both lists, of the right kinds. */
  predicate ValidNode(tree: Json) {
    && tree.Object? && SERVERS_KEY in tree.members && POOLS_KEY in tree.members
    && tree.members[SERVERS_KEY].Array? && tree.members[POOLS_KEY].Object?
  }

  predicate ValidPool(node: Json) {
    && node.Object? && COUNT_KEY in node.members && JOBS_KEY in node.members && URI_KEY in node.members
    && IsUint(node.members[COUNT_KEY]) && node.members[JOBS_KEY].Array? && node.members[URI_KEY].Text?
  }

  /** Job names go through the library's conversion: one that is not a string is only logged. */
  ghost predicate DescribesPool(node: Json, p: PoolData, convert: Conversion) {
    && ValidPool(node)
    && p.workerCount == node.members[COUNT_KEY].n && p.uri == node.members[URI_KEY].s
    && Converted(node.members[JOBS_KEY].items, p.jobs, convert)
  }

  ghost predicate Converted(items: seq<Json>, names: set<string>, convert: Conversion) {
    && (forall j :: j in items ==> convert(j).Some? && convert(j).value in names)
    && (forall n :: n in names ==> exists j :: j in items && convert(j) == Some(n))
  }

  ghost predicate DescribesServers(items: seq<Json>, servers: set<string>) {
    && (forall j :: j in items ==> j.Text? && j.s in servers)
    && (forall n :: n in servers ==> Text(n) in items)
  }

  ghost predicate Describes(tree: Json, c: Config, convert: Conversion) {
    && ValidNode(tree)
    && DescribesServers(tree.members[SERVERS_KEY].items, c.servers)
    && var nodes := tree.members[POOLS_KEY].members;
       c.pools.Keys == nodes.Keys && forall p :: p in nodes ==> DescribesPool(nodes[p], c.pools[p], convert)
  }

  /** A tree describes at most one configuration. */
  lemma DescribesOne(tree: Json, c: Config, d: Config, convert: Conversion)
    requires Describes(tree, c, convert) && Describes(tree, d, convert)
    ensures c == d
  {
    assert c.servers == d.servers;
    forall p | p in c.pools
      ensures c.pools[p] == d.pools[p]
    {
      var node := tree.members[POOLS_KEY].members[p];
      assert DescribesPool(node, c.pools[p], convert) && DescribesPool(node, d.pools[p], convert);
      assert c.pools[p].jobs == d.pools[p].jobs;
    }
  }

  // ----- which trees those are, spelled out

  /** The member is there. */
  predicate Has(node: Json, key: string) {
    node.Object? && key in node.members
  }

  function Part(node: Json, key: string): Json
    requires Has(node, key)
  {
    node.members[key]
  }

  /** What a pool needs to be taken; anything else that it has is ignored. */
  ghost predicate PoolAccepted(node: Json, convert: Conversion) {
    && Has(node, "worker_count") && Has(node, "jobs_list") && Has(node, "job_processing_uri")
    && Part(node, "worker_count").Number? && 0 <= Part(node, "worker_count").n <= 0xFFFF_FFFF
    && Part(node, "job_processing_uri").Text?
    && Part(node, "jobs_list").Array? && forall j :: j in Part(node, "jobs_list").items ==> convert(j).Some?
  }

  /** What a tree needs. */
  ghost predicate Accepted(tree: Json, convert: Conversion) {
    && Has(tree, "gearman_servers_list") && Has(tree, "pools_list")
    && Part(tree, "gearman_servers_list").Array?
    && (forall j :: j in Part(tree, "gearman_servers_list").items ==> j.Text?)
    && Part(tree, "pools_list").Object?
    && forall p :: p in Part(tree, "pools_list").members ==> PoolAccepted(Part(tree, "pools_list").members[p], convert)
  }

  /** The configuration that an accepted tree stands for. */
  ghost function ReadPoolNode(node: Json, convert: Conversion): PoolData
    requires PoolAccepted(node, convert)
  {
    PoolData(Part(node, "worker_count").n, Part(node, "job_processing_uri").s,
             set j | j in Part(node, "jobs_list").items :: convert(j).value)
  }

  ghost function ReadTree(tree: Json, convert: Conversion): Config
    requires Accepted(tree, convert)
  {
    var nodes := Part(tree, "pools_list").members;
    Config(set j | j in Part(tree, "gearman_servers_list").items :: j.s,
           map p | p in nodes :: ReadPoolNode(nodes[p], convert))
  }

  lemma PoolReadable(node: Json, convert: Conversion)
    requires PoolAccepted(node, convert)
    ensures DescribesPool(node, ReadPoolNode(node, convert), convert)
  {
  }

  lemma PoolDescribed(node: Json, p: PoolData, convert: Conversion)
    requires DescribesPool(node, p, convert)
    ensures PoolAccepted(node, convert)
  {
  }

  /** A tree describes a configuration exactly when it is accepted, and then the one it spells. */
  lemma DescribesExactly(tree: Json, c: Config, convert: Conversion)
    ensures Describes(tree, c, convert) <==> Accepted(tree, convert) && c == ReadTree(tree, convert)
  {
    if Describes(tree, c, convert) {
      var nodes := tree.members[POOLS_KEY].members;
      forall p | p in nodes
        ensures PoolAccepted(nodes[p], convert)
      {
        PoolDescribed(nodes[p], c.pools[p], convert);
      }
    }
    if Accepted(tree, convert) {
      var nodes := Part(tree, "pools_list").members;
      forall p | p in nodes
        ensures DescribesPool(nodes[p], ReadTree(tree, convert).pools[p], convert)
      {
        PoolReadable(nodes[p], convert);
      }
      assert Describes(tree, ReadTree(tree, convert), convert);
      if Describes(tree, c, convert) {
        DescribesOne(tree, c, ReadTree(tree, convert), convert);
      }
    }
  }

  // ----- writing a configuration down

  ghost function Texts(names: set<string>): seq<Json>
    decreases |names|
  {
    if names == {} then []
    else
      var n :| n in names;
      [Text(n)] + Texts(names - {n})
  }

  lemma {:induction false} TextsOf(names: set<string>)
    ensures forall j :: j in Texts(names) <==> j.Text? && j.s in names
    decreases |names|
  {
    if names != {} {
      var n :| n in names && Texts(names) == [Text(n)] + Texts(names - {n});
      TextsOf(names - {n});
    }
  }

  ghost function PoolNode(p: PoolData): Json {
    Object(map["worker_count" := Number(p.workerCount), "jobs_list" := Array(Texts(p.jobs)),
               "job_processing_uri" := Text(p.uri)])
  }

  ghost function TreeOf(c: Config): Json {
    Object(map["gearman_servers_list" := Array(Texts(c.servers)),
               "pools_list" := Object(map p | p in c.pools :: PoolNode(c.pools[p]))])
  }

  /** The conversion leaves strings as they are. */
  ghost predicate KeepsTexts(convert: Conversion) {
    forall s: string :: convert(Text(s)) == Some(s)
  }

  lemma PoolRoundTrip(p: PoolData, convert: Conversion)
    requires KeepsTexts(convert)
    ensures PoolAccepted(PoolNode(p), convert) && ReadPoolNode(PoolNode(p), convert) == p
  {
    TextsOf(p.jobs);
    forall n | n in p.jobs
      ensures n in ReadPoolNode(PoolNode(p), convert).jobs
    {
      assert Text(n) in Texts(p.jobs) && convert(Text(n)).value == n;
    }
    assert ReadPoolNode(PoolNode(p), convert).jobs == p.jobs;
  }

  lemma TreeAccepted(c: Config, convert: Conversion)
    requires KeepsTexts(convert)
    ensures Accepted(TreeOf(c), convert)
    ensures ReadTree(TreeOf(c), convert).pools == c.pools
  {
    TextsOf(c.servers);
    forall p | p in c.pools
      ensures PoolAccepted(PoolNode(c.pools[p]), convert) && ReadPoolNode(PoolNode(c.pools[p]), convert) == c.pools[p]
    {
      PoolRoundTrip(c.pools[p], convert);
    }
  }

  lemma ServersRoundTrip(servers: set<string>)
    ensures (set j | j in Texts(servers) && j.Text? :: j.s) == servers
  {
    TextsOf(servers);
    forall n | n in servers
      ensures n in set j | j in Texts(servers) && j.Text? :: j.s
    {
      assert Text(n) in Texts(servers);
    }
  }

  /** Every configuration whatever can be written down, and is then the one that is read back. */
  lemma ConfigRoundTrip(c: Config, d: Config, convert: Conversion)
    requires KeepsTexts(convert)
    ensures Accepted(TreeOf(c), convert)
    ensures Describes(TreeOf(c), d, convert) <==> d == c
  {
    TreeAccepted(c, convert);
    ServersRoundTrip(c.servers);
    assert ReadTree(TreeOf(c), convert).servers == c.servers;
    DescribesExactly(TreeOf(c), d, convert);
  }

  method ParseServerList(target: DriveshaftConfig, items: seq<Json>) returns (ok: bool)
    requires target.servers == {}
    modifies target`servers
    ensures ok <==> forall j :: j in items ==> j.Text?
    ensures ok ==> DescribesServers(items, target.servers)
  {
    for i := 0 to |items|
      invariant DescribesServers(items[..i], target.servers)
    {
      if !items[i].Text? {
        assert items[i] in items;
        return false;
      }
      assert items[..i + 1] == items[..i] + [items[i]];
      target.servers := target.servers + {items[i].s};
    }
    assert items[..|items|] == items;
    return true;
  }

  method ParseJobList(items: seq<Json>, convert: Conversion) returns (ok: bool, jobs: set<string>)
    ensures ok <==> forall j :: j in items ==> convert(j).Some?
    ensures ok ==> Converted(items, jobs, convert)
  {
    jobs := {};
    for i := 0 to |items|
      invariant Converted(items[..i], jobs, convert)
    {
      var name := convert(items[i]);
      if name == None {
        assert items[i] in items;
        return false, jobs;
      }
      assert items[..i + 1] == items[..i] + [items[i]];
      ConvertedGrows(items[..i], jobs, convert, items[i]);
      jobs := jobs + {name.value};
    }
    assert items[..|items|] == items;
    return true, jobs;
  }

  lemma ConvertedGrows(items: seq<Json>, names: set<string>, convert: Conversion, j: Json)
    requires Converted(items, names, convert) && convert(j).Some?
    ensures Converted(items + [j], names + {convert(j).value}, convert)
  {
    forall n | n in names + {convert(j).value}
      ensures exists k :: k in items + [j] && convert(k) == Some(n)
    {
      if n in names {
        var k :| k in items && convert(k) == Some(n);
        assert k in items + [j];
      } else {
        assert j in items + [j];
      }
    }
  }

  method ParsePoolList(target: DriveshaftConfig, nodes: map<string, Json>, convert: Conversion) returns (ok: bool)
    requires target.pools == map[]
    modifies target`pools
    ensures ok <==> forall p :: p in nodes ==> PoolAccepted(nodes[p], convert)
    ensures ok ==> target.pools.Keys == nodes.Keys &&
                   forall p :: p in nodes ==> DescribesPool(nodes[p], target.pools[p], convert)
  {
    var todo := nodes.Keys;
    while todo != {}
      invariant todo <= nodes.Keys && target.pools.Keys == nodes.Keys - todo
      invariant forall p :: p in target.pools ==>
                  PoolAccepted(nodes[p], convert) && DescribesPool(nodes[p], target.pools[p], convert)
      decreases todo
    {
      var p :| p in todo;
      var node := nodes[p];
      if !ValidPool(node) {
        return false;
      }
      var fine, jobs := ParseJobList(node.members[JOBS_KEY].items, convert);
      if !fine {
        return false;
      }
      target.pools := target.pools[p := PoolData(node.members[COUNT_KEY].n, node.members[URI_KEY].s, jobs)];
      todo := todo - {p};
    }
    return true;
  }

  lemma NoneDescribed(tree: Json, convert: Conversion)
    requires !Accepted(tree, convert)
    ensures !exists c :: Describes(tree, c, convert)
  {
    forall c
      ensures !Describes(tree, c, convert)
    {
      DescribesExactly(tree, c, convert);
    }
  }

  /** `!ok` is an exception: the tree describes no configuration. */
  method ParseConfig(target: DriveshaftConfig, tree: Json, convert: Conversion) returns (ok: bool)
    modifies target
    ensures ok <==> Accepted(tree, convert)
    ensures ok ==> Describes(tree, target.View(), convert) && target.View() == ReadTree(tree, convert)
    ensures !ok ==> !exists c :: Describes(tree, c, convert)
    ensures !ValidNode(tree) ==> target.View() == old(target.View())
  {
    if !ValidNode(tree) {
      NoneDescribed(tree, convert);
      return false;
    }
    target.servers, target.pools := {}, map[];
    ok := ParseServerList(target, tree.members[SERVERS_KEY].items);
    if !ok {
      NoneDescribed(tree, convert);
      return;
    }
    ok := ParsePoolList(target, tree.members[POOLS_KEY].members, convert);
    if !ok {
      NoneDescribed(tree, convert);
    } else {
      DescribesExactly(tree, target.View(), convert);
    }
  }
}
