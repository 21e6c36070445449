/**
 * Configuration loading (src/config/config.rs): each node entry is a
 * string-to-string map that must name the node and its type; `build` creates
 * every node first and binds `next` links second, so a link may name a node
 * declared later.
 */
module ConfigLoader {
  import opened Wrappers
  import opened ConfigGraph

  datatype NodeConfig = NodeConfig(name: string, type_: string, traits: map<string, string>)

  datatype Config = Config(nodes: seq<NodeConfig>)

  /** Serde's `missing_field` error. */
  datatype DeError = MissingField(field: string)

  /** What `build` does: return the graph, or panic. */
  datatype BuildResult = Built(graph: Graph) | Panicked(reason: string)

  /** Keys of the node-type registry (src/config/types.rs). */
  const NODE_TYPES: set<string> := {"Input", "Output"}

  /** `Option::expect` on a missing type: the panic message is exactly this text. */
  const UNKNOWN_TYPE_PANIC := "TODO: ERROR HANDLING"
  /**
   * `Result::expect` on a failing constructor: the panic message starts with
   * this text, followed by `: ` and the constructor's error, which the model
   * does not carry (it only knows whether the constructor succeeds).
   */
  const CONSTRUCTOR_PANIC := "TODO: WE CAN'T ASSUME THE CONSTRUCTOR DOESN'T BLOW UP"

  /** `NodeConfig::deserialize`: `name` is required first, then `type`; the whole map is kept. */
  function ParseNodeConfig(traits: map<string, string>): (r: Result<NodeConfig, DeError>)
    ensures r.Ok? <==> "name" in traits && "type" in traits
    ensures "name" !in traits ==> r == Err(MissingField("name"))
    ensures "name" in traits && "type" !in traits ==> r == Err(MissingField("type"))
    ensures r.Ok? ==> r.value.name == traits["name"] && r.value.type_ == traits["type"] &&
                      r.value.traits == traits
  {
    if "name" !in traits then Err(MissingField("name"))
    else if "type" !in traits then Err(MissingField("type"))
    else Ok(NodeConfig(traits["name"], traits["type"], traits))
  }

  /** `Config::deserialize`: every entry must parse; the first failing entry's error is returned. */
  function ParseConfig(entries: seq<map<string, string>>): (r: Result<Config, DeError>)
    ensures r.Ok? <==> forall i :: 0 <= i < |entries| ==> ParseNodeConfig(entries[i]).Ok?
    ensures r.Ok? ==> |r.value.nodes| == |entries| &&
                      forall i :: 0 <= i < |entries| ==> Ok(r.value.nodes[i]) == ParseNodeConfig(entries[i])
    ensures r.Err? ==> exists i :: 0 <= i < |entries| && ParseNodeConfig(entries[i]) == Err(r.error) &&
                                   forall j :: 0 <= j < i ==> ParseNodeConfig(entries[j]).Ok?
  {
    if |entries| == 0 then Ok(Config([]))
    else
      match ParseNodeConfig(entries[0])
      case Err(e) => Err(e)
      case Ok(c) =>
        var rest := ParseConfig(entries[1..]);
        assert forall i :: 1 <= i < |entries| ==> entries[i] == entries[1..][i - 1];
        match rest
        case Err(e) => Err(e)
        case Ok(tail) => Ok(Config([c] + tail.nodes))
  }

  /**
   * The panic creating one entry's node hits, if any: its type is looked up
   * in the registry first, then the constructor runs (`opens` says whether
   * the node's MIDI port can be created).
   */
  function EntryPanic(c: NodeConfig, opens: string -> bool): Option<string>
  {
    if c.type_ !in NODE_TYPES then Some(UNKNOWN_TYPE_PANIC)
    else if !opens(c.name) then Some(CONSTRUCTOR_PANIC)
    else None
  }

  /** The panic `build`'s first pass hits, if any: that of the first entry that fails. */
  function FirstPanic(configs: seq<NodeConfig>, opens: string -> bool): (p: Option<string>)
    ensures p.None? <==> forall i :: 0 <= i < |configs| ==> configs[i].type_ in NODE_TYPES && opens(configs[i].name)
  {
    if |configs| == 0 then None
    else if EntryPanic(configs[0], opens).Some? then EntryPanic(configs[0], opens)
    else
      var p := FirstPanic(configs[1..], opens);
      assert forall i :: 1 <= i < |configs| ==> configs[i] == configs[1..][i - 1];
      p
  }

  /** Names declared by the entries. */
  function Names(configs: seq<NodeConfig>): (names: set<string>)
    ensures forall i :: 0 <= i < |configs| ==> configs[i].name in names
  {
    if |configs| == 0 then {} else Names(configs[..|configs| - 1]) + {configs[|configs| - 1].name}
  }

  lemma NamesSnoc(prefix: seq<NodeConfig>, c: NodeConfig)
    ensures Names(prefix + [c]) == Names(prefix) + {c.name}
  {
    assert (prefix + [c])[..|prefix|] == prefix;
  }

  /**
   * The links `build`'s second pass leaves in place, as name to target name:
   * entries are bound in order, a later `next` for the same name overrides an
   * earlier one, and a bind whose target is not among `names` is dropped.
   */
  function Links(configs: seq<NodeConfig>, names: set<string>): (links: map<string, string>)
    ensures forall n :: n in links ==> n in names && links[n] in names
  {
    if |configs| == 0 then map[]
    else
      var c := configs[|configs| - 1];
      var m := Links(configs[..|configs| - 1], names);
      if "next" in c.traits && c.name in names && c.traits["next"] in names then m[c.name := c.traits["next"]] else m
  }

  /**
   * `Links` in closed form: a name is linked iff some entry with that name
   * carries a `next` that is a known name, and it is linked to the `next` of
   * the last such entry.
   */
  lemma {:induction false} LinksLastWins(configs: seq<NodeConfig>, names: set<string>, n: string)
    ensures n in Links(configs, names) <==>
              exists i :: 0 <= i < |configs| && Binds(configs[i], n, names)
    ensures n in Links(configs, names) ==>
              exists i :: 0 <= i < |configs| && Binds(configs[i], n, names) &&
                          Links(configs, names)[n] == configs[i].traits["next"] &&
                          forall j :: i < j < |configs| ==> !Binds(configs[j], n, names)
  {
    if |configs| > 0 {
      var last := |configs| - 1;
      var prefix := configs[..last];
      LinksLastWins(prefix, names, n);
      assert forall i :: 0 <= i < |prefix| ==> prefix[i] == configs[i];
      if Binds(configs[last], n, names) {
        assert Links(configs, names)[n] == configs[last].traits["next"];
      } else {
        assert n in Links(configs, names) <==> n in Links(prefix, names);
        if n in Links(prefix, names) {
          assert Links(configs, names)[n] == Links(prefix, names)[n];
        }
      }
    }
  }

  /** Entry `c` asks to link name `n` to a known node. */
  predicate Binds(c: NodeConfig, n: string, names: set<string>)
  {
    c.name == n && n in names && "next" in c.traits && c.traits["next"] in names
  }

  /** Two passes: an entry may link to a node declared after it. */
  lemma ForwardLink(a: NodeConfig, b: NodeConfig)
    requires "next" in a.traits && a.traits["next"] == b.name && "next" !in b.traits
    ensures var configs := [a, b];
            Links(configs, Names(configs)) == map[a.name := b.name]
  {
    var configs := [a, b];
    var names := Names(configs);
    assert b.name in names && a.name in names by {
      assert configs[0] == a && configs[1] == b;
    }
    assert configs[..1] == [a] && [a][..0] == [];
    assert Links([a], names) == map[a.name := b.name];
  }

  /** Entry `j` is the last one declaring its name among the first `i`. */
  ghost predicate LastDeclared(configs: seq<NodeConfig>, i: nat, j: nat)
    requires i <= |configs|
  {
    j < i && forall k :: j < k < i ==> configs[k].name != configs[j].name
  }

  /**
   * The table after inserting the first `i` entries: exactly their names, each
   * key naming its own node, and each name holding the type of the last entry
   * that declared it.
   */
  ghost predicate TableOf(m: map<string, Node>, configs: seq<NodeConfig>, i: nat)
    requires i <= |configs|
  {
    m.Keys == Names(configs[..i]) &&
    (forall n :: n in m ==> m[n].name == n) &&
    forall j: nat :: LastDeclared(configs, i, j) ==> m[configs[j].name].kind == configs[j].type_
  }

  /** Inserting entry `i`'s node extends the table of the first `i` entries to the first `i + 1`. */
  lemma TableStep(m: map<string, Node>, configs: seq<NodeConfig>, i: nat, node: Node)
    requires i < |configs| && TableOf(m, configs, i)
    requires node.name == configs[i].name && node.kind == configs[i].type_
    ensures TableOf(m[configs[i].name := node], configs, i + 1)
  {
    var m' := m[configs[i].name := node];
    NamesPrefixStep(configs, i);
    forall j: nat | LastDeclared(configs, i + 1, j)
      ensures m'[configs[j].name].kind == configs[j].type_
    {
      if j < i {
        LastDeclaredStep(configs, i, j);
      }
    }
  }

  lemma NamesPrefixStep(configs: seq<NodeConfig>, i: nat)
    requires i < |configs|
    ensures Names(configs[..i + 1]) == Names(configs[..i]) + {configs[i].name}
  {
    assert configs[..i + 1] == configs[..i] + [configs[i]];
    NamesSnoc(configs[..i], configs[i]);
  }

  lemma LastDeclaredStep(configs: seq<NodeConfig>, i: nat, j: nat)
    requires i < |configs| && j < i && LastDeclared(configs, i + 1, j)
    ensures LastDeclared(configs, i, j) && configs[j].name != configs[i].name
  {
  }

  /**
   * `Config::build`: insert a fresh node for every entry (panicking on an
   * unregistered type or a failing constructor), then bind every entry that
   * carries `next`, ignoring bind errors, and return the graph.
   */
  method Build(config: Config, opens: string -> bool) returns (r: BuildResult)
    ensures r.Panicked? <==> FirstPanic(config.nodes, opens).Some?
    ensures r.Panicked? ==> r.reason == FirstPanic(config.nodes, opens).value
    ensures r.Built? ==> fresh(r.graph) && TableOf(r.graph.nodes, config.nodes, |config.nodes|)
    ensures r.Built? ==> r.graph.nodes.Keys == Names(config.nodes)
    ensures r.Built? ==> forall n :: n in r.graph.nodes ==> fresh(r.graph.nodes[n])
    ensures r.Built? ==>
              var links := Links(config.nodes, Names(config.nodes));
              forall n :: n in r.graph.nodes ==>
                r.graph.nodes[n].next == if n in links then r.graph.nodes[links[n]] else null
  {
    r := CreateNodes(config.nodes, opens);
    if r.Built? {
      BindLinks(config.nodes, r.graph);
    }
  }

  /** `build`'s first pass. */
  method CreateNodes(configs: seq<NodeConfig>, opens: string -> bool) returns (r: BuildResult)
    ensures r.Panicked? <==> FirstPanic(configs, opens).Some?
    ensures r.Panicked? ==> r.reason == FirstPanic(configs, opens).value
    ensures r.Built? ==> fresh(r.graph) && TableOf(r.graph.nodes, configs, |configs|)
    ensures r.Built? ==> r.graph.nodes.Keys == Names(configs)
    ensures r.Built? ==> forall n :: n in r.graph.nodes ==> fresh(r.graph.nodes[n]) && r.graph.nodes[n].next == null
  {
    var graph := new Graph();
    for i := 0 to |configs|
      invariant fresh(graph) && TableOf(graph.nodes, configs, i)
      invariant forall n :: n in graph.nodes ==> fresh(graph.nodes[n]) && graph.nodes[n].next == null
      invariant forall k :: 0 <= k < i ==> EntryPanic(configs[k], opens).None?
    {
      var panic := EntryPanic(configs[i], opens);
      if panic.Some? {
        FirstPanicAt(configs, i, opens);
        return Panicked(panic.value);
      }
      var node := AddNode(graph, configs, i);
    }
    assert configs[..|configs|] == configs;
    return Built(graph);
  }

  /** One step of the first pass: a fresh, unlinked node for entry `i`, inserted under its name. */
  method AddNode(graph: Graph, configs: seq<NodeConfig>, i: nat) returns (node: Node)
    requires i < |configs| && TableOf(graph.nodes, configs, i)
    modifies graph
    ensures TableOf(graph.nodes, configs, i + 1)
    ensures fresh(node) && node.next == null && graph.nodes == old(graph.nodes)[configs[i].name := node]
  {
    node := new Node(configs[i].name, configs[i].type_);
    TableStep(graph.nodes, configs, i, node);
    graph.Insert(configs[i].name, node);
  }

  /** `build`'s second pass: bind each entry carrying `next`, in order, discarding errors. */
  method BindLinks(configs: seq<NodeConfig>, graph: Graph)
    requires TableOf(graph.nodes, configs, |configs|) && graph.nodes.Keys == Names(configs)
    requires forall n :: n in graph.nodes ==> graph.nodes[n].next == null
    modifies graph.nodes.Values
    ensures graph.nodes == old(graph.nodes)
    ensures var links := Links(configs, Names(configs));
            forall n :: n in graph.nodes ==>
              graph.nodes[n].next == if n in links then graph.nodes[links[n]] else null
  {
    assert configs[..|configs|] == configs;
    ghost var names := graph.nodes.Keys;
    ghost var table := graph.nodes;
    for i := 0 to |configs|
      invariant graph.nodes == table
      invariant forall n :: n in table ==>
                  table[n].next == if n in Links(configs[..i], names) then table[Links(configs[..i], names)[n]] else null
    {
      assert configs[..i + 1][..i] == configs[..i];
      if "next" in configs[i].traits {
        assert configs[i] in configs;
        var _ := graph.Bind(configs[i].name, configs[i].traits["next"]);
      }
    }
    assert configs[..|configs|] == configs;
  }

  /** When every entry before `i` is accepted and entry `i` is not, entry `i`'s failure is the panic. */
  lemma {:induction false} FirstPanicAt(configs: seq<NodeConfig>, i: nat, opens: string -> bool)
    requires i < |configs|
    requires forall k :: 0 <= k < i ==> EntryPanic(configs[k], opens).None?
    requires EntryPanic(configs[i], opens).Some?
    ensures FirstPanic(configs, opens) == EntryPanic(configs[i], opens)
  {
    if i > 0 {
      FirstPanicAt(configs[1..], i - 1, opens);
    }
  }
}
