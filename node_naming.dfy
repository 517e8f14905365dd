/**
  * Tagging a material's shader nodes with the add-on's prefix
  * (`rename_material_nodes`, __init__.py lines 114-122).
  */
module NodeNaming {

  import opened Wrappers

  /** The tag every node of a cloud material ends up carrying. */
  const Prefix := "CloudCreator"

  /** Python's `s.startswith(p)`. */
  predicate StartsWith(s: string, p: string)
  {
    p <= s
  }

  /**
    * A shader node as far as naming is concerned: its unique name, its
    * user-visible label and its node type (`'MAPPING'`, `'TEX_NOISE'`, ...).
    */
  datatype Node = Node(name: string, labelText: string, kind: string)

  /** What one iteration of the renaming loop does to one node. */
  function Renamed(n: Node, prefix: string): Node
  {
    if StartsWith(n.name, prefix) then n
    else
      var name := prefix + "_" + n.name;
      n.(name := name, labelText := name)
  }

  /** The renaming applied to every node of a node list, in order. */
  function RenameAll(nodes: seq<Node>, prefix: string): (r: seq<Node>)
    ensures |r| == |nodes|
    ensures forall k :: 0 <= k < |nodes| ==> r[k] == Renamed(nodes[k], prefix)
  {
    if nodes == [] then [] else [Renamed(nodes[0], prefix)] + RenameAll(nodes[1..], prefix)
  }

  /** A material as a value: its `use_nodes` flag and its node tree's nodes. */
  datatype MaterialData = MaterialData(useNodes: bool, nodes: seq<Node>)

  /** A material after renaming: untouched unless it uses nodes. */
  function RenamedMaterial(m: MaterialData, prefix: string): MaterialData
  {
    if m.useNodes then m.(nodes := RenameAll(m.nodes, prefix)) else m
  }

  /** A material slot after renaming: an empty slot (`None`) stays empty. */
  function RenamedSlot(slot: Option<MaterialData>, prefix: string): Option<MaterialData>
  {
    match slot
    case None => None
    case Some(m) => Some(RenamedMaterial(m, prefix))
  }

  /** A host material whose node tree's nodes are updated in place. */
  class Material {
    var useNodes: bool
    const nodes: array<Node>

    constructor (useNodes: bool, nodes: seq<Node>)
      ensures this.useNodes == useNodes && this.nodes[..] == nodes
      ensures fresh(this.nodes)
    {
      this.useNodes := useNodes;
      this.nodes := new Node[|nodes|](i requires 0 <= i < |nodes| => nodes[i]);
    }

    /** This material as a value. */
    function Value(): MaterialData
      reads this, nodes
    {
      MaterialData(useNodes, nodes[..])
    }
  }

  /**
    * `rename_material_nodes`: walks the node list once and renames, in place,
    * every node whose name does not start with `prefix`. A missing material
    * or one without nodes is left alone.
    */
  method RenameMaterialNodes(material: Material?, prefix: string)
    modifies if material == null then {} else {material.nodes}
    ensures material != null ==>
      material.Value() == RenamedMaterial(old(material.Value()), prefix)
  {
    if material == null || !material.useNodes {
      return;
    }
    var nodes := material.nodes;
    for i := 0 to nodes.Length
      invariant forall k :: 0 <= k < i ==> nodes[k] == Renamed(old(nodes[k]), prefix)
      invariant forall k :: i <= k < nodes.Length ==> nodes[k] == old(nodes[k])
    {
      var node := nodes[i];
      if !StartsWith(node.name, prefix) {
        var name := prefix + "_" + node.name;
        nodes[i] := node.(name := name, labelText := name);
      }
    }
    assert nodes[..] == RenameAll(old(nodes[..]), prefix);
  }

  // ----- Properties of the renaming -----

  /** A renamed node's name carries the prefix (a prefix of it followed by `_` when it was added). */
  lemma RenamedStartsWithPrefix(n: Node, prefix: string)
    ensures StartsWith(Renamed(n, prefix).name, prefix)
  {
    if !StartsWith(n.name, prefix) {
      assert (prefix + "_" + n.name)[..|prefix|] == prefix;
    }
  }

  /** After renaming, every node name starts with the prefix. */
  lemma RenameAllPrefixesEveryName(nodes: seq<Node>, prefix: string)
    ensures forall k :: 0 <= k < |nodes| ==> StartsWith(RenameAll(nodes, prefix)[k].name, prefix)
  {
    forall k | 0 <= k < |nodes|
      ensures StartsWith(RenameAll(nodes, prefix)[k].name, prefix)
    {
      RenamedStartsWithPrefix(nodes[k], prefix);
    }
  }

  /** Renaming twice is renaming once: no node is ever prefixed twice. */
  lemma RenameAllIdempotent(nodes: seq<Node>, prefix: string)
    ensures RenameAll(RenameAll(nodes, prefix), prefix) == RenameAll(nodes, prefix)
  {
    var once := RenameAll(nodes, prefix);
    forall k | 0 <= k < |nodes|
      ensures RenameAll(once, prefix)[k] == once[k]
    {
      RenamedStartsWithPrefix(nodes[k], prefix);
    }
  }

  /**
    * Renaming touches nothing but names and labels: the count, the order and
    * the node types are kept, a node already carrying the prefix is kept
    * whole, and any other node gets `prefix + "_" + name` as its name and as
    * its label.
    */
  lemma RenameAllChangesOnlyNamesAndLabels(nodes: seq<Node>, prefix: string, k: nat)
    requires k < |nodes|
    ensures |RenameAll(nodes, prefix)| == |nodes|
    ensures RenameAll(nodes, prefix)[k].kind == nodes[k].kind
    ensures StartsWith(nodes[k].name, prefix) ==> RenameAll(nodes, prefix)[k] == nodes[k]
    ensures !StartsWith(nodes[k].name, prefix) ==>
      RenameAll(nodes, prefix)[k].name == prefix + "_" + nodes[k].name &&
      RenameAll(nodes, prefix)[k].labelText == RenameAll(nodes, prefix)[k].name
  {
  }

  /**
    * The test is `startswith(prefix)`, not `startswith(prefix + "_")`: a name
    * such as "CloudCreatorX" is left as it is.
    */
  lemma PrefixWithoutUnderscoreIsKept(labelText: string, kind: string)
    ensures Renamed(Node("CloudCreatorX", labelText, kind), Prefix) == Node("CloudCreatorX", labelText, kind)
    ensures Renamed(Node("Noise", labelText, kind), Prefix) ==
      Node("CloudCreator_Noise", "CloudCreator_Noise", kind)
  {
    assert StartsWith("CloudCreatorX", Prefix);
    assert !StartsWith("Noise", Prefix);
  }

  /** Renaming a material twice is renaming it once, and leaves `use_nodes` alone. */
  lemma RenamedMaterialIdempotent(m: MaterialData, prefix: string)
    ensures RenamedMaterial(RenamedMaterial(m, prefix), prefix) == RenamedMaterial(m, prefix)
    ensures RenamedMaterial(m, prefix).useNodes == m.useNodes
    ensures !m.useNodes ==> RenamedMaterial(m, prefix) == m
  {
    if m.useNodes {
      RenameAllIdempotent(m.nodes, prefix);
    }
  }

}
