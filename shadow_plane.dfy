/**
  * The ground plane that receives cloud shadows and the area light above it
  * (`create_cloud_shadow_plane` and `create_cloud_light`, __init__.py lines
  * 206-317). Both are fixed constructions; only the settings vary them.
  */
module ShadowPlane {

  import opened Settings
  import opened NodeNaming

  /** An edge of the shader graph: output socket of one node to input socket of another. */
  datatype NodeLink = NodeLink(fromNode: string, fromSocket: string, toNode: string, toSocket: string)

  /** The plane's material: its name, blend mode, nodes and links. */
  datatype ShadowMaterial = ShadowMaterial(name: string, blendMethod: string, nodes: seq<Node>, links: seq<NodeLink>)

  /**
    * The generated plane: object name, height, edge length baked into its
    * mesh, camera visibility, and the name of the one material it carries
    * (always the fresh `ShadowMaterialTemplate`).
    */
  datatype Plane = Plane(name: string, height: real, size: real, visibleCamera: bool, material: string)

  /**
    * The area light: object and light-data names, height above the origin,
    * energy in watts, shape, edge length, beam spread in degrees and the
    * object it is parented to.
    */
  datatype AreaLight = AreaLight(
    name: string, dataName: string, height: real, energy: int,
    shape: string, size: real, spreadDegrees: int, parent: string)

  // The builder's node names, each the prefix and a role.
  const OutputName := Prefix + "_Output"
  const BsdfName := Prefix + "_BSDF"
  const RampName := Prefix + "_ColorRamp"
  const NoiseName := Prefix + "_Noise"
  const MappingName := Prefix + "_Mapping"
  const TexCoordName := Prefix + "_TexCoord"

  /** The six nodes the builder creates, in creation order, with their node types. */
  const ShadowNodes: seq<Node> := [
    Node(OutputName, "", "OUTPUT_MATERIAL"),
    Node(BsdfName, "", "BSDF_PRINCIPLED"),
    Node(RampName, "", "VALTORGB"),
    Node(NoiseName, "", "TEX_NOISE"),
    Node(MappingName, "", "MAPPING"),
    Node(TexCoordName, "", "TEX_COORD")
  ]

  /** The five links, in creation order. */
  const ShadowLinks: seq<NodeLink> := [
    NodeLink(TexCoordName, "Generated", MappingName, "Vector"),
    NodeLink(MappingName, "Vector", NoiseName, "Vector"),
    NodeLink(NoiseName, "Fac", RampName, "Fac"),
    NodeLink(RampName, "Color", BsdfName, "Alpha"),
    NodeLink(BsdfName, "BSDF", OutputName, "Surface")
  ]

  /** The shadow material, built fresh on every call. */
  const ShadowMaterialTemplate := ShadowMaterial("CloudCreator_ShadowMaterial", "BLEND", ShadowNodes, ShadowLinks)

  /** `create_cloud_shadow_plane`: a plane at cloud height, `shadow_spread` wide, hidden from the camera. */
  function CreateShadowPlane(props: Props): Plane
  {
    Plane("CloudCreator_Shadow", props.cloudHeight, props.shadowSpread, false, "CloudCreator_ShadowMaterial")
  }

  /** `create_cloud_light`: a square area light half a metre above the plane, parented to it. */
  function CreateCloudLight(props: Props, plane: Plane): AreaLight
  {
    AreaLight("CloudCreator_Light", "CloudCreator_AreaLight", props.cloudHeight + 0.5, 10000,
              "SQUARE", props.shadowSpread, 20, plane.name)
  }

  /** Whether `name` is the name of one of `nodes`. */
  predicate NamesNode(nodes: seq<Node>, name: string)
  {
    exists j :: 0 <= j < |nodes| && nodes[j].name == name
  }

  // ----- Properties of the construction -----

  /**
    * The shadow graph is a single chain from the texture-coordinate node to
    * the material output: each link starts where the previous one ended, and
    * every link joins two nodes of the material.
    */
  lemma ShadowGraphIsChain()
    ensures |ShadowLinks| == 5
    ensures ShadowLinks[0].fromNode == TexCoordName
    ensures ShadowLinks[|ShadowLinks| - 1].toNode == OutputName
    ensures forall i :: 0 < i < |ShadowLinks| ==> ShadowLinks[i].fromNode == ShadowLinks[i - 1].toNode
    ensures forall i :: 0 <= i < |ShadowLinks| ==>
      NamesNode(ShadowNodes, ShadowLinks[i].fromNode) && NamesNode(ShadowNodes, ShadowLinks[i].toNode)
  {
    forall i | 0 <= i < |ShadowLinks|
      ensures NamesNode(ShadowNodes, ShadowLinks[i].fromNode) && NamesNode(ShadowNodes, ShadowLinks[i].toNode)
    {
      if i == 0 { assert ShadowNodes[5].name == ShadowLinks[i].fromNode; assert ShadowNodes[4].name == ShadowLinks[i].toNode; }
      else if i == 1 { assert ShadowNodes[4].name == ShadowLinks[i].fromNode; assert ShadowNodes[3].name == ShadowLinks[i].toNode; }
      else if i == 2 { assert ShadowNodes[3].name == ShadowLinks[i].fromNode; assert ShadowNodes[2].name == ShadowLinks[i].toNode; }
      else if i == 3 { assert ShadowNodes[2].name == ShadowLinks[i].fromNode; assert ShadowNodes[1].name == ShadowLinks[i].toNode; }
      else { assert ShadowNodes[1].name == ShadowLinks[i].fromNode; assert ShadowNodes[0].name == ShadowLinks[i].toNode; }
    }
  }

  /** A name made of the prefix and a role starts with the prefix. */
  lemma TaggedStartsWithPrefix(role: string)
    ensures StartsWith(Prefix + role, Prefix)
  {
    assert (Prefix + role)[..|Prefix|] == Prefix;
  }

  /**
    * The builder names its nodes with the prefix already, so renaming its
    * material would change nothing. The add-on never renames this material;
    * the lemma checks that the constant graph agrees with the naming rule.
    */
  lemma ShadowNodesAlreadyPrefixed()
    ensures RenameAll(ShadowNodes, Prefix) == ShadowNodes
  {
    TaggedStartsWithPrefix("_Output");
    TaggedStartsWithPrefix("_BSDF");
    TaggedStartsWithPrefix("_ColorRamp");
    TaggedStartsWithPrefix("_Noise");
    TaggedStartsWithPrefix("_Mapping");
    TaggedStartsWithPrefix("_TexCoord");
  }

  /** The plane carries the shadow material by name. */
  lemma PlaneCarriesShadowMaterial(props: Props)
    ensures CreateShadowPlane(props).material == ShadowMaterialTemplate.name
    ensures !CreateShadowPlane(props).visibleCamera
  {
  }

  /** The light hangs above the plane it is parented to, and is exactly as wide. */
  lemma LightAbovePlane(props: Props)
    ensures var plane := CreateShadowPlane(props);
      var light := CreateCloudLight(props, plane);
      light.parent == plane.name && light.height > plane.height && light.size == plane.size
  {
  }

}
