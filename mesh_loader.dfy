/**
  * Loading a cloud mesh from the bundled asset library
  * (`load_cloud_mesh`, __init__.py lines 149-203).
  */
module MeshLoader {

  import opened Wrappers
  import opened Settings
  import opened NodeNaming

  /** The footprint, in metres, the layer asset was authored at. */
  const BaseSize: real := 10.0

  /** The name every loaded cloud's display name starts with. */
  const DisplayPrefix := "CloudCreator_"

  /** The object name a loaded asset is given in the scene. */
  function DisplayName(meshName: string): (r: string)
    ensures StartsWith(r, DisplayPrefix)
    ensures meshName == "cloud_layer" ==> r == "CloudCreator_Layer"
    ensures meshName == "cloud_single" ==> r == "CloudCreator_Single"
    ensures meshName == "cloud_sphere" ==> r == "CloudCreator_Sphere"
    ensures meshName !in {"cloud_layer", "cloud_single", "cloud_sphere"} ==> r == DisplayPrefix + meshName
  {
    if meshName == "cloud_layer" then "CloudCreator_Layer"
    else if meshName == "cloud_single" then "CloudCreator_Single"
    else if meshName == "cloud_sphere" then "CloudCreator_Sphere"
    else DisplayPrefix + meshName
  }

  /** An object stored in the asset file: the materials of its mesh data, empty slots included. */
  datatype AssetObject = AssetObject(materials: seq<Option<MaterialData>>)

  /**
    * The objects the asset file lists, by name. A name mapped to `None` is
    * listed, but the host's load hands back nothing for it.
    */
  datatype AssetLibrary = AssetLibrary(objects: map<string, Option<AssetObject>>)

  /**
    * A cloud linked into the scene: its object name, its height, the
    * horizontal scale factor baked into its mesh (`None` when it was not
    * rescaled), whether it casts shadows, and its materials.
    */
  datatype CloudObject = CloudObject(
    name: string,
    height: real,
    bakedScale: Option<real>,
    castsShadow: bool,
    materials: seq<Option<MaterialData>>)

  /** Why a load failed. */
  datatype LoadError =
    | AssetsFileNotFound(path: string)
    | ObjectNotFound(meshName: string)
    | FailedToLoad

  /** The message the loader returns for each failure. */
  function ErrorMessage(e: LoadError): (m: string)
    ensures |m| > 0
    ensures e.AssetsFileNotFound? ==> |e.path| <= |m| && m[|m| - |e.path|..] == e.path
    ensures e.ObjectNotFound? ==> 8 + |e.meshName| <= |m| && m[8..8 + |e.meshName|] == e.meshName
  {
    match e
    case AssetsFileNotFound(path) => "Assets file not found: " + path
    case ObjectNotFound(meshName) => "Object '" + meshName + "' not found in assets.blend"
    case FailedToLoad => "Failed to load object"
  }

  /** The loader's `(obj, error)` pair. */
  datatype LoadResult = LoadResult(obj: Option<CloudObject>, error: Option<LoadError>)

  /** The cloud made from a delivered asset: named, placed, scaled, shadowless, materials renamed. */
  function Instantiate(asset: AssetObject, meshName: string, props: Props): CloudObject
  {
    CloudObject(
      name := DisplayName(meshName),
      height := props.cloudHeight,
      bakedScale := if props.multiple && meshName == "cloud_layer" then Some(props.cloudSpread / BaseSize) else None,
      castsShadow := false,
      materials := seq(|asset.materials|, i requires 0 <= i < |asset.materials| => RenamedSlot(asset.materials[i], Prefix)))
  }

  /**
    * `load_cloud_mesh`. `library` is `None` when the asset file does not
    * exist at `assetsPath`. Exactly one of the object and the error is
    * present.
    */
  function LoadCloudMesh(props: Props, library: Option<AssetLibrary>, assetsPath: string, meshName: string): (r: LoadResult)
    ensures r.obj.Some? <==> r.error.None?
  {
    match library
    case None => LoadResult(None, Some(AssetsFileNotFound(assetsPath)))
    case Some(lib) =>
      if meshName !in lib.objects then
        LoadResult(None, Some(ObjectNotFound(meshName)))
      else
        match lib.objects[meshName]
        case None => LoadResult(None, Some(FailedToLoad))
        case Some(asset) => LoadResult(Some(Instantiate(asset, meshName, props)), None)
  }

  /** Whether the library can deliver an object by that name. */
  predicate Deliverable(library: Option<AssetLibrary>, meshName: string)
  {
    library.Some? && meshName in library.value.objects && library.value.objects[meshName].Some?
  }

  // ----- Properties of the loader -----

  /**
    * Loading fails exactly when the file is missing, the name is not in it,
    * or the host delivers nothing; each cause has its own message.
    */
  lemma LoadFailsExactlyWhenUndeliverable(props: Props, library: Option<AssetLibrary>, assetsPath: string, meshName: string)
    ensures LoadCloudMesh(props, library, assetsPath, meshName).obj.None? <==> !Deliverable(library, meshName)
    ensures library.None? ==>
      LoadCloudMesh(props, library, assetsPath, meshName).error == Some(AssetsFileNotFound(assetsPath))
    ensures library.Some? && meshName !in library.value.objects ==>
      LoadCloudMesh(props, library, assetsPath, meshName).error == Some(ObjectNotFound(meshName))
    ensures library.Some? && meshName in library.value.objects && library.value.objects[meshName].None? ==>
      LoadCloudMesh(props, library, assetsPath, meshName).error == Some(FailedToLoad)
    ensures Deliverable(library, meshName) ==> LoadCloudMesh(props, library, assetsPath, meshName).error.None?
  {
  }

  /**
    * A loaded cloud carries its display name, sits at the cloud height,
    * casts no shadow, keeps one material slot per asset slot, and is rescaled
    * by `cloud_spread / 10` exactly when the layer is loaded in multiple mode.
    */
  lemma LoadedCloudShape(props: Props, library: Option<AssetLibrary>, assetsPath: string, meshName: string)
    requires Deliverable(library, meshName)
    ensures var r := LoadCloudMesh(props, library, assetsPath, meshName);
      r.obj.Some? &&
      r.obj.value.name == DisplayName(meshName) &&
      StartsWith(r.obj.value.name, DisplayPrefix) &&
      r.obj.value.height == props.cloudHeight &&
      !r.obj.value.castsShadow &&
      |r.obj.value.materials| == |library.value.objects[meshName].value.materials| &&
      (r.obj.value.bakedScale.Some? <==> props.multiple && meshName == "cloud_layer") &&
      (r.obj.value.bakedScale.Some? ==> r.obj.value.bakedScale.value * BaseSize == props.cloudSpread)
  {
  }

  /**
    * Each material slot of a loaded cloud is the asset's slot renamed: empty
    * slots stay empty, every node of a node-using material carries the
    * prefix, and renaming the loaded materials again would change nothing.
    */
  lemma LoadedMaterialsArePrefixed(props: Props, library: Option<AssetLibrary>, assetsPath: string, meshName: string, i: nat, k: nat)
    requires Deliverable(library, meshName)
    requires i < |library.value.objects[meshName].value.materials|
    ensures var mats := LoadCloudMesh(props, library, assetsPath, meshName).obj.value.materials;
      var slot := library.value.objects[meshName].value.materials[i];
      mats[i] == RenamedSlot(slot, Prefix) &&
      (mats[i].None? <==> slot.None?) &&
      (mats[i].Some? ==> RenamedMaterial(mats[i].value, Prefix) == mats[i].value) &&
      (mats[i].Some? && mats[i].value.useNodes && k < |mats[i].value.nodes| ==>
         StartsWith(mats[i].value.nodes[k].name, Prefix))
  {
    var slot := library.value.objects[meshName].value.materials[i];
    if slot.Some? {
      RenamedMaterialIdempotent(slot.value, Prefix);
      if slot.value.useNodes {
        RenameAllPrefixesEveryName(slot.value.nodes, Prefix);
      }
    }
  }

  /** The three bundled assets get three different display names. */
  lemma KnownAssetsHaveDistinctDisplayNames(a: string, b: string)
    requires a in {"cloud_layer", "cloud_single", "cloud_sphere"}
    requires b in {"cloud_layer", "cloud_single", "cloud_sphere"}
    ensures DisplayName(a) == DisplayName(b) <==> a == b
  {
  }

}
