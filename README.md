# CloudCreator decision logic, modelled in Dafny

CloudCreator is a Blender add-on. It loads a pre-built cloud mesh from its bundled
`assets.blend`, tags the mesh's shader nodes with the `CloudCreator` prefix, and can
build a shadow-catching ground plane with an area light above it. Almost all of it
is calls into Blender's `bpy` API. This project models the part that makes
decisions, with the host's effects reduced to values:

- `settings.dfy` (module `Settings`): the scene's settings record and the
  `cloud_type` enum.
- `node_naming.dfy` (module `NodeNaming`): `rename_material_nodes`. `Material` is a
  class whose node list is an array that is renamed in place. `Renamed`,
  `RenameAll` and `RenamedMaterial` are the functions that specify it.
- `mesh_loader.dfy` (module `MeshLoader`): `load_cloud_mesh`. The asset file is an
  `Option<AssetLibrary>`, where `None` means the file does not exist. The loader
  returns the source's `(obj, error)` pair. The display name, the height, the layer
  rescale and the renamed material copies are parts of the returned object.
- `shadow_plane.dfy` (module `ShadowPlane`): the fixed shadow-material graph, and
  the plane and light records that `create_cloud_shadow_plane` and
  `create_cloud_light` produce.
- `create_operator.dfy` (module `CreateOperator`): the operator. It holds the
  confirmation guard shared by `invoke` and `description` and the choice of mesh
  name. `Plan` is a pure function from the settings and the library to the ordered
  effects of `execute`, which are links into the scene and status-bar reports.
  A report is a value saying what it is about, and `Text` renders the message
  the source formats.
  `Scene` and `Operator` are classes whose `Execute`/`Invoke` methods carry out the
  plan step by step.
- `wrappers.dfy` (module `Wrappers`): `Option`, standing for Python's `None`.

- The shadow material has six nodes and five links (__init__.py:241-287).
- The loader has a third error, "Failed to load object" (__init__.py:203), for a
  listed name the host does not hand back.

## Model

| member | source | states |
|---|---|---|
| NodeNaming.RenameAll | __init__.py:119-122 | renaming a node list keeps its length and renames the k-th node exactly as the loop body renames the k-th node |
| NodeNaming.RenameMaterialNodes | __init__.py:114-122 | the in-place loop leaves the node array equal to the renamed list; a missing material or one with `use_nodes` off is untouched; only the node array is written |
| NodeNaming.RenamedStartsWithPrefix | __init__.py:120-121 | a node's name starts with the prefix after its loop iteration, whether or not the loop renamed it |
| NodeNaming.RenameAllPrefixesEveryName | __init__.py:119-122 | after renaming, every node name starts with the prefix |
| NodeNaming.RenameAllIdempotent | __init__.py:120-121 | renaming twice equals renaming once, so no name is ever prefixed twice |
| NodeNaming.RenameAllChangesOnlyNamesAndLabels | __init__.py:119-122 | count, order and node types are kept; an already-prefixed node is kept whole; any other node gets `prefix_name` as its name and its label |
| NodeNaming.PrefixWithoutUnderscoreIsKept | __init__.py:120 | "CloudCreatorX" is left unchanged because the test is `startswith(prefix)`; "Noise" becomes "CloudCreator_Noise", and so does its label |
| NodeNaming.RenamedMaterialIdempotent | __init__.py:116-122 | renaming a material is idempotent, keeps `use_nodes`, and leaves a material without nodes unchanged |
| MeshLoader.DisplayName | __init__.py:169-177 | the display name always starts with `CloudCreator_`; the three bundled assets map to `CloudCreator_Layer`, `_Single` and `_Sphere`; any other name maps to `CloudCreator_<name>` |
| MeshLoader.ErrorMessage | __init__.py:154-203 | each of the three load failures has a non-empty message; the missing-file message ends with the path, and the missing-object message carries the name right after `Object '` |
| MeshLoader.LoadCloudMesh | __init__.py:149-203 | exactly one of object and error is returned |
| MeshLoader.LoadFailsExactlyWhenUndeliverable | __init__.py:154-203 | loading fails exactly when the file is missing, the name is absent or nothing is delivered; a missing file, a missing name and a listed name the host does not deliver give their own three errors; a deliverable asset gives no error |
| MeshLoader.LoadedCloudShape | __init__.py:165-193 | a loaded cloud has its display name, sits at the cloud height and casts no shadow; it is rescaled by spread / 10 exactly in multiple mode with the layer asset |
| MeshLoader.LoadedMaterialsArePrefixed | __init__.py:195-199 | each material slot of a loaded cloud is the asset's slot renamed (so node count, order and types are the asset's); empty slots stay empty; every node of a node-using material carries the prefix; a second renaming would change nothing |
| MeshLoader.KnownAssetsHaveDistinctDisplayNames | __init__.py:170-175 | the three bundled assets get pairwise different display names |
| ShadowPlane.ShadowGraphIsChain | __init__.py:282-287 | the five links form one chain from the texture-coordinate node to the material output, over nodes of the material |
| ShadowPlane.ShadowNodesAlreadyPrefixed | __init__.py:239-280 | the builder's node names already carry the prefix, so renaming the shadow material would change nothing (a consistency fact: the add-on never renames this material) |
| ShadowPlane.PlaneCarriesShadowMaterial | __init__.py:226-290 | the plane is hidden from the camera and carries the material `CloudCreator_ShadowMaterial` |
| ShadowPlane.LightAbovePlane | __init__.py:300-315 | the light is parented to the plane, sits above it and is as wide as it |
| CreateOperator.Description | __init__.py:368-373 | the tooltip is one of the two texts |
| CreateOperator.MeshName | __init__.py:342-346 | the mesh name is one of `cloud_layer`, `cloud_single`, `cloud_sphere`; it is `cloud_layer` iff multiple mode is on; otherwise it is `cloud_sphere` iff the type is Sphere |
| CreateOperator.DescriptionWarnsExactlyWhenConfirming | __init__.py:331-373 | `description` returns the warning exactly when `invoke` would ask for confirmation, and the plain text otherwise |
| CreateOperator.ConfirmationThresholdExamples | __init__.py:331-333 | with add_cloud and multiple on, spreads 5 and 10 do not ask while 10.0001 and 50 do; turning either toggle off never asks |
| CreateOperator.DefaultsLoadSingleWithoutAsking | __init__.py:35-63 | with the declared defaults the run does not ask and loads `cloud_single` |
| CreateOperator.Text | __init__.py:349-364 | every status-bar message starts with `CloudCreator: `; a warning carries the loader's message after it, and each info message ends with the cloud's, plane's or light's name in quotes |
| CreateOperator.CloudObjects | __init__.py:341-353 | the cloud part of a run links the loaded cloud when the library delivers it, and nothing otherwise |
| CreateOperator.ShadowObjects | __init__.py:355-364 | the shadow part of a run links the plane when shadows are on, then the light when the light is also on |
| CreateOperator.PlanObjects | __init__.py:341-366 | the objects a run links, written out in order: the cloud if delivered, then the plane if shadows are on, then the light if the light is also on |
| CreateOperator.PlanReports | __init__.py:349-364 | the reports of a run, written out in order: the loader's error as a warning, or the loaded cloud's name, when a cloud is asked for; then `CloudCreator_Shadow` if shadows are on; then `CloudCreator_Light` if the light is also on |
| CreateOperator.PlanWarnsOnlyOnFailedLoad | __init__.py:349-364 | a run's report is a warning exactly when it is the first one, a cloud was asked for and the asset could not be delivered; the plane and light reports are always info |
| CreateOperator.PlanCreatesExactlyWhatIsAsked | __init__.py:341-366 | a cloud is linked iff asked for and delivered, a plane iff shadows are on, a light iff shadows and light are on, whatever the loader returned; the object count follows |
| CreateOperator.PlanParentsLightToPlane | __init__.py:357-364 | every linked light directly follows a shadow plane, is parented to it and hangs 0.5 above it |
| CreateOperator.PlanReportsEachLoadOnce | __init__.py:341-353 | a load is attempted iff add_cloud; each attempt sends one report, a warning exactly when the asset cannot be delivered (contents in `PlanReports`) |
| CreateOperator.SphereWithShadowsAndLight | __init__.py:337-366 | seed 42 with one sphere, shadows and light on gives exactly the cloud `CloudCreator_Sphere`, the plane and a light parented to `CloudCreator_Shadow`; with shadows off only the cloud |
| CreateOperator.Operator.AddCloud | __init__.py:341-353 | the cloud part of `execute` links and reports exactly the cloud steps of the plan |
| CreateOperator.Operator.AddShadows | __init__.py:355-364 | the shadow part of `execute` links and reports exactly the shadow steps of the plan |
| CreateOperator.Operator.Execute | __init__.py:337-366 | `execute` always returns FINISHED, keeps the settings, and appends exactly the plan's objects to the scene and the plan's reports to the operator |
| CreateOperator.Operator.Invoke | __init__.py:328-335 | a run is cancelled exactly when confirmation is needed and declined, and then nothing changes; otherwise it is `execute` |

## Left out

- Seeded randomness: `set_random_mapping_locations` (__init__.py:125-136) and the mapping offsets of the shadow plane (__init__.py:211, 273-275) depend on Python's global Mersenne Twister and floating point. Nodes in the model carry no mapping location, and the `seed` setting influences nothing in the model.
- Floating point: distances are Dafny reals, so the layer scale is `cloud_spread / 10` exactly and the light height is `cloud_height + 0.5` exactly. The beam spread `math.radians(20)` is kept as 20 degrees.
- Host name uniquification: Blender may append ".001" to an object or node name that is already taken. The model assumes every name assignment takes effect as written, including the label copied from the node's name.
- Host calls are values here. `libraries.load` and object linking become the returned `CloudObject` and a `Link` step. `transform_apply` becomes the `bakedScale` field and the plane's `size`. `primitive_plane_add`, `light_add` and parenting become the `Plane` and `AreaLight` records. The parent-inverse matrix is reduced to the light keeping its world height.
- In the source, `load_cloud_mesh` links the object itself. The model's loader returns it, and `AddCloud` links it before the report, which is the same order of effects.
- The plane record names its material. The material itself is the constant `ShadowMaterialTemplate`, because the builder makes the same graph on every call.
- The shadow material's socket defaults (black base colour, noise scale 1.0 and detail 5.0, ramp stops at 0.4 and 0.6) and the node editor positions (__init__.py:242-280) are constants handed to the host, and the model does not carry them.
- `invoke_confirm` is the host's dialog. `Invoke` takes the user's answer as the `confirmed` parameter.
- File paths: `get_addon_path`, `get_assets_path` and `os.path.exists` (__init__.py:22-29, 154) are I/O. The path is the `assetsPath` parameter, and a missing file is a library of `None`.
- The UI panel `draw`, the property declarations beyond their defaults (`Settings.Defaults`) and their UI bounds and `register`/`unregister` (__init__.py:32-111, 376-451) are UI plumbing.
- `Material` has a fixed node array: renaming neither adds nor removes nodes, and node creation (`nodes.new`) is not modelled.
