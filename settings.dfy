/**
  * The add-on's settings record, attached to the current scene
  * (`CloudCreatorProperties`, __init__.py lines 32-111).
  */
module Settings {

  /** The two single-cloud shapes offered by the `cloud_type` enum. */
  datatype CloudType = Single | Sphere

  /** The identifier the enum stores for each shape ('single', 'sphere'). */
  function CloudTypeId(t: CloudType): string
  {
    match t
    case Single => "single"
    case Sphere => "sphere"
  }

  /**
    * Every user-adjustable field. Distances are reals: the host's single
    * precision floats and their rounding are not modelled.
    */
  datatype Props = Props(
    addCloud: bool,
    seed: int,
    multiple: bool,
    cloudType: CloudType,
    cloudSpread: real,
    shadowSpread: real,
    cloudHeight: real,
    cloudShadows: bool,
    addLight: bool)

  /** The values the add-on starts with. */
  const Defaults := Props(
    addCloud := true, seed := 0, multiple := false, cloudType := Single,
    cloudSpread := 100.0, shadowSpread := 100.0, cloudHeight := 10.0,
    cloudShadows := true, addLight := false)

}
