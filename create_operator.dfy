/**
  * The "Create Clouds" operator (`CLOUDCREATOR_OT_create`, __init__.py lines
  * 320-373): the confirmation guard shared by `invoke` and `description`,
  * the choice of asset, and the fixed plan `execute` runs.
  */
module CreateOperator {

  import opened Wrappers
  import opened Settings
  import opened NodeNaming
  import opened MeshLoader
  import opened ShadowPlane

  /** The spread, in metres, beyond which a layer is known to be slow to render. */
  const SpreadThreshold: real := 10.0

  const WarningDescription :=
    "WARNING: Large cloud spread (>10m) with raytracing can be very slow and may crash Cycles. Continue?"
  const PlainDescription := "Generate clouds with the current settings"

  /** The configuration that makes `invoke` ask before running. */
  predicate NeedsConfirmation(p: Props)
  {
    p.addCloud && p.multiple && p.cloudSpread > SpreadThreshold
  }

  /** The operator's tooltip, `description`. */
  function Description(p: Props): (r: string)
    ensures r == WarningDescription || r == PlainDescription
  {
    if p.addCloud && p.multiple && p.cloudSpread > SpreadThreshold then WarningDescription else PlainDescription
  }

  /** The asset `execute` asks the loader for. */
  function MeshName(p: Props): (r: string)
    ensures r in {"cloud_layer", "cloud_single", "cloud_sphere"}
    ensures r == "cloud_layer" <==> p.multiple
    ensures !p.multiple ==> (r == "cloud_sphere" <==> p.cloudType == Sphere)
  {
    if p.multiple then "cloud_layer"
    else
      var name := "cloud_" + CloudTypeId(p.cloudType);
      assert p.cloudType == Single ==> name == "cloud_single";
      assert p.cloudType == Sphere ==> name == "cloud_sphere";
      name
  }

  /** What the scene collection holds after a run. */
  datatype SceneObject =
    | CloudMesh(cloud: CloudObject)
    | ShadowPlaneObject(plane: Plane)
    | AreaLightObject(light: AreaLight)

  datatype Level = Info | Warning

  /** A status-bar message sent with `self.report`, by what it is about. */
  datatype Report =
    | LoadWarning(error: LoadError)
    | LoadedInfo(cloudName: string)
    | PlaneInfo(planeName: string)
    | LightInfo(lightName: string)

  /** The report's severity: only a failed load warns. */
  function Severity(r: Report): Level
  {
    if r.LoadWarning? then Warning else Info
  }

  /** The report's text, as the status bar shows it. */
  function Text(r: Report): (t: string)
    ensures StartsWith(t, "CloudCreator: ")
    ensures r.LoadWarning? ==> t[14..] == ErrorMessage(r.error)
    ensures r.LoadedInfo? ==>
      |r.cloudName| + 2 <= |t| && t[|t| - 1 - |r.cloudName|..|t| - 1] == r.cloudName && t[|t| - 1] == '\''
    ensures r.PlaneInfo? ==>
      |r.planeName| + 2 <= |t| && t[|t| - 1 - |r.planeName|..|t| - 1] == r.planeName && t[|t| - 1] == '\''
    ensures r.LightInfo? ==>
      |r.lightName| + 2 <= |t| && t[|t| - 1 - |r.lightName|..|t| - 1] == r.lightName && t[|t| - 1] == '\''
  {
    match r
    case LoadWarning(e) => "CloudCreator: " + ErrorMessage(e)
    case LoadedInfo(name) => "CloudCreator: " + "Loaded '" + name + "'"
    case PlaneInfo(name) => "CloudCreator: " + "Created shadow plane '" + name + "'"
    case LightInfo(name) => "CloudCreator: " + "Created light '" + name + "'"
  }

  /** How a run of the operator ends. */
  datatype Status = Finished | Cancelled

  /** One effect of `execute` on the host, in the order it happens. */
  datatype Step = Link(obj: SceneObject) | Say(report: Report)

  /** The effects of the cloud part of `execute` (lines 341-353). */
  function CloudSteps(p: Props, library: Option<AssetLibrary>, assetsPath: string): seq<Step>
  {
    if !p.addCloud then []
    else
      var r := LoadCloudMesh(p, library, assetsPath, MeshName(p));
      if r.error.Some? then [Say(LoadWarning(r.error.value))]
      else if r.obj.Some? then [Link(CloudMesh(r.obj.value)), Say(LoadedInfo(r.obj.value.name))]
      else []
  }

  /** Linking the shadow plane and saying so. */
  function PlaneSteps(plane: Plane): seq<Step>
  {
    [Link(ShadowPlaneObject(plane)), Say(PlaneInfo(plane.name))]
  }

  /** Linking the light and saying so. */
  function LightSteps(light: AreaLight): seq<Step>
  {
    [Link(AreaLightObject(light)), Say(LightInfo(light.name))]
  }

  /** The effects of the shadow part of `execute` (lines 356-364). */
  function ShadowSteps(p: Props): seq<Step>
  {
    if !p.cloudShadows then []
    else
      var plane := CreateShadowPlane(p);
      PlaneSteps(plane) + (if p.addLight then LightSteps(CreateCloudLight(p, plane)) else [])
  }

  /** Everything `execute` does, in order: the cloud part, then the shadow part, whatever the cloud part did. */
  function Plan(p: Props, library: Option<AssetLibrary>, assetsPath: string): seq<Step>
  {
    CloudSteps(p, library, assetsPath) + ShadowSteps(p)
  }

  /** The object one effect links, if any. */
  function StepObjects(step: Step): seq<SceneObject>
  {
    if step.Link? then [step.obj] else []
  }

  /** The report one effect sends, if any. */
  function StepReports(step: Step): seq<Report>
  {
    if step.Say? then [step.report] else []
  }

  /** The objects a sequence of effects links into the scene, in order. */
  function Linked(steps: seq<Step>): (r: seq<SceneObject>)
  {
    if steps == [] then [] else StepObjects(steps[0]) + Linked(steps[1..])
  }

  /** The reports a sequence of effects sends, in order. */
  function Reported(steps: seq<Step>): (r: seq<Report>)
  {
    if steps == [] then [] else StepReports(steps[0]) + Reported(steps[1..])
  }

  lemma {:induction false} LinkedAppend(a: seq<Step>, b: seq<Step>)
    ensures Linked(a + b) == Linked(a) + Linked(b)
  {
    if a == [] {
      assert a + b == b;
    } else {
      assert (a + b)[0] == a[0];
      assert (a + b)[1..] == a[1..] + b;
      LinkedAppend(a[1..], b);
      assert Linked(a + b) == StepObjects(a[0]) + (Linked(a[1..]) + Linked(b));
    }
  }


  lemma {:induction false} ReportedAppend(a: seq<Step>, b: seq<Step>)
    ensures Reported(a + b) == Reported(a) + Reported(b)
  {
    if a == [] {
      assert a + b == b;
    } else {
      assert (a + b)[0] == a[0];
      assert (a + b)[1..] == a[1..] + b;
      ReportedAppend(a[1..], b);
      assert Reported(a + b) == StepReports(a[0]) + (Reported(a[1..]) + Reported(b));
    }
  }


  /** A plan's effects are the cloud part's, then the shadow part's. */
  lemma PlanSplits(p: Props, library: Option<AssetLibrary>, assetsPath: string)
    ensures Linked(Plan(p, library, assetsPath)) == Linked(CloudSteps(p, library, assetsPath)) + Linked(ShadowSteps(p))
    ensures Reported(Plan(p, library, assetsPath)) == Reported(CloudSteps(p, library, assetsPath)) + Reported(ShadowSteps(p))
  {
    LinkedAppend(CloudSteps(p, library, assetsPath), ShadowSteps(p));
    ReportedAppend(CloudSteps(p, library, assetsPath), ShadowSteps(p));
  }

  /**
    * Associativity of concatenation. Not a property of the add-on: the
    * effect proofs cite it so that the solver need not rediscover it.
    */
  lemma AppendAssoc<T>(a: seq<T>, b: seq<T>, c: seq<T>)
    ensures a + b + c == a + (b + c)
  {
  }

  /** The scene the operator works in: its settings and its collection's objects. */
  class Scene {
    var props: Props
    var objects: seq<SceneObject>

    constructor (props: Props)
      ensures this.props == props && objects == []
    {
      this.props := props;
      objects := [];
    }
  }

  /** One run of the operator, with the reports it has sent so far. */
  class Operator {
    var reports: seq<Report>

    constructor ()
      ensures reports == []
    {
      reports := [];
    }

    /** Carries out one effect: links an object into the scene or sends a report. */
    method Perform(scene: Scene, step: Step)
      modifies this, scene
      ensures scene.props == old(scene.props)
      ensures scene.objects == old(scene.objects) + Linked([step])
      ensures reports == old(reports) + Reported([step])
    {
      match step
      case Link(obj) => scene.objects := scene.objects + [obj];
      case Say(report) => reports := reports + [report];
    }

    /** Carries out two effects in order. */
    method PerformPair(scene: Scene, steps: seq<Step>)
      requires |steps| == 2
      modifies this, scene
      ensures scene.props == old(scene.props)
      ensures scene.objects == old(scene.objects) + Linked(steps)
      ensures reports == old(reports) + Reported(steps)
    {
      ghost var objects0, reports0 := scene.objects, reports;
      Perform(scene, steps[0]);
      Perform(scene, steps[1]);
      assert steps == [steps[0]] + [steps[1]];
      LinkedAppend([steps[0]], [steps[1]]);
      ReportedAppend([steps[0]], [steps[1]]);
      AppendAssoc(objects0, Linked([steps[0]]), Linked([steps[1]]));
      AppendAssoc(reports0, Reported([steps[0]]), Reported([steps[1]]));
    }

    /** The cloud part of `execute` (lines 341-353): choose the asset, load it, report. */
    method AddCloud(scene: Scene, library: Option<AssetLibrary>, assetsPath: string)
      modifies this, scene
      ensures scene.props == old(scene.props)
      ensures scene.objects == old(scene.objects) + Linked(CloudSteps(scene.props, library, assetsPath))
      ensures reports == old(reports) + Reported(CloudSteps(scene.props, library, assetsPath))
    {
      var props := scene.props;
      if !props.addCloud {
        return;
      }
      var meshName := MeshName(props);
      var loaded := LoadCloudMesh(props, library, assetsPath, meshName);
      if loaded.error.Some? {
        Perform(scene, Say(LoadWarning(loaded.error.value)));
      } else if loaded.obj.Some? {
        PerformPair(scene, [Link(CloudMesh(loaded.obj.value)), Say(LoadedInfo(loaded.obj.value.name))]);
      }
    }

    /** The shadow part of `execute` (lines 356-364): the plane, then the light if asked. */
    method AddShadows(scene: Scene)
      modifies this, scene
      ensures scene.props == old(scene.props)
      ensures scene.objects == old(scene.objects) + Linked(ShadowSteps(scene.props))
      ensures reports == old(reports) + Reported(ShadowSteps(scene.props))
    {
      var props := scene.props;
      if !props.cloudShadows {
        return;
      }
      ghost var objects0, reports0 := scene.objects, reports;
      var plane := CreateShadowPlane(props);
      PerformPair(scene, PlaneSteps(plane));
      var lightSteps: seq<Step> := [];
      if props.addLight {
        var light := CreateCloudLight(props, plane);
        lightSteps := LightSteps(light);
        PerformPair(scene, lightSteps);
      }
      LinkedAppend(PlaneSteps(plane), lightSteps);
      ReportedAppend(PlaneSteps(plane), lightSteps);
      AppendAssoc(objects0, Linked(PlaneSteps(plane)), Linked(lightSteps));
      AppendAssoc(reports0, Reported(PlaneSteps(plane)), Reported(lightSteps));
    }

    /**
      * `execute`: loads a cloud when asked, then builds the shadow plane and
      * its light when asked; a failed load is reported and the run goes on.
      * `library` is the asset file's content, `None` when the file is missing.
      */
    method Execute(scene: Scene, library: Option<AssetLibrary>, assetsPath: string) returns (status: Status)
      modifies this, scene
      ensures status == Finished
      ensures scene.props == old(scene.props)
      ensures scene.objects == old(scene.objects) + Linked(Plan(scene.props, library, assetsPath))
      ensures reports == old(reports) + Reported(Plan(scene.props, library, assetsPath))
    {
      ghost var p := scene.props;
      ghost var objects0, reports0 := scene.objects, reports;
      AddCloud(scene, library, assetsPath);
      AddShadows(scene);
      PlanSplits(p, library, assetsPath);
      AppendAssoc(objects0, Linked(CloudSteps(p, library, assetsPath)), Linked(ShadowSteps(p)));
      AppendAssoc(reports0, Reported(CloudSteps(p, library, assetsPath)), Reported(ShadowSteps(p)));
      return Finished;
    }

    /**
      * `invoke`: in the slow configuration the host asks the user first
      * (`confirmed` is the answer); a declined dialog runs nothing.
      */
    method Invoke(scene: Scene, library: Option<AssetLibrary>, assetsPath: string, confirmed: bool) returns (status: Status)
      modifies this, scene
      ensures scene.props == old(scene.props)
      ensures status == Cancelled <==> NeedsConfirmation(scene.props) && !confirmed
      ensures status == Cancelled ==> scene.objects == old(scene.objects) && reports == old(reports)
      ensures status == Finished ==>
        scene.objects == old(scene.objects) + Linked(Plan(scene.props, library, assetsPath)) &&
        reports == old(reports) + Reported(Plan(scene.props, library, assetsPath))
    {
      var props := scene.props;
      if props.addCloud && props.multiple && props.cloudSpread > SpreadThreshold {
        if !confirmed {
          return Cancelled;
        }
      }
      status := Execute(scene, library, assetsPath);
    }
  }

  // ----- Properties of the guard and of the plan -----

  /** `invoke` and `description` agree: the tooltip warns exactly when the run asks first. */
  lemma DescriptionWarnsExactlyWhenConfirming(p: Props)
    ensures Description(p) == WarningDescription <==> NeedsConfirmation(p)
    ensures Description(p) == PlainDescription <==> !NeedsConfirmation(p)
  {
    assert |WarningDescription| != |PlainDescription|;
  }

  /** The threshold is strict: a spread of exactly 10 m does not ask, 10.0001 m does. */
  lemma ConfirmationThresholdExamples(p: Props)
    requires p.addCloud && p.multiple
    ensures !NeedsConfirmation(p.(cloudSpread := 5.0))
    ensures !NeedsConfirmation(p.(cloudSpread := 10.0))
    ensures NeedsConfirmation(p.(cloudSpread := 10.0001))
    ensures NeedsConfirmation(p.(cloudSpread := 50.0))
    ensures !NeedsConfirmation(p.(multiple := false)) && !NeedsConfirmation(p.(addCloud := false))
  {
  }

  predicate HasCloud(objs: seq<SceneObject>) { exists i :: 0 <= i < |objs| && objs[i].CloudMesh? }
  predicate HasPlane(objs: seq<SceneObject>) { exists i :: 0 <= i < |objs| && objs[i].ShadowPlaneObject? }
  predicate HasLight(objs: seq<SceneObject>) { exists i :: 0 <= i < |objs| && objs[i].AreaLightObject? }

  /** The cloud part links the loaded cloud, if the library delivered it. */
  lemma CloudObjects(p: Props, library: Option<AssetLibrary>, assetsPath: string)
    ensures Linked(CloudSteps(p, library, assetsPath)) ==
      if p.addCloud && Deliverable(library, MeshName(p))
      then [CloudMesh(LoadCloudMesh(p, library, assetsPath, MeshName(p)).obj.value)] else []
  {
    if p.addCloud {
      LoadFailsExactlyWhenUndeliverable(p, library, assetsPath, MeshName(p));
      var cloud := CloudSteps(p, library, assetsPath);
      if |cloud| == 2 {
        LinkedAppend([cloud[0]], [cloud[1]]);
        assert cloud == [cloud[0]] + [cloud[1]];
      }
    }
  }

  /** Each pair of steps links its one object. */
  lemma PairObjects(steps: seq<Step>)
    requires |steps| == 2 && steps[0].Link? && steps[1].Say?
    ensures Linked(steps) == [steps[0].obj]
  {
    LinkedAppend([steps[0]], [steps[1]]);
    assert steps == [steps[0]] + [steps[1]];
  }

  /** The shadow part links the plane, then the light if asked. */
  lemma ShadowObjects(p: Props)
    ensures var plane := CreateShadowPlane(p);
      Linked(ShadowSteps(p)) ==
        if p.cloudShadows
        then [ShadowPlaneObject(plane)] + (if p.addLight then [AreaLightObject(CreateCloudLight(p, plane))] else [])
        else []
  {
    if p.cloudShadows {
      var plane := CreateShadowPlane(p);
      var ls := if p.addLight then LightSteps(CreateCloudLight(p, plane)) else [];
      LinkedAppend(PlaneSteps(plane), ls);
      PairObjects(PlaneSteps(plane));
      if p.addLight {
        PairObjects(ls);
      }
    }
  }

  /** The objects a plan links, written out: at most one cloud, then the plane, then the light. */
  lemma PlanObjects(p: Props, library: Option<AssetLibrary>, assetsPath: string)
    ensures var plane := CreateShadowPlane(p);
      Linked(Plan(p, library, assetsPath)) ==
        (if p.addCloud && Deliverable(library, MeshName(p))
         then [CloudMesh(LoadCloudMesh(p, library, assetsPath, MeshName(p)).obj.value)] else []) +
        (if p.cloudShadows
         then [ShadowPlaneObject(plane)] + (if p.addLight then [AreaLightObject(CreateCloudLight(p, plane))] else [])
         else [])
  {
    PlanSplits(p, library, assetsPath);
    CloudObjects(p, library, assetsPath);
    ShadowObjects(p);
  }

  /**
    * The run links a cloud iff one was asked for and the library delivers it,
    * a shadow plane iff shadows are on, and a light iff shadows and the light
    * are both on. The last two hold for every library, a missing one
    * included: a failed load does not stop the later steps.
    */
  lemma PlanCreatesExactlyWhatIsAsked(p: Props, library: Option<AssetLibrary>, assetsPath: string)
    ensures var objs := Linked(Plan(p, library, assetsPath));
      (HasCloud(objs) <==> p.addCloud && Deliverable(library, MeshName(p))) &&
      (HasPlane(objs) <==> p.cloudShadows) &&
      (HasLight(objs) <==> p.cloudShadows && p.addLight) &&
      |objs| == (if p.addCloud && Deliverable(library, MeshName(p)) then 1 else 0) +
                (if p.cloudShadows then 1 else 0) +
                (if p.cloudShadows && p.addLight then 1 else 0)
  {
    PlanObjects(p, library, assetsPath);
    var objs := Linked(Plan(p, library, assetsPath));
    var c := if p.addCloud && Deliverable(library, MeshName(p)) then 1 else 0;
    if c == 1 { assert objs[0].CloudMesh?; }
    if p.cloudShadows {
      assert objs[c].ShadowPlaneObject?;
      if p.addLight { assert objs[c + 1].AreaLightObject?; }
    }
  }

  /** Every light the run links comes after a shadow plane it is parented to, half a metre above it. */
  lemma PlanParentsLightToPlane(p: Props, library: Option<AssetLibrary>, assetsPath: string, i: nat)
    requires i < |Linked(Plan(p, library, assetsPath))|
    requires Linked(Plan(p, library, assetsPath))[i].AreaLightObject?
    ensures var objs := Linked(Plan(p, library, assetsPath));
      i > 0 && objs[i - 1].ShadowPlaneObject? &&
      objs[i].light.parent == objs[i - 1].plane.name &&
      objs[i].light.height == objs[i - 1].plane.height + 0.5
  {
    PlanObjects(p, library, assetsPath);
  }

  /**
    * A load is attempted exactly when a cloud is asked for, and each attempt
    * sends one report: a warning exactly when the library cannot deliver the
    * asset; `PlanReports` gives what each report says.
    */
  lemma PlanReportsEachLoadOnce(p: Props, library: Option<AssetLibrary>, assetsPath: string)
    ensures !p.addCloud ==> CloudSteps(p, library, assetsPath) == []
    ensures p.addCloud ==>
      var reps := Reported(CloudSteps(p, library, assetsPath));
      |reps| == 1 && (Severity(reps[0]) == Warning <==> !Deliverable(library, MeshName(p)))
  {
    if p.addCloud {
      LoadFailsExactlyWhenUndeliverable(p, library, assetsPath, MeshName(p));
      var cloud := CloudSteps(p, library, assetsPath);
      if |cloud| == 2 {
        ReportedAppend([cloud[0]], [cloud[1]]);
        assert cloud == [cloud[0]] + [cloud[1]];
      }
    }
  }

  /** Each pair of steps sends its one report. */
  lemma PairReports(steps: seq<Step>)
    requires |steps| == 2 && steps[0].Link? && steps[1].Say?
    ensures Reported(steps) == [steps[1].report]
  {
    ReportedAppend([steps[0]], [steps[1]]);
    assert steps == [steps[0]] + [steps[1]];
  }

  /**
    * The reports a run sends, written out in order: when a cloud is asked for,
    * the loader's error as a warning or the loaded cloud's name; then the
    * shadow plane by name if shadows are on; then the light by name if it is
    * also on.
    */
  lemma PlanReports(p: Props, library: Option<AssetLibrary>, assetsPath: string)
    ensures var r := LoadCloudMesh(p, library, assetsPath, MeshName(p));
      Reported(Plan(p, library, assetsPath)) ==
        (if !p.addCloud then []
         else if Deliverable(library, MeshName(p)) then [LoadedInfo(r.obj.value.name)]
         else [LoadWarning(r.error.value)]) +
        (if p.cloudShadows
         then [PlaneInfo("CloudCreator_Shadow")] + (if p.addLight then [LightInfo("CloudCreator_Light")] else [])
         else [])
  {
    PlanSplits(p, library, assetsPath);
    if p.addCloud {
      LoadFailsExactlyWhenUndeliverable(p, library, assetsPath, MeshName(p));
      var cloud := CloudSteps(p, library, assetsPath);
      if |cloud| == 2 {
        PairReports(cloud);
      }
    }
    if p.cloudShadows {
      var plane := CreateShadowPlane(p);
      var ls := if p.addLight then LightSteps(CreateCloudLight(p, plane)) else [];
      ReportedAppend(PlaneSteps(plane), ls);
      PairReports(PlaneSteps(plane));
      if p.addLight {
        PairReports(ls);
      }
    }
  }

  /** Only a failed cloud load is sent as a warning; every other report of a run is informational. */
  lemma PlanWarnsOnlyOnFailedLoad(p: Props, library: Option<AssetLibrary>, assetsPath: string)
    ensures var reps := Reported(Plan(p, library, assetsPath));
      forall i :: 0 <= i < |reps| ==>
        (Severity(reps[i]) == Warning <==> i == 0 && p.addCloud && !Deliverable(library, MeshName(p)))
  {
    PlanReports(p, library, assetsPath);
  }

  /**
    * Seed 42, one sphere cloud, shadows and light on, with the sphere in the
    * library: one cloud named "CloudCreator_Sphere", one plane, one light
    * parented to it. With shadows off there is neither plane nor light.
    */
  lemma SphereWithShadowsAndLight(asset: AssetObject, assetsPath: string)
    ensures var p := Props(addCloud := true, seed := 42, multiple := false, cloudType := Sphere,
                           cloudSpread := 100.0, shadowSpread := 100.0, cloudHeight := 10.0,
                           cloudShadows := true, addLight := true);
      var library := Some(AssetLibrary(map["cloud_sphere" := Some(asset)]));
      var objs := Linked(Plan(p, library, assetsPath));
      |objs| == 3 &&
      objs[0].CloudMesh? && objs[0].cloud.name == "CloudCreator_Sphere" &&
      objs[1] == ShadowPlaneObject(CreateShadowPlane(p)) &&
      objs[2].AreaLightObject? && objs[2].light.parent == "CloudCreator_Shadow" &&
      Linked(Plan(p.(cloudShadows := false), library, assetsPath)) == [objs[0]]
  {
    var p := Props(addCloud := true, seed := 42, multiple := false, cloudType := Sphere,
                   cloudSpread := 100.0, shadowSpread := 100.0, cloudHeight := 10.0,
                   cloudShadows := true, addLight := true);
    var library := Some(AssetLibrary(map["cloud_sphere" := Some(asset)]));
    assert MeshName(p) == "cloud_sphere";
    PlanObjects(p, library, assetsPath);
    PlanObjects(p.(cloudShadows := false), library, assetsPath);
  }

  /** With the add-on's default settings the run does not ask and loads the single cloud. */
  lemma DefaultsLoadSingleWithoutAsking()
    ensures !NeedsConfirmation(Defaults)
    ensures MeshName(Defaults) == "cloud_single"
  {
  }

}
