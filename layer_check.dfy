/** The layer validator `check_layer` of utils/layer.py: a fixed sequence of
    flag-gated checks on a map layer, the first failing one logging its
    message and making the result None. */
module LayerCheck {
  import opened Wrappers

  /** `QgsMapLayer.LayerType`, in declaration order (VectorLayer is 0). */
  datatype LayerType = VectorLayer | RasterLayer | PluginLayer | MeshLayer | VectorTileLayer
                     | AnnotationLayer | PointCloudLayer

  /** The `QgsWkbTypes` codes the geometry checks compare with. */
  const Point: nat := 1
  const LineString: nat := 2
  const Polygon: nat := 3

  /** The `QgsVectorDataProvider` capability bits the edit checks test. */
  const AddFeatures: bv32 := 1
  const DeleteFeatures: bv32 := 2

  /** `caps & bit == 0`: the provider lacks the capability. */
  predicate Lacks(caps: bv32, bit: bv32) {
    caps & bit == 0
  }

  const NoActiveLayer := "Needs an active layer"
  const Invalid := "The layer is invalid"
  const NotVector := "Needs a vector layer"
  const NotPoint := "Needs a point layer"
  const NotLineString := "Needs a line-string layer"
  const NotPolygon := "Needs a polygon layer"
  const CannotAdd := "Adding features to this layer is prohibited"
  const CannotDelete := "Removing features from this layer is prohibited"
  const NotEditable := "The layer is not editable"

  /** A map layer: what the checks read, whether it is being edited, what
      `startEditing()` would answer, and how often it was called. */
  class MapLayer {
    const valid: bool
    const layerType: LayerType
    const wkbType: nat
    const capabilities: bv32
    var editable: bool
    const canStartEditing: bool
    var startEditingCalls: nat

    constructor (valid: bool, layerType: LayerType, wkbType: nat, capabilities: bv32,
                 editable: bool, canStartEditing: bool)
      ensures this.valid == valid && this.layerType == layerType && this.wkbType == wkbType
      ensures this.capabilities == capabilities && this.editable == editable
      ensures this.canStartEditing == canStartEditing && startEditingCalls == 0
    {
      this.valid := valid;
      this.layerType := layerType;
      this.wkbType := wkbType;
      this.capabilities := capabilities;
      this.editable := editable;
      this.canStartEditing := canStartEditing;
      startEditingCalls := 0;
    }

    /** `startEditing()`: on success the layer is being edited. */
    method StartEditing() returns (ok: bool)
      modifies this
      ensures ok == canStartEditing
      ensures editable == (old(editable) || canStartEditing)
      ensures startEditingCalls == old(startEditingCalls) + 1
    {
      ok := canStartEditing;
      if ok {
        editable := true;
      }
      startEditingCalls := startEditingCalls + 1;
    }
  }

  /** What the checks see of a layer at the start of the call. */
  datatype LayerFacts = LayerFacts(valid: bool, layerType: LayerType, wkbType: nat, capabilities: bv32,
                                   editable: bool, canStartEditing: bool)

  function FactsOf(layer: MapLayer?): Option<LayerFacts>
    reads layer
  {
    if layer == null then None
    else Some(LayerFacts(layer.valid, layer.layerType, layer.wkbType, layer.capabilities,
                         layer.editable, layer.canStartEditing))
  }

  /** The keyword arguments of `check_layer`. */
  datatype Checks = Checks(validity: bool, vector: bool, point: bool, linestring: bool, polygon: bool,
                           mustEdit: bool, addFeatures: bool, deleteFeatures: bool, startEdit: bool)

  /** The defaults of `check_layer`. */
  const Defaults := Checks(true, true, false, false, false, true, true, true, true)

  const NoChecks := Checks(false, false, false, false, false, false, false, false, false)

  /** The value the vector test compares with `QgsMapLayer.VectorLayer` as
      the code is written: `layer.LayerType()` calls the enum type itself with
      no argument, which gives its zero member, whatever the layer. */
  const CalledEnumType: LayerType := VectorLayer

  /** The two readings of the vector test of layer.py:111: as written, it
      compares `layer.LayerType()` with VectorLayer; as intended, the
      layer's own type. */
  datatype VectorTest = AsWritten | Intended

  /** Whether the vector test, read as `t`, fails on the layer. */
  predicate FailsVector(t: VectorTest, f: LayerFacts) {
    match t
    case AsWritten => CalledEnumType != VectorLayer
    case Intended => f.layerType != VectorLayer
  }

  /** As written, the vector test never fails. */
  lemma AsWrittenVectorTestNeverFails(f: LayerFacts)
    ensures !FailsVector(AsWritten, f)
  {
  }

  /** A raster layer that the written vector test lets through and the
      intended one stops. */
  lemma AsWrittenAcceptsRasterLayer()
    ensures var f := LayerFacts(true, RasterLayer, 0, 0, false, false);
            !FailsVector(AsWritten, f) && FailsVector(Intended, f)
  {
  }

  /** The message `check_layer` logs, or None when the layer passes, with
      the vector test read as `t`. The message for a missing layer is never
      logged for a layer that is there. */
  function Verdict(t: VectorTest, layer: Option<LayerFacts>, c: Checks): (r: Option<string>)
    ensures r == Some(NoActiveLayer) <==> layer.None?
  {
    match layer
    case None => Some(NoActiveLayer)
    case Some(f) =>
      if c.validity && !f.valid then Some(Invalid)
      else if c.vector && FailsVector(t, f) then Some(NotVector)
      else if c.point && f.wkbType != Point then Some(NotPoint)
      else if c.linestring && f.wkbType != LineString then Some(NotLineString)
      else if c.polygon && f.wkbType != Polygon then Some(NotPolygon)
      else if c.mustEdit && c.addFeatures && Lacks(f.capabilities, AddFeatures) then Some(CannotAdd)
      else if c.mustEdit && c.deleteFeatures && Lacks(f.capabilities, DeleteFeatures) then Some(CannotDelete)
      else if c.mustEdit && !f.editable && c.startEdit && !f.canStartEditing then Some(NotEditable)
      else None
  }

  /** `startEditing()` is called: every earlier check passed, edits are
      required, the layer is not being edited and `start_edit` is set. Then
      the only message left to log is "The layer is not editable". */
  predicate AttemptsStart(t: VectorTest, f: LayerFacts, c: Checks): (b: bool)
    ensures b ==> Verdict(t, Some(f), c) == None || Verdict(t, Some(f), c) == Some(NotEditable)
  {
    && !(c.validity && !f.valid)
    && !(c.vector && FailsVector(t, f))
    && !(c.point && f.wkbType != Point)
    && !(c.linestring && f.wkbType != LineString)
    && !(c.polygon && f.wkbType != Polygon)
    && !(c.mustEdit && c.addFeatures && Lacks(f.capabilities, AddFeatures))
    && !(c.mustEdit && c.deleteFeatures && Lacks(f.capabilities, DeleteFeatures))
    && c.mustEdit && !f.editable && c.startEdit
  }

  /** As written, the `vector` flag has no effect: the check behaves as the
      intended one with the flag off. */
  lemma AsWrittenIgnoresVectorFlag(f: LayerFacts, c: Checks)
    ensures Verdict(AsWritten, Some(f), c) == Verdict(Intended, Some(f), c.(vector := false))
    ensures AttemptsStart(AsWritten, f, c) == AttemptsStart(Intended, f, c.(vector := false))
  {
  }

  /** The discrepancy on the whole check: with only `vector` requested, a
      valid raster layer passes `check_layer` as written and is refused with
      "Needs a vector layer" as intended. */
  lemma AsWrittenCheckAcceptsRasterLayer()
    ensures var f := LayerFacts(true, RasterLayer, 0, 0, false, false);
            var c := NoChecks.(vector := true);
            Verdict(AsWritten, Some(f), c) == None && Verdict(Intended, Some(f), c) == Some(NotVector)
  {
  }

  /** The checks after the active-layer test, by name. */
  datatype Check = Validity | Vector | PointType | LineStringType | PolygonType
                 | CanAdd | CanDelete | Editability

  /** The order in which `check_layer` runs them. */
  const Order: seq<Check> := [Validity, Vector, PointType, LineStringType, PolygonType,
                              CanAdd, CanDelete, Editability]

  /** Whether a check is requested and the layer fails it. */
  predicate Fails(t: VectorTest, check: Check, f: LayerFacts, c: Checks) {
    match check
    case Validity => c.validity && !f.valid
    case Vector => c.vector && FailsVector(t, f)
    case PointType => c.point && f.wkbType != Point
    case LineStringType => c.linestring && f.wkbType != LineString
    case PolygonType => c.polygon && f.wkbType != Polygon
    case CanAdd => c.mustEdit && c.addFeatures && Lacks(f.capabilities, AddFeatures)
    case CanDelete => c.mustEdit && c.deleteFeatures && Lacks(f.capabilities, DeleteFeatures)
    case Editability => c.mustEdit && !f.editable && c.startEdit && !f.canStartEditing
  }

  /** The message a failing check logs. */
  function Message(check: Check): string {
    match check
    case Validity => Invalid
    case Vector => NotVector
    case PointType => NotPoint
    case LineStringType => NotLineString
    case PolygonType => NotPolygon
    case CanAdd => CannotAdd
    case CanDelete => CannotDelete
    case Editability => NotEditable
  }

  /** The first check of `Order`, from position `i` on, that the layer
      fails. */
  function FirstFailing(t: VectorTest, i: nat, f: LayerFacts, c: Checks): Option<Check>
    requires i <= |Order|
    decreases |Order| - i
  {
    if i == |Order| then None
    else if Fails(t, Order[i], f, c) then Some(Order[i])
    else FirstFailing(t, i + 1, f, c)
  }

  /** FirstFailing finds nothing exactly when no check from `i` on fails;
      otherwise it finds a failing check with no failing check between `i`
      and it. */
  lemma {:induction false} FirstFailingIsFirst(t: VectorTest, i: nat, f: LayerFacts, c: Checks)
    requires i <= |Order|
    ensures FirstFailing(t, i, f, c).None? <==> forall k :: i <= k < |Order| ==> !Fails(t, Order[k], f, c)
    ensures FirstFailing(t, i, f, c).Some? ==>
              exists k :: i <= k < |Order| && Order[k] == FirstFailing(t, i, f, c).value
                          && Fails(t, Order[k], f, c)
                          && forall j :: i <= j < k ==> !Fails(t, Order[j], f, c)
    decreases |Order| - i
  {
    if i < |Order| && !Fails(t, Order[i], f, c) {
      FirstFailingIsFirst(t, i + 1, f, c);
    }
  }

  /** The message a failing check logs, none when every check passes. */
  function MessageOf(check: Option<Check>): Option<string> {
    if check.None? then None else Some(Message(check.value))
  }

  /** The last four checks of the if-chain are the first failing check of
      `Order` from position 4 on. */
  lemma EditChecksAreFirstFailing(t: VectorTest, f: LayerFacts, c: Checks)
    ensures MessageOf(FirstFailing(t, 4, f, c))
            == if c.polygon && f.wkbType != Polygon then Some(NotPolygon)
               else if c.mustEdit && c.addFeatures && Lacks(f.capabilities, AddFeatures) then Some(CannotAdd)
               else if c.mustEdit && c.deleteFeatures && Lacks(f.capabilities, DeleteFeatures) then Some(CannotDelete)
               else if c.mustEdit && !f.editable && c.startEdit && !f.canStartEditing then Some(NotEditable)
               else None
  {
    assert FirstFailing(t, 7, f, c) == if Fails(t, Editability, f, c) then Some(Editability) else None;
    assert FirstFailing(t, 6, f, c) == if Fails(t, CanDelete, f, c) then Some(CanDelete) else FirstFailing(t, 7, f, c);
    assert FirstFailing(t, 5, f, c) == if Fails(t, CanAdd, f, c) then Some(CanAdd) else FirstFailing(t, 6, f, c);
    assert FirstFailing(t, 4, f, c) == if Fails(t, PolygonType, f, c) then Some(PolygonType) else FirstFailing(t, 5, f, c);
  }

  /** The if-chain of `check_layer` is the first failing check of the fixed
      order. */
  lemma VerdictIsFirstFailing(t: VectorTest, f: LayerFacts, c: Checks)
    ensures Verdict(t, Some(f), c) == MessageOf(FirstFailing(t, 0, f, c))
  {
    EditChecksAreFirstFailing(t, f, c);
    assert FirstFailing(t, 3, f, c)
           == if Fails(t, LineStringType, f, c) then Some(LineStringType) else FirstFailing(t, 4, f, c);
    assert FirstFailing(t, 2, f, c) == if Fails(t, PointType, f, c) then Some(PointType) else FirstFailing(t, 3, f, c);
    assert FirstFailing(t, 1, f, c) == if Fails(t, Vector, f, c) then Some(Vector) else FirstFailing(t, 2, f, c);
  }

  /** A layer passes exactly when it fails none of the checks, and a failing
      layer gets the message of a failing check no earlier check preempts. */
  lemma VerdictPassesIffNoCheckFails(t: VectorTest, f: LayerFacts, c: Checks)
    ensures Verdict(t, Some(f), c).None? <==> forall i :: 0 <= i < |Order| ==> !Fails(t, Order[i], f, c)
    ensures Verdict(t, Some(f), c).Some? ==>
              exists i :: 0 <= i < |Order| && Fails(t, Order[i], f, c) && Verdict(t, Some(f), c) == Some(Message(Order[i]))
                          && forall j :: 0 <= j < i ==> !Fails(t, Order[j], f, c)
  {
    VerdictIsFirstFailing(t, f, c);
    FirstFailingIsFirst(t, 0, f, c);
  }

  /** With the intended vector test, a layer of any other type that passes
      the validity check is stopped with "Needs a vector layer". */
  lemma VectorCheckStopsOtherLayers(f: LayerFacts, c: Checks)
    requires c.vector && f.layerType != VectorLayer && !(c.validity && !f.valid)
    ensures Verdict(Intended, Some(f), c) == Some(NotVector)
  {
  }

  /** No layer at all: "Needs an active layer". */
  lemma NoLayerNeedsActiveLayer(t: VectorTest, c: Checks)
    ensures Verdict(t, None, c) == Some(NoActiveLayer)
  {
  }

  /** With every flag off, any layer passes. */
  lemma NoChecksPassAnyLayer(t: VectorTest, f: LayerFacts)
    ensures Verdict(t, Some(f), NoChecks) == None
  {
  }

  /** The geometry checks want exactly Point, LineString or Polygon: a
      requested geometry check on any other code fails, once the earlier
      checks passed. */
  lemma GeometryIsExact(t: VectorTest, f: LayerFacts, c: Checks)
    requires !(c.validity && !f.valid) && !(c.vector && FailsVector(t, f))
    ensures c.point && f.wkbType != Point ==> Verdict(t, Some(f), c) == Some(NotPoint)
    ensures !c.point && c.linestring && f.wkbType != LineString ==> Verdict(t, Some(f), c) == Some(NotLineString)
    ensures !c.point && !c.linestring && c.polygon && f.wkbType != Polygon ==>
              Verdict(t, Some(f), c) == Some(NotPolygon)
  {
  }

  /** Without `must_edit` no capability or editability check runs. */
  lemma MustEditGatesEditChecks(t: VectorTest, f: LayerFacts, c: Checks)
    requires !c.mustEdit
    ensures Verdict(t, Some(f), c) !in {Some(CannotAdd), Some(CannotDelete), Some(NotEditable)}
    ensures !AttemptsStart(t, f, c)
  {
  }

  /** A layer not being edited passes the editability check when
      `start_edit` is off, and otherwise exactly when editing can start. */
  lemma EditabilityCheck(t: VectorTest, f: LayerFacts, c: Checks)
    requires c.mustEdit && !f.editable
    requires Verdict(t, Some(f), c) == None || Verdict(t, Some(f), c) == Some(NotEditable)
    ensures !c.startEdit ==> Verdict(t, Some(f), c) == None
    ensures c.startEdit ==> (Verdict(t, Some(f), c) == None <==> f.canStartEditing)
  {
  }

  /** `check_layer(plugin, layer, ...)`: `current` is the view's current
      layer, used when `layer` is None. The result is the layer checked or
      None, and `logged` the error messages, at most one. `t` reads the
      vector test as written (AsWritten) or as corrected (Intended). */
  method CheckLayer(t: VectorTest, layer: MapLayer?, current: MapLayer?, c: Checks)
    returns (result: MapLayer?, logged: seq<string>)
    modifies if layer == null then {current} else {layer}
    ensures var l := if layer == null then current else layer;
            && (old(Verdict(t, FactsOf(l), c)).None? ==> result == l && logged == [])
            && (old(Verdict(t, FactsOf(l), c)).Some? ==>
                  result == null && logged == [old(Verdict(t, FactsOf(l), c)).value])
            && (l != null ==>
                  var attempted := AttemptsStart(t, old(FactsOf(l)).value, c);
                  && l.startEditingCalls == old(l.startEditingCalls) + (if attempted then 1 else 0)
                  && l.editable == (old(l.editable) || (attempted && l.canStartEditing)))
    ensures |logged| <= 1
  {
    var l := if layer == null then current else layer;
    result := null;
    logged := [];
    label checks: {
      if l == null {
        logged := [NoActiveLayer];
        break checks;
      }
      if c.validity && !l.valid {
        logged := [Invalid];
        break checks;
      }
      var layerType := if t == AsWritten then CalledEnumType else l.layerType;
      if c.vector && layerType != VectorLayer {
        logged := [NotVector];
        break checks;
      }
      if c.point && l.wkbType != Point {
        logged := [NotPoint];
        break checks;
      }
      if c.linestring && l.wkbType != LineString {
        logged := [NotLineString];
        break checks;
      }
      if c.polygon && l.wkbType != Polygon {
        logged := [NotPolygon];
        break checks;
      }
      if c.mustEdit {
        var caps := l.capabilities;
        if c.addFeatures && Lacks(caps, AddFeatures) {
          logged := [CannotAdd];
          break checks;
        }
        if c.deleteFeatures && Lacks(caps, DeleteFeatures) {
          logged := [CannotDelete];
          break checks;
        }
        if !l.editable {
          if c.startEdit {
            var ok := l.StartEditing();
            if !ok {
              logged := [NotEditable];
              break checks;
            }
          }
        }
      }
      result := l;
    }
  }
}
