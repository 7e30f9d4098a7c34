/**
 * The bottleneck heat map of the operations centre (`WorkflowHeatMap`):
 * the cell colour and opacity rules, the clamped zoom, and the selected
 * cell with its drill-down and highlight.
 */
module WorkflowHeatMap {
  import opened Wrappers
  import opened JsValues
  import opened Text

  datatype Stage = Stage(name: string, value: int, status: string, tasks: int)

  datatype HeatArea = HeatArea(area: string, stages: seq<Stage>)

  /** The four areas of the map, five stages each. */
  function HeatMapData(): seq<HeatArea> {
    [ HeatArea("Ventas", [Stage("Prospección", 85, "normal", 23), Stage("Calificación", 92, "normal", 18),
                          Stage("Propuesta", 67, "warning", 12), Stage("Negociación", 45, "critical", 8),
                          Stage("Cierre", 78, "normal", 15)]),
      HeatArea("Marketing", [Stage("Planificación", 88, "normal", 14), Stage("Creación", 72, "warning", 19),
                             Stage("Revisión", 35, "critical", 7), Stage("Aprobación", 91, "normal", 11),
                             Stage("Publicación", 83, "normal", 16)]),
      HeatArea("Operaciones", [Stage("Recepción", 94, "normal", 31), Stage("Procesamiento", 58, "warning", 24),
                               Stage("Control Calidad", 41, "critical", 9), Stage("Empaque", 87, "normal", 22),
                               Stage("Envío", 76, "normal", 18)]),
      HeatArea("Finanzas", [Stage("Solicitud", 89, "normal", 12), Stage("Validación", 73, "warning", 8),
                            Stage("Aprobación", 52, "warning", 6), Stage("Procesamiento", 95, "normal", 14),
                            Stage("Archivo", 81, "normal", 10)]) ]
  }

  /** `getStatusColor`: red for critical, orange for warning, green for everything else. */
  function StatusColor(status: string, value: int): (c: string)
    ensures c == "bg-red-500" <==> status == "critical"
    ensures c == "bg-orange-500" <==> status == "warning"
    ensures status != "critical" && status != "warning" ==> c == "bg-green-500"
  {
    if status == "critical" then "bg-red-500"
    else if status == "warning" then "bg-orange-500"
    else "bg-green-500"
  }

  /** The value passed with the status plays no part in the colour. */
  lemma StatusColorIgnoresValue(status: string, v1: int, v2: int)
    ensures StatusColor(status, v1) == StatusColor(status, v2)
  {
  }

  /** `getStatusIntensity`, as the opacity percentage: 90 from 80 up, 70 from 60, 50 from 40, 30 below. */
  function StatusIntensity(value: int): (o: nat)
    ensures o == 90 <==> value >= 80
    ensures o == 70 <==> 60 <= value < 80
    ensures o == 50 <==> 40 <= value < 60
    ensures o == 30 <==> value < 40
  {
    if value >= 80 then 90 else if value >= 60 then 70 else if value >= 40 then 50 else 30
  }

  /** The class name the cell gets. */
  function IntensityClass(value: int): string {
    "opacity-" + Decimal(StatusIntensity(value))
  }

  /** A higher value is never drawn fainter. */
  lemma IntensityMonotone(v1: int, v2: int)
    requires v1 <= v2
    ensures StatusIntensity(v1) <= StatusIntensity(v2)
  {
  }

  const MinZoom: real := 0.8
  const MaxZoom: real := 2.0

  /** The zoom-in button: up by 0.2, never above 2. */
  function ZoomIn(z: real): (r: real)
    ensures r <= MaxZoom
    ensures z <= MaxZoom ==> z <= r
    ensures MinZoom <= z ==> MinZoom <= r
  {
    if z + 0.2 < MaxZoom then z + 0.2 else MaxZoom
  }

  /** The zoom-out button: down by 0.2, never below 0.8. */
  function ZoomOut(z: real): (r: real)
    ensures MinZoom <= r
    ensures MinZoom <= z ==> r <= z
    ensures z <= MaxZoom ==> r <= MaxZoom
  {
    if z - 0.2 > MinZoom then z - 0.2 else MinZoom
  }

  /** Zooming in and back out restores the zoom while the zoom in was not cut at 2. */
  lemma ZoomInOutRestores(z: real)
    requires MinZoom <= z && z + 0.2 <= MaxZoom
    ensures ZoomOut(ZoomIn(z)) == z
  {
  }

  /** The clicked cell: its area's name and the whole stage record. */
  datatype SelectedCell = SelectedCell(area: string, stage: Stage)

  /** The stage record as the JavaScript object stored in the selection. */
  function StageObject(s: Stage): JsValue {
    JObj(map["name" := JStr(s.name), "value" := JNum(s.value as real), "status" := JStr(s.status),
             "tasks" := JNum(s.tasks as real)])
  }

  /** `v === s` for a string `s`: true only for that very string. */
  predicate StrictEqualsString(v: JsValue, s: string) {
    v.JStr? && v.s == s
  }

  /** The ring test as written: the stored stage, an object, compared with the cell's stage name. */
  predicate HighlightedAsWritten(sel: Option<SelectedCell>, area: string, stage: Stage) {
    sel.Some? && sel.value.area == area && StrictEqualsString(StageObject(sel.value.stage), stage.name)
  }

  /** As written, no cell ever gets the ring, whatever was clicked. */
  lemma NoCellEverHighlighted(sel: Option<SelectedCell>, area: string, stage: Stage)
    ensures !HighlightedAsWritten(sel, area, stage)
  {
  }

  /** The ring test as intended: same area and same stage name. */
  predicate Highlighted(sel: Option<SelectedCell>, area: string, stage: Stage) {
    sel.Some? && sel.value.area == area && sel.value.stage.name == stage.name
  }

  /** Area names are distinct, and so are the stage names inside each area. */
  predicate CellsNamedApart(data: seq<HeatArea>) {
    && (forall i, k :: 0 <= i < k < |data| ==> data[i].area != data[k].area)
    && (forall i :: 0 <= i < |data| ==> StagesApart(data[i].stages))
  }

  /** No two stages of one area share a name. */
  predicate StagesApart(stages: seq<Stage>) {
    forall j, l :: 0 <= j < l < |stages| ==> stages[j].name != stages[l].name
  }

  /** The map's own cells are named apart. */
  lemma DeclaredCellsNamedApart()
    ensures CellsNamedApart(HeatMapData())
  {
    forall i | 0 <= i < |HeatMapData()|
      ensures StagesApart(HeatMapData()[i].stages)
    {
      DeclaredStagesApart(i);
    }
  }

  /** Within each declared area the stage names differ. */
  lemma DeclaredStagesApart(i: nat)
    requires i < |HeatMapData()|
    ensures StagesApart(HeatMapData()[i].stages)
  {
    if i == 0 {
    } else if i == 1 {
    } else if i == 2 {
    } else {
    }
  }

  /** With cells named apart, selecting a cell rings that cell and no other. */
  lemma ClickRingsOnlyThatCell(data: seq<HeatArea>, i: int, j: int, k: int, l: int)
    requires CellsNamedApart(data)
    requires 0 <= i < |data| && 0 <= j < |data[i].stages|
    requires 0 <= k < |data| && 0 <= l < |data[k].stages|
    ensures Highlighted(Some(SelectedCell(data[i].area, data[i].stages[j])), data[k].area, data[k].stages[l])
            <==> i == k && j == l
  {
    if i != k {
      assert data[i].area != data[k].area by {
        if i < k { } else { }
      }
    } else if j != l {
      assert data[i].stages[j].name != data[i].stages[l].name by {
        if j < l { } else { }
      }
    }
  }

  /** The map's view state. */
  class HeatMap {
    var selectedCell: Option<SelectedCell>
    var zoomLevel: real

    predicate Valid()
      reads this
    {
      MinZoom <= zoomLevel <= MaxZoom
    }

    constructor ()
      ensures selectedCell.None? && zoomLevel == 1.0 && Valid()
    {
      selectedCell := None;
      zoomLevel := 1.0;
    }

    method HandleZoomIn()
      requires Valid()
      modifies this
      ensures Valid() && zoomLevel == ZoomIn(old(zoomLevel)) && selectedCell == old(selectedCell)
    {
      zoomLevel := if zoomLevel + 0.2 < MaxZoom then zoomLevel + 0.2 else MaxZoom;
    }

    method HandleZoomOut()
      requires Valid()
      modifies this
      ensures Valid() && zoomLevel == ZoomOut(old(zoomLevel)) && selectedCell == old(selectedCell)
    {
      zoomLevel := if zoomLevel - 0.2 > MinZoom then zoomLevel - 0.2 else MinZoom;
    }

    method HandleZoomReset()
      modifies this
      ensures Valid() && zoomLevel == 1.0 && selectedCell == old(selectedCell)
    {
      zoomLevel := 1.0;
    }

    /** `handleCellClick`: the cell is remembered, and `onDrillDown` gets the same area and stage. */
    method HandleCellClick(area: string, stage: Stage) returns (drillDown: (string, Stage))
      modifies this
      ensures selectedCell == Some(SelectedCell(area, stage)) && drillDown == (area, stage)
      ensures zoomLevel == old(zoomLevel)
    {
      selectedCell := Some(SelectedCell(area, stage));
      drillDown := (area, stage);
    }

    /** "Ver Detalles", shown only with a selection: `onDrillDown` gets the selected area and stage again. */
    method HandleDetailsClick() returns (drillDown: Option<(string, Stage)>)
      ensures drillDown.None? <==> selectedCell.None?
      ensures selectedCell.Some? ==> drillDown == Some((selectedCell.value.area, selectedCell.value.stage))
    {
      if selectedCell.None? {
        drillDown := None;
      } else {
        drillDown := Some((selectedCell.value.area, selectedCell.value.stage));
      }
    }

    /**
     * Whether a cell wears the ring, with the test as the page writes it: no
     * cell ever does, whatever was clicked (`Highlighted` is the intended test).
     */
    function Ringed(area: string, stage: Stage): (ringed: bool)
      reads this
      ensures !ringed
    {
      NoCellEverHighlighted(selectedCell, area, stage);
      HighlightedAsWritten(selectedCell, area, stage)
    }
  }
}
