/**
 * The template ranking of the performance-analysis page
 * (`WorkflowTemplateRanking`): the templates in the order the "sort by"
 * select asks for, a colour per efficiency band, and a rank per position.
 */
module WorkflowTemplateRanking {
  import opened Sorting

  datatype Template = Template(
    id: int,
    name: string,
    completionRate: real,
    avgCycleTime: real,
    totalTasks: int,
    efficiency: real)

  /** The six templates the component declares. */
  function MockTemplates(): seq<Template> {
    [
      Template(1, "Aprobación de Documentos", 94.5, 2.3, 1247, 96.0),
      Template(2, "Revisión de Código", 91.2, 1.8, 892, 93.0),
      Template(3, "Proceso de Contratación", 87.8, 5.2, 156, 89.0),
      Template(4, "Solicitud de Compras", 89.4, 3.1, 634, 91.0),
      Template(5, "Atención al Cliente", 92.7, 0.8, 2341, 95.0),
      Template(6, "Campaña de Marketing", 85.3, 7.2, 298, 86.0)
    ]
  }

  /** What each `sortBy` value compares; "performance" and any unknown value compare efficiency. */
  function TemplateKey(sortBy: string): Template -> SortKey {
    if sortBy == "completion" then (t: Template) => Num(t.completionRate)
    else if sortBy == "usage" then (t: Template) => Num(t.totalTasks as real)
    else if sortBy == "cycle" then (t: Template) => Num(t.avgCycleTime)
    else (t: Template) => Num(t.efficiency)
  }

  /** Only the cycle time is ranked shortest first; everything else largest first. */
  function TemplateDirection(sortBy: string): Direction {
    if sortBy == "cycle" then Asc else Desc
  }

  /**
   * `getSortedTemplates`: a sorted copy of the templates. The method may not
   * write to anything, so the declared list stays in its order.
   */
  method GetSortedTemplates(templates: seq<Template>, sortBy: string) returns (r: seq<Template>)
    ensures SortedBy(r, TemplateKey(sortBy), TemplateDirection(sortBy))
    ensures multiset(r) == multiset(templates)
  {
    r := SortedCopy(templates, TemplateKey(sortBy), TemplateDirection(sortBy));
  }

  /** What the order means for each choice of the select, between any two positions. */
  lemma SortedTemplatesOrder(r: seq<Template>, sortBy: string, i: int, j: int)
    requires SortedBy(r, TemplateKey(sortBy), TemplateDirection(sortBy))
    requires 0 <= i < j < |r|
    ensures sortBy == "completion" ==> r[i].completionRate >= r[j].completionRate
    ensures sortBy == "usage" ==> r[i].totalTasks >= r[j].totalTasks
    ensures sortBy == "cycle" ==> r[i].avgCycleTime <= r[j].avgCycleTime
    ensures sortBy !in {"completion", "usage", "cycle"} ==> r[i].efficiency >= r[j].efficiency
  {
    assert InOrder(TemplateKey(sortBy)(r[i]), TemplateKey(sortBy)(r[j]), TemplateDirection(sortBy));
  }

  datatype Band = Success | Accent | Warning | Error

  /** `getPerformanceColor`: 95 and up success, 90 accent, 85 warning, below error. */
  function PerformanceColor(efficiency: real): (b: Band)
    ensures b == Success <==> efficiency >= 95.0
    ensures b == Accent <==> 90.0 <= efficiency < 95.0
    ensures b == Warning <==> 85.0 <= efficiency < 90.0
    ensures b == Error <==> efficiency < 85.0
  {
    if efficiency >= 95.0 then Success
    else if efficiency >= 90.0 then Accent
    else if efficiency >= 85.0 then Warning
    else Error
  }

  function BandLevel(b: Band): nat {
    match b
    case Success => 3
    case Accent => 2
    case Warning => 1
    case Error => 0
  }

  /** A more efficient template never gets a worse colour. */
  lemma PerformanceColorMonotone(e1: real, e2: real)
    requires e1 <= e2
    ensures BandLevel(PerformanceColor(e1)) <= BandLevel(PerformanceColor(e2))
  {
  }

  /** Both views number the sorted templates `index + 1`. */
  function Ranked(r: seq<Template>): (ranked: seq<(int, Template)>)
    ensures |ranked| == |r|
    ensures forall i :: 0 <= i < |r| ==> ranked[i].1 == r[i]
  {
    seq(|r|, i requires 0 <= i < |r| => (i + 1, r[i]))
  }

  /** The ranks shown are exactly 1 to n: the first is 1, the last n, and each is one more than the one above. */
  lemma RanksAreOneToN(r: seq<Template>)
    ensures |r| > 0 ==> Ranked(r)[0].0 == 1 && Ranked(r)[|r| - 1].0 == |r|
    ensures forall i :: 0 <= i < |r| - 1 ==> Ranked(r)[i + 1].0 == Ranked(r)[i].0 + 1
  {
  }
}
