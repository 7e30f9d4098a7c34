/**
 * The case-detail page (`GestionDetalle`): the case record, the stub for the
 * signed-in user, the case as the page loads it, the rejection handler, and
 * the dispatcher that picks the one action widget, or the one waiting
 * message, that the page shows for the case's status and the user.
 */
module GestionDetalle {
  import opened Wrappers

  /** The nine statuses the page knows (`estado`). */
  datatype Estado =
    | Nueva
    | PendienteAsignacion
    | Asignada
    | EnEjecucion
    | PendienteAprobacionGM
    | EnAdministracion
    | PendientePago
    | Finalizada
    | RequiereCorreccion

  /** The status as the page prints it. */
  function EstadoName(e: Estado): string {
    match e
    case Nueva => "NUEVA"
    case PendienteAsignacion => "PENDIENTE_ASIGNACION"
    case Asignada => "ASIGNADA"
    case EnEjecucion => "EN_EJECUCION"
    case PendienteAprobacionGM => "PENDIENTE_APROBACION_GM"
    case EnAdministracion => "EN_ADMINISTRACION"
    case PendientePago => "PENDIENTE_PAGO"
    case Finalizada => "FINALIZADA"
    case RequiereCorreccion => "REQUIERE_CORRECCION"
  }

  datatype Rol = GestorGeneral | Profesional | Administracion | Cliente

  /** A person: the signed-in user, or the professional responsible for the case. */
  datatype Persona = Persona(nombre: string, rol: Rol)

  datatype Documento = Documento(nombre: string, url: string)

  /** One audit entry of `historial`; `comentarios` is present only on a rejection. */
  datatype Entrada = Entrada(fecha: string, usuario: string, accion: string, comentarios: Option<string>)

  datatype Gestion = Gestion(
    id: Option<string>,
    nombre: string,
    estado: Estado,
    responsable: Option<Persona>,
    documentos: seq<Documento>,
    historial: seq<Entrada>,
    comentariosRechazo: string)

  /** `after` is `before` with exactly one more entry, `e`, at its end. */
  predicate AppendsEntry(before: seq<Entrada>, after: seq<Entrada>, e: Entrada) {
    |after| == |before| + 1 && after[..|before|] == before && after[|before|] == e
  }

  /** `r` is still the same case: its identifier and name have not changed. */
  predicate SameCase(g: Gestion, r: Gestion) {
    r.id == g.id && r.nombre == g.nombre
  }

  /** The stub `useCurrentUser` hook: always the same general manager. */
  function CurrentUserStub(): (u: Persona)
    ensures u.rol == GestorGeneral && u.nombre == "Carlos Rodriguez"
  {
    Persona("Carlos Rodriguez", GestorGeneral)
  }

  /** `initialGestionState`: the empty case the page holds before it has loaded one. */
  function InitialGestionState(): (g: Gestion)
    ensures g.id.None? && g.estado == Nueva && g.responsable.None?
    ensures g.documentos == [] && g.historial == [] && g.comentariosRechazo == ""
  {
    Gestion(None, "", Nueva, None, [], [], "")
  }

  /** The professional every case is assigned to. */
  const AliciaVega := Persona("Alicia Vega", Profesional)

  /** The case the page loads for route parameter `id`, waiting to be assigned. */
  function LoadedGestion(id: string): (g: Gestion)
    ensures g.id == Some(id) && g.nombre == "Gestión de Proyecto #" + id
    ensures g.estado == PendienteAsignacion && g.responsable == Some(AliciaVega)
    ensures g.documentos == [] && g.comentariosRechazo == ""
    ensures |g.historial| == 1 && g.historial[0].usuario == "Cliente"
    ensures g.historial[0].accion == "Creación de la gestión"
  {
    Gestion(
      Some(id),
      "Gestión de Proyecto #" + id,
      PendienteAsignacion,
      Some(AliciaVega),
      [],
      [Entrada("2025-11-05T10:00:00Z", "Cliente", "Creación de la gestión", None)],
      "")
  }

  /**
   * `handleRechazarInforme`: the general manager sends the report back. The
   * case moves to REQUIERE_CORRECCION, keeps the comment, and logs one entry
   * by the signed-in user; `fecha` is the clock reading the entry records.
   */
  function Rechazar(g: Gestion, user: Persona, comentarios: string, fecha: string): (r: Gestion)
    ensures r.estado == RequiereCorreccion && r.comentariosRechazo == comentarios
    ensures AppendsEntry(g.historial, r.historial,
                         Entrada(fecha, user.nombre, "Rechazo de informe", Some(comentarios)))
    ensures SameCase(g, r) && r.responsable == g.responsable && r.documentos == g.documentos
  {
    g.(estado := RequiereCorreccion,
       historial := g.historial + [Entrada(fecha, user.nombre, "Rechazo de informe", Some(comentarios))],
       comentariosRechazo := comentarios)
  }

  /** The action widgets the page can show. */
  datatype Widget = AsignarWidget | SubirInformeWidget | AprobarGMWidget | FacturacionWidget

  /** What `renderCurrentAction` returns: one widget or one sentence. */
  datatype View = Action(widget: Widget) | Message(text: string)

  /** The user is the professional responsible for the case; no one is responsible for a case with none. */
  predicate IsResponsable(g: Gestion, user: Persona) {
    user.rol == Profesional && g.responsable.Some? && user.nombre == g.responsable.value.nombre
  }

  /**
   * `renderCurrentAction`: for every status and user exactly one outcome.
   * Each widget is offered for one status (two for the upload) and only to
   * the role that acts there; every other pair gets a sentence, and so do
   * NUEVA, ASIGNADA, PENDIENTE_PAGO and FINALIZADA whoever asks.
   */
  function RenderCurrentAction(g: Gestion, user: Persona): (v: View)
    ensures v == Action(AsignarWidget) <==> g.estado == PendienteAsignacion && user.rol == GestorGeneral
    ensures v == Action(SubirInformeWidget) <==>
              (g.estado == EnEjecucion || g.estado == RequiereCorreccion) && IsResponsable(g, user)
    ensures v == Action(AprobarGMWidget) <==> g.estado == PendienteAprobacionGM && user.rol == GestorGeneral
    ensures v == Action(FacturacionWidget) <==> g.estado == EnAdministracion && user.rol == Administracion
    ensures g.estado == Nueva || g.estado == Asignada || g.estado == PendientePago || g.estado == Finalizada ==> v.Message?
  {
    match g.estado
    case PendienteAsignacion =>
      if user.rol == GestorGeneral then Action(AsignarWidget)
      else Message("Esperando asignación por parte del Gestor General.")
    case EnEjecucion | RequiereCorreccion =>
      if IsResponsable(g, user) then Action(SubirInformeWidget)
      else Message("El profesional asignado está trabajando en el informe.")
    case PendienteAprobacionGM =>
      if user.rol == GestorGeneral then Action(AprobarGMWidget)
      else Message("Informe pendiente de aprobación por el Gestor General.")
    case EnAdministracion =>
      if user.rol == Administracion then Action(FacturacionWidget)
      else Message("El equipo de administración está procesando la facturación.")
    case PendientePago => Message("Factura emitida. Esperando confirmación de pago del cliente.")
    case Finalizada => Message("Gestión completada y archivada.")
    case _ => Message("El estado de la gestión es: " + EstadoName(g.estado))
  }

  /** The page's `gestion` state slot, shared with the action widgets through `setGestion`. */
  class GestionPage {
    var gestion: Gestion
    const currentUser: Persona

    /** The page after its load effect has run for route parameter `id`. */
    constructor (id: string, user: Persona)
      ensures gestion == LoadedGestion(id) && currentUser == user
    {
      gestion := LoadedGestion(id);
      currentUser := user;
    }

    /** What the page shows now. */
    function CurrentAction(): View
      reads this
    {
      RenderCurrentAction(gestion, currentUser)
    }

    /** `handleRechazarInforme`, the callback the approval widget calls. */
    method HandleRechazarInforme(comentarios: string, fecha: string)
      modifies this
      ensures gestion == Rechazar(old(gestion), currentUser, comentarios, fecha)
    {
      gestion := gestion.(estado := RequiereCorreccion,
                          historial := gestion.historial
                            + [Entrada(fecha, currentUser.nombre, "Rechazo de informe", Some(comentarios))],
                          comentariosRechazo := comentarios);
    }
  }
}
