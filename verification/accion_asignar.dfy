/**
 * The assignment widget (`AccionAsignar`): the general manager assigns the
 * case to the one simulated professional, and a deferred step later moves it
 * on to EN_EJECUCION. The deferred step is modelled as its own operation,
 * which the caller performs once the delay has passed.
 */
module AccionAsignar {
  import opened Wrappers
  import opened GestionDetalle

  /** The audit text of an assignment to `p`. */
  function AsignacionText(p: Persona): string {
    "Asignación a " + p.nombre
  }

  /**
   * `handleAsignar`, immediate part: status ASIGNADA, Alicia Vega responsible,
   * one entry by the signed-in user; documents and rejection comment kept.
   */
  function Asignar(g: Gestion, user: Persona, fecha: string): (r: Gestion)
    ensures r.estado == Asignada && r.responsable == Some(AliciaVega)
    ensures AppendsEntry(g.historial, r.historial,
                         Entrada(fecha, user.nombre, "Asignación a Alicia Vega", None))
    ensures SameCase(g, r) && r.documentos == g.documentos
    ensures r.comentariosRechazo == g.comentariosRechazo
  {
    g.(estado := Asignada,
       responsable := Some(AliciaVega),
       historial := g.historial + [Entrada(fecha, user.nombre, AsignacionText(AliciaVega), None)])
  }

  /** The deferred part: only the status changes, to EN_EJECUCION; nothing is logged. */
  function IniciarEjecucion(g: Gestion): (r: Gestion)
    ensures r.estado == EnEjecucion
    ensures r.historial == g.historial && r.responsable == g.responsable
    ensures SameCase(g, r) && r.documentos == g.documentos
    ensures r.comentariosRechazo == g.comentariosRechazo
  {
    g.(estado := EnEjecucion)
  }

  /** The immediate update of `handleAsignar` on the page's state. */
  method HandleAsignar(page: GestionPage, fecha: string)
    modifies page
    ensures page.gestion == Asignar(old(page.gestion), page.currentUser, fecha)
  {
    var prev := page.gestion;
    page.gestion := prev.(estado := Asignada,
                          responsable := Some(AliciaVega),
                          historial := prev.historial
                            + [Entrada(fecha, page.currentUser.nombre, AsignacionText(AliciaVega), None)]);
  }

  /** The timer callback: overwrites the status of whatever the case holds by then. */
  method TimerFires(page: GestionPage)
    modifies page
    ensures page.gestion == IniciarEjecucion(old(page.gestion))
  {
    page.gestion := page.gestion.(estado := EnEjecucion);
  }

  /** After both parts the assigned professional, and no one else, is offered the upload. */
  lemma AssignedProfessionalUploads(g: Gestion, gm: Persona, fecha: string, user: Persona)
    ensures var r := IniciarEjecucion(Asignar(g, gm, fecha));
            (RenderCurrentAction(r, user) == Action(SubirInformeWidget)
             <==> user.rol == Profesional && user.nombre == "Alicia Vega")
  {
  }
}
