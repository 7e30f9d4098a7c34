/**
 * The upload widget (`AccionSubirInforme`): the responsible professional
 * attaches the final report and sends the case for approval. While the case
 * needs correction the widget also shows the manager's comment.
 */
module AccionSubirInforme {
  import opened Wrappers
  import opened GestionDetalle

  /** The document every upload attaches. */
  const InformeFinal := Documento("informe_final_v1.pdf", "/docs/informe_final_v1.pdf")

  /**
   * `handleSubirInforme`: status PENDIENTE_APROBACION_GM, the report placed
   * last in `documentos`, one entry by the signed-in user, the rejection
   * comment cleared; identifier, name and responsible kept.
   */
  function SubirInforme(g: Gestion, user: Persona, fecha: string): (r: Gestion)
    ensures r.estado == PendienteAprobacionGM && r.comentariosRechazo == ""
    ensures |r.documentos| == |g.documentos| + 1
    ensures r.documentos[..|g.documentos|] == g.documentos && r.documentos[|g.documentos|] == InformeFinal
    ensures AppendsEntry(g.historial, r.historial,
                         Entrada(fecha, user.nombre, "Subida de informe", None))
    ensures SameCase(g, r) && r.responsable == g.responsable
  {
    g.(estado := PendienteAprobacionGM,
       documentos := g.documentos + [InformeFinal],
       historial := g.historial + [Entrada(fecha, user.nombre, "Subida de informe", None)],
       comentariosRechazo := "")
  }

  /** The correction banner: shown, with the manager's comment quoted, exactly while the case needs correction. */
  function CorrectionBanner(g: Gestion): (b: Option<string>)
    ensures b.Some? <==> g.estado == RequiereCorreccion
    ensures b.Some? ==> b.value == "El Gestor General ha solicitado cambios: \"" + g.comentariosRechazo + "\""
  {
    if g.estado == RequiereCorreccion
    then Some("El Gestor General ha solicitado cambios: \"" + g.comentariosRechazo + "\"")
    else None
  }

  method HandleSubirInforme(page: GestionPage, fecha: string)
    modifies page
    ensures page.gestion == SubirInforme(old(page.gestion), page.currentUser, fecha)
  {
    var prev := page.gestion;
    page.gestion := prev.(estado := PendienteAprobacionGM,
                          documentos := prev.documentos + [InformeFinal],
                          historial := prev.historial
                            + [Entrada(fecha, page.currentUser.nombre, "Subida de informe", None)],
                          comentariosRechazo := "");
  }

  /** An upload after a rejection takes the banner away again. */
  lemma UploadClearsBanner(g: Gestion, user: Persona, fecha: string)
    ensures CorrectionBanner(SubirInforme(g, user, fecha)).None?
  {
  }
}
