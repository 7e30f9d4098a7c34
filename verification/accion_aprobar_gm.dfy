/**
 * The approval widget (`AccionAprobarGM`): the general manager approves the
 * report, or rejects it with the comment typed into the widget's text area.
 * An empty comment stops the rejection with an alert.
 */
module AccionAprobarGM {
  import opened Wrappers
  import opened GestionDetalle

  /**
   * `handleAprobar`: status EN_ADMINISTRACION and one entry, always signed
   * "Gestor General" whoever approves; documents, responsible and comment kept.
   */
  function Aprobar(g: Gestion, fecha: string): (r: Gestion)
    ensures r.estado == EnAdministracion
    ensures AppendsEntry(g.historial, r.historial,
                         Entrada(fecha, "Gestor General", "Aprobación de informe", None))
    ensures SameCase(g, r) && r.documentos == g.documentos && r.responsable == g.responsable
    ensures r.comentariosRechazo == g.comentariosRechazo
  {
    g.(estado := EnAdministracion,
       historial := g.historial + [Entrada(fecha, "Gestor General", "Aprobación de informe", None)])
  }

  /**
   * The guard of `handleRechazarClick`: the text `onRechazar` receives, or
   * nothing when the comment is empty. White space alone is not empty.
   */
  function RechazoGuard(comentarios: string): (r: Option<string>)
    ensures r.None? <==> comentarios == ""
    ensures r.Some? ==> r.value == comentarios
  {
    if comentarios == "" then None else Some(comentarios)
  }

  /** The widget and its `comentarios` text area. */
  class AprobarPanel {
    var comentarios: string

    constructor ()
      ensures comentarios == ""
    {
      comentarios := "";
    }

    /** The text area's `onChange`. */
    method SetComentarios(text: string)
      modifies this
      ensures comentarios == text
    {
      comentarios := text;
    }

    method HandleAprobar(page: GestionPage, fecha: string)
      modifies page
      ensures page.gestion == Aprobar(old(page.gestion), fecha)
    {
      var prev := page.gestion;
      page.gestion := prev.(estado := EnAdministracion,
                            historial := prev.historial
                              + [Entrada(fecha, "Gestor General", "Aprobación de informe", None)]);
    }

    /** `handleRechazarClick`: rejects with the typed comment, or leaves the case alone when there is none. */
    method HandleRechazarClick(page: GestionPage, fecha: string)
      modifies page
      ensures comentarios == "" ==> page.gestion == old(page.gestion)
      ensures comentarios != "" ==> page.gestion == Rechazar(old(page.gestion), page.currentUser, comentarios, fecha)
    {
      var sent := RechazoGuard(comentarios);
      if sent.None? {
        return;
      }
      page.HandleRechazarInforme(sent.value, fecha);
    }
  }
}
