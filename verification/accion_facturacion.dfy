/**
 * The billing widget (`AccionFacturacion`): administration first answers
 * whether the purchase order is valid (`ordenValida`, unanswered, yes or no)
 * and only after a yes may emit the invoice. A no blocks the flow: nothing
 * in the widget ever clears the answer.
 */
module AccionFacturacion {
  import opened Wrappers
  import opened GestionDetalle

  /**
   * `handleEmitirFactura`: status PENDIENTE_PAGO and one entry signed
   * "Administración"; every other field kept.
   */
  function EmitirFactura(g: Gestion, fecha: string): (r: Gestion)
    ensures r.estado == PendientePago
    ensures AppendsEntry(g.historial, r.historial,
                         Entrada(fecha, "Administración", "Emisión de factura", None))
    ensures SameCase(g, r) && r.documentos == g.documentos && r.responsable == g.responsable
    ensures r.comentariosRechazo == g.comentariosRechazo
  {
    g.(estado := PendientePago,
       historial := g.historial + [Entrada(fecha, "Administración", "Emisión de factura", None)])
  }

  /**
   * A click on "Sí" (`v`) or "No" (`!v`): the buttons exist only while the
   * question is unanswered, so an answer is recorded once and then kept.
   */
  function Answer(orden: Option<bool>, v: bool): (r: Option<bool>)
    ensures orden.None? ==> r == Some(v)
    ensures orden.Some? ==> r == orden
  {
    if orden.None? then Some(v) else orden
  }

  /** The answer after a sequence of clicks on the two buttons. */
  function AnswerAll(orden: Option<bool>, clicks: seq<bool>): Option<bool>
    decreases |clicks|
  {
    if |clicks| == 0 then orden else AnswerAll(Answer(orden, clicks[0]), clicks[1..])
  }

  /** Once the order is declared invalid no click brings back the question or the invoice. */
  lemma {:induction false} BlockedStaysBlocked(clicks: seq<bool>)
    ensures AnswerAll(Some(false), clicks) == Some(false)
    decreases |clicks|
  {
    if |clicks| > 0 {
      BlockedStaysBlocked(clicks[1..]);
    }
  }

  /** The widget and its `ordenValida` state. */
  class FacturacionPanel {
    var ordenValida: Option<bool>

    constructor ()
      ensures ordenValida.None?
    {
      ordenValida := None;
    }

    /** The validity question is on screen. */
    predicate QuestionShown()
      reads this
    {
      ordenValida.None?
    }

    /** The "Emitir Factura" button is on screen. */
    predicate EmitShown()
      reads this
    {
      ordenValida == Some(true)
    }

    /** The blocking notice is on screen. */
    predicate BlockedShown()
      reads this
    {
      ordenValida == Some(false)
    }

    /** A click on "Sí" or "No". */
    method AnswerClick(v: bool)
      modifies this
      ensures ordenValida == Answer(old(ordenValida), v)
    {
      if ordenValida.None? {
        ordenValida := Some(v);
      }
    }

    /** A click on "Emitir Factura", which is there to click only after a yes. */
    method EmitClick(page: GestionPage, fecha: string)
      modifies page
      ensures EmitShown() ==> page.gestion == EmitirFactura(old(page.gestion), fecha)
      ensures !EmitShown() ==> page.gestion == old(page.gestion)
    {
      if ordenValida == Some(true) {
        var prev := page.gestion;
        page.gestion := prev.(estado := PendientePago,
                              historial := prev.historial
                                + [Entrada(fecha, "Administración", "Emisión de factura", None)]);
      }
    }
  }
}
