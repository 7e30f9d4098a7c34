/**
 * The case workflow as a state machine. A state is the case together with
 * what the mounted widgets hold between two events: whether the assignment
 * timer is still pending, and the billing widget's `ordenValida` answer.
 * An event is a click (or the timer firing); a click is possible only on a
 * widget the dispatcher shows to the user who clicks.
 */
module GestionLifecycle {
  import opened Wrappers
  import opened GestionDetalle
  import AccionAsignar
  import AccionSubirInforme
  import AccionAprobarGM
  import AccionFacturacion

  datatype Machine = Machine(g: Gestion, timerPending: bool, ordenValida: Option<bool>)

  datatype Event =
    | ClickAsignar(fecha: string)
    | TimerFires
    | ClickSubirInforme(fecha: string)
    | ClickAprobar(fecha: string)
    | ClickRechazar(comentarios: string, fecha: string)
    | ClickOrden(valida: bool)
    | ClickEmitir(fecha: string)

  /** The page right after it has loaded case `id`. */
  function Init(id: string): Machine {
    Machine(LoadedGestion(id), false, None)
  }

  /**
   * One event by `user`; `None` when the event is not possible (its widget is
   * not shown to `user`, or the timer is not pending). A rejection with an
   * empty comment is possible but changes nothing. The billing widget goes
   * away with the invoice, and its answer with it.
   */
  function Step(m: Machine, user: Persona, e: Event): Option<Machine> {
    var view := RenderCurrentAction(m.g, user);
    match e
    case ClickAsignar(fecha) =>
      if view == Action(AsignarWidget)
      then Some(m.(g := AccionAsignar.Asignar(m.g, user, fecha), timerPending := true))
      else None
    case TimerFires =>
      if m.timerPending
      then Some(m.(g := AccionAsignar.IniciarEjecucion(m.g), timerPending := false))
      else None
    case ClickSubirInforme(fecha) =>
      if view == Action(SubirInformeWidget)
      then Some(m.(g := AccionSubirInforme.SubirInforme(m.g, user, fecha)))
      else None
    case ClickAprobar(fecha) =>
      if view == Action(AprobarGMWidget)
      then Some(m.(g := AccionAprobarGM.Aprobar(m.g, fecha)))
      else None
    case ClickRechazar(comentarios, fecha) =>
      if view != Action(AprobarGMWidget) then None
      else
        (match AccionAprobarGM.RechazoGuard(comentarios)
         case None => Some(m)
         case Some(text) => Some(m.(g := Rechazar(m.g, user, text, fecha))))
    case ClickOrden(valida) =>
      if view == Action(FacturacionWidget) && m.ordenValida.None?
      then Some(m.(ordenValida := AccionFacturacion.Answer(m.ordenValida, valida)))
      else None
    case ClickEmitir(fecha) =>
      if view == Action(FacturacionWidget) && m.ordenValida == Some(true)
      then Some(m.(g := AccionFacturacion.EmitirFactura(m.g, fecha), ordenValida := None))
      else None
  }

  /** Events by the given users, one after the other; `None` as soon as one is not possible. */
  function Run(m: Machine, trace: seq<(Persona, Event)>): Option<Machine>
    decreases |trace|
  {
    if |trace| == 0 then Some(m)
    else
      match Step(m, trace[0].0, trace[0].1)
      case None => None
      case Some(next) => Run(next, trace[1..])
  }

  /** The events that write an audit entry. */
  predicate Logs(e: Event) {
    match e
    case TimerFires => false
    case ClickOrden(_) => false
    case ClickRechazar(comentarios, _) => comentarios != ""
    case _ => true
  }

  predicate IsPrefix<T(==)>(a: seq<T>, b: seq<T>) {
    |a| <= |b| && b[..|a|] == a
  }

  /** Statuses at which a report has been uploaded. */
  predicate ReportStage(e: Estado) {
    e == PendienteAprobacionGM || e == EnAdministracion || e == PendientePago || e == RequiereCorreccion
  }

  /**
   * What holds in every state reachable from a loaded case: never NUEVA or
   * FINALIZADA; the timer is pending exactly while the case is ASIGNADA; a
   * rejection comment is held exactly while the case needs correction; the
   * billing answer exists only while billing; Alicia Vega is responsible; and
   * from approval on there is a document to look at.
   */
  predicate Inv(m: Machine) {
    && m.g.estado != Nueva && m.g.estado != Finalizada
    && (m.timerPending <==> m.g.estado == Asignada)
    && (m.g.comentariosRechazo != "" <==> m.g.estado == RequiereCorreccion)
    && (m.ordenValida.Some? ==> m.g.estado == EnAdministracion)
    && m.g.responsable == Some(AliciaVega)
    && (ReportStage(m.g.estado) ==> |m.g.documentos| > 0)
  }

  lemma InitInv(id: string)
    ensures Inv(Init(id))
  {
  }

  lemma StepInv(m: Machine, user: Persona, e: Event)
    requires Inv(m) && Step(m, user, e).Some?
    ensures Inv(Step(m, user, e).value)
  {
  }

  lemma {:induction false} RunInv(m: Machine, trace: seq<(Persona, Event)>)
    requires Inv(m) && Run(m, trace).Some?
    ensures Inv(Run(m, trace).value)
    decreases |trace|
  {
    if |trace| > 0 {
      StepInv(m, trace[0].0, trace[0].1);
      RunInv(Step(m, trace[0].0, trace[0].1).value, trace[1..]);
    }
  }

  /** No sequence of events takes a loaded case to FINALIZADA, nor back to NUEVA. */
  lemma FinalizadaUnreachable(id: string, trace: seq<(Persona, Event)>)
    requires Run(Init(id), trace).Some?
    ensures Run(Init(id), trace).value.g.estado != Finalizada
    ensures Run(Init(id), trace).value.g.estado != Nueva
  {
    InitInv(id);
    RunInv(Init(id), trace);
  }

  /** One event: the old history is kept as a prefix, one entry is added exactly when the event logs, and the case stays the same case. */
  lemma StepHistory(m: Machine, user: Persona, e: Event)
    requires Step(m, user, e).Some?
    ensures var n := Step(m, user, e).value;
            && IsPrefix(m.g.historial, n.g.historial)
            && |n.g.historial| == |m.g.historial| + (if Logs(e) then 1 else 0)
            && SameCase(m.g, n.g)
  {
  }

  /** Over any run the history only grows, by one entry per logging event, and the case keeps its identity. */
  lemma {:induction false} RunHistory(m: Machine, trace: seq<(Persona, Event)>)
    requires Run(m, trace).Some?
    ensures IsPrefix(m.g.historial, Run(m, trace).value.g.historial)
    ensures |Run(m, trace).value.g.historial| == |m.g.historial| + LoggedCount(trace)
    ensures SameCase(m.g, Run(m, trace).value.g)
    decreases |trace|
  {
    if |trace| > 0 {
      var n := Step(m, trace[0].0, trace[0].1).value;
      StepHistory(m, trace[0].0, trace[0].1);
      RunHistory(n, trace[1..]);
      var last := Run(m, trace).value;
      assert last == Run(n, trace[1..]).value;
      assert last.g.historial[..|m.g.historial|] == last.g.historial[..|n.g.historial|][..|m.g.historial|];
    }
  }

  /** How many events of the trace log an entry. */
  function LoggedCount(trace: seq<(Persona, Event)>): nat
    decreases |trace|
  {
    if |trace| == 0 then 0 else (if Logs(trace[0].1) then 1 else 0) + LoggedCount(trace[1..])
  }

  /** PENDIENTE_PAGO is the end of the line: no event of anyone is possible there. */
  lemma NoStepFromPendientePago(m: Machine, user: Persona, e: Event)
    requires Inv(m) && m.g.estado == PendientePago
    ensures Step(m, user, e).None?
  {
  }

  /** A rejected purchase order blocks the case for good: no event of anyone is possible. */
  lemma NoStepWhenOrderInvalid(m: Machine, user: Persona, e: Event)
    requires Inv(m) && m.ordenValida == Some(false)
    ensures Step(m, user, e).None?
  {
  }

  /** From a blocked state the only run is the empty one. */
  lemma {:induction false} BlockedRunsAreEmpty(m: Machine, trace: seq<(Persona, Event)>)
    requires Inv(m) && (m.g.estado == PendientePago || m.ordenValida == Some(false))
    requires Run(m, trace).Some?
    ensures trace == [] && Run(m, trace).value == m
  {
    if |trace| > 0 {
      if m.g.estado == PendientePago {
        NoStepFromPendientePago(m, trace[0].0, trace[0].1);
      } else {
        NoStepWhenOrderInvalid(m, trace[0].0, trace[0].1);
      }
    }
  }

  /**
   * With the page's stub user, the general manager, the case gets assigned
   * and goes into execution, and then waits for ever: the stub can never
   * upload, so no state from approval on is reachable.
   */
  lemma {:induction false} StubUserStopsAtExecution(m: Machine, trace: seq<(Persona, Event)>)
    requires Inv(m) && (m.g.estado == PendienteAsignacion || m.g.estado == Asignada || m.g.estado == EnEjecucion)
    requires forall k :: 0 <= k < |trace| ==> trace[k].0 == CurrentUserStub()
    requires Run(m, trace).Some?
    ensures var e := Run(m, trace).value.g.estado;
            e == PendienteAsignacion || e == Asignada || e == EnEjecucion
    decreases |trace|
  {
    if |trace| > 0 {
      var n := Step(m, trace[0].0, trace[0].1).value;
      StepInv(m, trace[0].0, trace[0].1);
      assert forall k :: 0 <= k < |trace[1..]| ==> trace[1..][k].0 == CurrentUserStub() by {
        forall k | 0 <= k < |trace[1..]| ensures trace[1..][k].0 == CurrentUserStub() {
          assert trace[1..][k] == trace[k + 1];
        }
      }
      StubUserStopsAtExecution(n, trace[1..]);
    }
  }

  /** Running two traces one after the other is running their concatenation. */
  lemma {:induction false} RunAppend(m: Machine, a: seq<(Persona, Event)>, b: seq<(Persona, Event)>)
    ensures Run(m, a + b) == if Run(m, a).Some? then Run(Run(m, a).value, b) else None
    decreases |a|
  {
    if |a| == 0 {
      assert a + b == b;
    } else {
      assert (a + b)[0] == a[0] && (a + b)[1..] == a[1..] + b;
      match Step(m, a[0].0, a[0].1)
      case None =>
      case Some(next) => RunAppend(next, a[1..], b);
    }
  }

  /** The machine waits in status `e` with Alicia Vega responsible, no timer pending and no order answer. */
  predicate At(m: Machine, e: Estado) {
    m.g.estado == e && m.g.responsable == Some(AliciaVega) && !m.timerPending && m.ordenValida.None?
  }

  /** The general manager assigns, and the timer then starts the execution; one entry is logged. */
  lemma AssignAndStart(m: Machine)
    requires At(m, PendienteAsignacion)
    ensures var gm := Persona("Carlos Rodriguez", GestorGeneral);
            var r := Run(m, [(gm, ClickAsignar("t1")), (gm, TimerFires)]);
            r.Some? && At(r.value, EnEjecucion)
            && |r.value.g.historial| == |m.g.historial| + 1 && |r.value.g.documentos| == |m.g.documentos|
  {
    var gm := Persona("Carlos Rodriguez", GestorGeneral);
    var trace := [(gm, ClickAsignar("t1")), (gm, TimerFires)];
    var m1 := Step(m, gm, ClickAsignar("t1")).value;
    var m2 := Step(m1, gm, TimerFires).value;
    assert Run(m2, trace[2..]) == Some(m2);
    assert Run(m1, trace[1..]) == Some(m2);
  }

  /** The report is uploaded; an empty rejection does nothing; a commented one sends it back. */
  lemma UploadAndReject(m: Machine)
    requires At(m, EnEjecucion)
    ensures var gm := Persona("Carlos Rodriguez", GestorGeneral);
            var r := Run(m, [(AliciaVega, ClickSubirInforme("t2")), (gm, ClickRechazar("", "t3")),
                             (gm, ClickRechazar("falta anexo", "t3"))]);
            r.Some? && At(r.value, RequiereCorreccion)
            && |r.value.g.historial| == |m.g.historial| + 2 && |r.value.g.documentos| == |m.g.documentos| + 1
  {
    var gm := Persona("Carlos Rodriguez", GestorGeneral);
    var pro := AliciaVega;
    var trace := [(pro, ClickSubirInforme("t2")), (gm, ClickRechazar("", "t3")), (gm, ClickRechazar("falta anexo", "t3"))];
    assert RenderCurrentAction(m.g, pro) == Action(SubirInformeWidget);
    var m1 := Step(m, pro, ClickSubirInforme("t2")).value;
    assert m1.g.estado == PendienteAprobacionGM;
    var m2 := Step(m1, gm, ClickRechazar("", "t3")).value;
    assert m2 == m1;
    var m3 := Step(m2, gm, ClickRechazar("falta anexo", "t3")).value;
    assert Run(m3, trace[3..]) == Some(m3);
    assert Run(m2, trace[2..]) == Some(m3);
    assert Run(m1, trace[1..]) == Some(m3);
  }

  /** The corrected report is uploaded and approved; two entries are logged. */
  lemma CorrectAndApprove(m: Machine)
    requires At(m, RequiereCorreccion)
    ensures var gm := Persona("Carlos Rodriguez", GestorGeneral);
            var r := Run(m, [(AliciaVega, ClickSubirInforme("t4")), (gm, ClickAprobar("t5"))]);
            r.Some? && At(r.value, EnAdministracion)
            && |r.value.g.historial| == |m.g.historial| + 2 && |r.value.g.documentos| == |m.g.documentos| + 1
  {
    var gm := Persona("Carlos Rodriguez", GestorGeneral);
    var pro := AliciaVega;
    var trace := [(pro, ClickSubirInforme("t4")), (gm, ClickAprobar("t5"))];
    assert RenderCurrentAction(m.g, pro) == Action(SubirInformeWidget);
    var m1 := Step(m, pro, ClickSubirInforme("t4")).value;
    assert m1.g.estado == PendienteAprobacionGM;
    var m2 := Step(m1, gm, ClickAprobar("t5")).value;
    assert Run(m2, trace[2..]) == Some(m2);
    assert Run(m1, trace[1..]) == Some(m2);
  }

  /** Administration confirms the purchase order and emits the invoice; one entry is logged. */
  lemma ConfirmAndInvoice(m: Machine)
    requires At(m, EnAdministracion)
    ensures var admin := Persona("Ana", Administracion);
            var r := Run(m, [(admin, ClickOrden(true)), (admin, ClickEmitir("t6"))]);
            r.Some? && r.value.g.estado == PendientePago
            && |r.value.g.historial| == |m.g.historial| + 1 && |r.value.g.documentos| == |m.g.documentos|
  {
    var admin := Persona("Ana", Administracion);
    var trace := [(admin, ClickOrden(true)), (admin, ClickEmitir("t6"))];
    var m1 := Step(m, admin, ClickOrden(true)).value;
    assert m1.g == m.g && m1.ordenValida == Some(true);
    var m2 := Step(m1, admin, ClickEmitir("t6")).value;
    assert Run(m2, trace[2..]) == Some(m2);
    assert Run(m1, trace[1..]) == Some(m2);
  }

  /** The whole happy path, with one rejection on the way, reaches PENDIENTE_PAGO and logs seven entries. */
  lemma HappyPathWithOneRejection(id: string)
    ensures var gm := Persona("Carlos Rodriguez", GestorGeneral);
            var pro := AliciaVega;
            var admin := Persona("Ana", Administracion);
            var trace := [
              (gm, ClickAsignar("t1")), (gm, TimerFires), (pro, ClickSubirInforme("t2")),
              (gm, ClickRechazar("", "t3")), (gm, ClickRechazar("falta anexo", "t3")),
              (pro, ClickSubirInforme("t4")), (gm, ClickAprobar("t5")),
              (admin, ClickOrden(true)), (admin, ClickEmitir("t6"))];
            var r := Run(Init(id), trace);
            r.Some? && r.value.g.estado == PendientePago && |r.value.g.historial| == 7
            && |r.value.g.documentos| == 2
  {
    var gm := Persona("Carlos Rodriguez", GestorGeneral);
    var pro := AliciaVega;
    var admin := Persona("Ana", Administracion);
    var a := [(gm, ClickAsignar("t1")), (gm, TimerFires)];
    var b := [(pro, ClickSubirInforme("t2")), (gm, ClickRechazar("", "t3")), (gm, ClickRechazar("falta anexo", "t3"))];
    var c := [(pro, ClickSubirInforme("t4")), (gm, ClickAprobar("t5"))];
    var d := [(admin, ClickOrden(true)), (admin, ClickEmitir("t6"))];
    var m0 := Init(id);
    AssignAndStart(m0);
    var m1 := Run(m0, a).value;
    UploadAndReject(m1);
    var m2 := Run(m1, b).value;
    CorrectAndApprove(m2);
    var m3 := Run(m2, c).value;
    ConfirmAndInvoice(m3);
    assert Run(m2, c + d) == Run(m3, d) by { RunAppend(m2, c, d); }
    assert Run(m1, b + (c + d)) == Run(m2, c + d) by { RunAppend(m1, b, c + d); }
    assert Run(m0, a + (b + (c + d))) == Run(m1, b + (c + d)) by { RunAppend(m0, a, b + (c + d)); }
    HappyTraceSegments(gm, pro, admin);
  }

  /** The happy path's trace is its four segments one after the other. */
  lemma HappyTraceSegments(gm: Persona, pro: Persona, admin: Persona)
    ensures [(gm, ClickAsignar("t1")), (gm, TimerFires)]
            + ([(pro, ClickSubirInforme("t2")), (gm, ClickRechazar("", "t3")), (gm, ClickRechazar("falta anexo", "t3"))]
            + ([(pro, ClickSubirInforme("t4")), (gm, ClickAprobar("t5"))]
            + [(admin, ClickOrden(true)), (admin, ClickEmitir("t6"))]))
            == [(gm, ClickAsignar("t1")), (gm, TimerFires), (pro, ClickSubirInforme("t2")),
                (gm, ClickRechazar("", "t3")), (gm, ClickRechazar("falta anexo", "t3")),
                (pro, ClickSubirInforme("t4")), (gm, ClickAprobar("t5")),
                (admin, ClickOrden(true)), (admin, ClickEmitir("t6"))]
  {
  }
}
