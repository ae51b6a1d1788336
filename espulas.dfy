/**
 * Status updates of a bobbin lot ("espula"). An update stores the requested
 * status string verbatim, with no transition check, refreshes `updatedAt`,
 * stamps `iniciadoEm` the first time the lot is moved to
 * "em_producao_aguardando" and stamps `finalizadoEm` on every move to
 * "finalizado".
 */
module Espulas {
  import opened Records

  /** The `$set` patch of one update; a `None` field is a key the patch does not carry. */
  datatype EspulaPatch = EspulaPatch(
    status: string, updatedAt: Time, iniciadoEm: Option<Time>, finalizadoEm: Option<Time>)

  /** The stored lot after the store applies a patch: keys the patch carries overwrite. */
  function ApplyPatch(e: Espula, p: EspulaPatch): Espula {
    e.(status := p.status,
       updatedAt := p.updatedAt,
       iniciadoEm := if p.iniciadoEm.Some? then p.iniciadoEm else e.iniciadoEm,
       finalizadoEm := if p.finalizadoEm.Some? then p.finalizadoEm else e.finalizadoEm)
  }

  /**
   * The lot after one status request made at `now`: the requested status and
   * `now` as its update stamp; the start stamp is set only by the first move
   * to "em_producao_aguardando" and never changes once set; the finish stamp
   * is renewed by every move to "finalizado"; nothing else changes.
   */
  function EspulaAfterUpdate(e: Espula, status: string, now: Time): (e': Espula)
    ensures e'.status == status && e'.updatedAt == now
    ensures e.iniciadoEm.Some? ==> e'.iniciadoEm == e.iniciadoEm
    ensures e'.iniciadoEm != e.iniciadoEm <==> status == EmProducaoAguardando && e.iniciadoEm.None?
    ensures e'.iniciadoEm != e.iniciadoEm ==> e'.iniciadoEm == Some(now)
    ensures e'.finalizadoEm == if status == Finalizado then Some(now) else e.finalizadoEm
    ensures e'.(status := e.status, updatedAt := e.updatedAt, iniciadoEm := e.iniciadoEm, finalizadoEm := e.finalizadoEm) == e
  {
    e.(status := status,
       updatedAt := now,
       iniciadoEm := if status == EmProducaoAguardando && e.iniciadoEm.None? then Some(now) else e.iniciadoEm,
       finalizadoEm := if status == Finalizado then Some(now) else e.finalizadoEm)
  }

  /**
   * Builds the patch for one status request, key by key: status and
   * `updatedAt` always, then at most one of the two history stamps.
   */
  method BuildPatch(e: Espula, status: string, now: Time) returns (p: EspulaPatch)
    ensures ApplyPatch(e, p) == EspulaAfterUpdate(e, status, now)
    ensures p.status == status && p.updatedAt == now
    ensures p.iniciadoEm.Some? ==> p.finalizadoEm.None?
  {
    p := EspulaPatch(status, now, None, None);
    if status == EmProducaoAguardando && e.iniciadoEm.None? {
      p := p.(iniciadoEm := Some(now));
    } else if status == Finalizado {
      p := p.(finalizadoEm := Some(now));
    }
  }

  /** One status request as it reaches the handler: the status and the instant. */
  datatype StatusRequest = StatusRequest(status: string, at: Time)

  /** The lot after a series of requests, applied in order. */
  function AfterRequests(e: Espula, rs: seq<StatusRequest>): Espula
    decreases |rs|
  {
    if rs == [] then e else AfterRequests(EspulaAfterUpdate(e, rs[0].status, rs[0].at), rs[1..])
  }

  /** The instant of the first request for "em_producao_aguardando", if any. */
  function FirstStart(rs: seq<StatusRequest>): Option<Time>
    decreases |rs|
  {
    if rs == [] then None
    else if rs[0].status == EmProducaoAguardando then Some(rs[0].at)
    else FirstStart(rs[1..])
  }

  /** The instant of the last request for "finalizado", or `prior` if there is none. */
  function LastFinish(rs: seq<StatusRequest>, prior: Option<Time>): Option<Time>
    decreases |rs|
  {
    if rs == [] then prior
    else if rs[|rs| - 1].status == Finalizado then Some(rs[|rs| - 1].at)
    else LastFinish(rs[..|rs| - 1], prior)
  }

  /**
   * The first-start stamp survives repeated starts: after any series of
   * requests it is the lot's original stamp if it had one, else the instant
   * of the first "em_producao_aguardando" request.
   */
  lemma {:induction false} FirstStartSurvives(e: Espula, rs: seq<StatusRequest>)
    ensures AfterRequests(e, rs).iniciadoEm ==
            if e.iniciadoEm.Some? then e.iniciadoEm else FirstStart(rs)
    decreases |rs|
  {
    if rs != [] {
      FirstStartSurvives(EspulaAfterUpdate(e, rs[0].status, rs[0].at), rs[1..]);
    }
  }

  /** Applying requests one batch after another is applying them all in order. */
  lemma {:induction false} AfterRequestsAppend(e: Espula, rs: seq<StatusRequest>, r: StatusRequest)
    ensures AfterRequests(e, rs + [r]) == EspulaAfterUpdate(AfterRequests(e, rs), r.status, r.at)
    decreases |rs|
  {
    if rs != [] {
      assert (rs + [r])[1..] == rs[1..] + [r];
      AfterRequestsAppend(EspulaAfterUpdate(e, rs[0].status, rs[0].at), rs[1..], r);
    }
  }

  /**
   * The finish stamp is renewed on every move to "finalizado": after any
   * series of requests it is the instant of the last such request, or the
   * lot's original stamp when there was none.
   */
  lemma {:induction false} FinishStampIsLatest(e: Espula, rs: seq<StatusRequest>)
    ensures AfterRequests(e, rs).finalizadoEm == LastFinish(rs, e.finalizadoEm)
    decreases |rs|
  {
    if rs != [] {
      var init := rs[..|rs| - 1];
      assert rs == init + [rs[|rs| - 1]];
      AfterRequestsAppend(e, init, rs[|rs| - 1]);
      FinishStampIsLatest(e, init);
    }
  }

  /**
   * No transition is checked: after a non-empty series the lot holds exactly
   * the last requested status and the last request's instant, and none of its
   * descriptive fields has changed.
   */
  lemma {:induction false} LastRequestWins(e: Espula, rs: seq<StatusRequest>)
    requires rs != []
    ensures AfterRequests(e, rs).status == rs[|rs| - 1].status
    ensures AfterRequests(e, rs).updatedAt == rs[|rs| - 1].at
    ensures AfterRequests(e, rs).(status := e.status, updatedAt := e.updatedAt,
                                  iniciadoEm := e.iniciadoEm, finalizadoEm := e.finalizadoEm) == e
    decreases |rs|
  {
    var e1 := EspulaAfterUpdate(e, rs[0].status, rs[0].at);
    if |rs| > 1 {
      LastRequestWins(e1, rs[1..]);
    }
  }
}
