/** The request counters the handlers bump: a count per label set, where a
    label set never seen counts 0. The duration histograms are not modelled. */
module Metrics {
  import opened Catalog

  /** Labels of the request-total counter: `method` and `code`. */
  datatype RequestLabel = RequestLabel(verb: string, code: int)

  /** Labels of the not-found counter: `method` and `URL` (the raw request URI). */
  datatype NotFoundLabel = NotFoundLabel(verb: string, url: string)

  /** The value of counter `l` in a counter vector. */
  function Count<L>(m: map<L, nat>, l: L): nat
  {
    if l in m then m[l] else 0
  }

  /** The counter vector after `.With(l).Inc()`: `l` one higher, every other
      label as it was. */
  function Bumped<L(!new)>(m: map<L, nat>, l: L): (r: map<L, nat>)
    ensures Count(r, l) == Count(m, l) + 1
    ensures forall k | k != l :: Count(r, k) == Count(m, k)
    ensures r.Keys == m.Keys + {l}
  {
    m[l := Count(m, l) + 1]
  }

  /** How the response writer reports its status after several writes. The
      writer is a library type, so the model keeps both possibilities open. */
  datatype WriterPolicy = FirstWrite | LastWrite

  /** `ctx.Resp.Status()` after the handler's writes. */
  function StatusOf(policy: WriterPolicy, writes: seq<Reply>): (code: int)
    requires writes != []
    ensures exists w | w in writes :: w.status == code
    ensures |writes| == 1 ==> code == writes[0].status
  {
    match policy
    case FirstWrite => writes[0].status
    case LastWrite => writes[|writes| - 1].status
  }

  /** The two counter vectors of the service. */
  class Counters {
    var requestTotal: map<RequestLabel, nat>
    var notFoundTotal: map<NotFoundLabel, nat>

    constructor ()
      ensures requestTotal == map[] && notFoundTotal == map[]
    {
      requestTotal := map[];
      notFoundTotal := map[];
    }

    /** `prom_httpRequestTotal.With(...).Inc()` */
    method CountRequest(l: RequestLabel)
      modifies this
      ensures requestTotal == Bumped(old(requestTotal), l)
      ensures notFoundTotal == old(notFoundTotal)
    {
      requestTotal := Bumped(requestTotal, l);
    }

    /** `prom_notFoundTotal.With(...).Inc()` */
    method CountNotFound(l: NotFoundLabel)
      modifies this
      ensures notFoundTotal == Bumped(old(notFoundTotal), l)
      ensures requestTotal == old(requestTotal)
    {
      notFoundTotal := Bumped(notFoundTotal, l);
    }
  }
}
