/**
 The caller-visible future that `push` hands back (src/deferred.js): a promise
 together with its `resolve` and `reject` triggers. Only what the queue relies
 on is modelled: a future settles once, and every later trigger is ignored.
 */
module Deferred {

  /** A JavaScript value as far as the queue can tell them apart. */
  datatype Value = Undefined | Val(tag: int)

  datatype Settlement = Resolved(value: Value) | Rejected(reason: Value)

  datatype Future = Pending | Settled(settlement: Settlement)

  /** Deliver `x` to `f`; the first delivery wins, later ones are no-ops. */
  function Deliver(f: Future, x: Settlement): (r: Future)
    ensures r.Settled?
    ensures f.Pending? ==> r.settlement == x
    ensures f.Settled? ==> r == f
  {
    match f
    case Pending => Settled(x)
    case Settled(_) => f
  }

  /** `defer.resolve(v)` */
  function Resolve(f: Future, v: Value): (r: Future)
    ensures f.Pending? ==> r == Settled(Resolved(v))
    ensures f.Settled? ==> r == f
  {
    Deliver(f, Resolved(v))
  }

  /** `defer.reject(e)` */
  function Reject(f: Future, e: Value): (r: Future)
    ensures f.Pending? ==> r == Settled(Rejected(e))
    ensures f.Settled? ==> r == f
  {
    Deliver(f, Rejected(e))
  }

  /** The triggers called on one future, in order. */
  function DeliverAll(f: Future, xs: seq<Settlement>): Future
    decreases xs
  {
    if xs == [] then f else DeliverAll(Deliver(f, xs[0]), xs[1..])
  }

  /** However many triggers fire, a pending future ends up holding the first one. */
  lemma {:induction false} FirstDeliveryWins(f: Future, xs: seq<Settlement>)
    requires xs != []
    ensures f.Pending? ==> DeliverAll(f, xs) == Settled(xs[0])
    ensures f.Settled? ==> DeliverAll(f, xs) == f
    decreases xs
  {
    if |xs| > 1 {
      FirstDeliveryWins(Deliver(f, xs[0]), xs[1..]);
    }
  }
}
