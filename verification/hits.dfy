/**
 Payload builders for Google Analytics Measurement Protocol (version 1) hits.

 A payload is a flat map from short protocol parameter names to values. Two
 builders exist: `Registration` builds an "event" hit and `Transaction` builds
 a "transaction" hit. Each has a fixed key set and two constant fields (hit
 type and document title). `Registration` copies every argument through
 unchanged; `Transaction` copies all of them except the protocol version `v`,
 which it accepts and drops. The client id is written twice, once as `cid` and
 once as custom dimension `cd1`.

 Each builder has a partner parser that reads the arguments back out of a
 payload; the lemmas below show that builder and parser are inverse.
 */
module Hits {
  import opened Wrappers

  /** A parameter value. Callers hand the builders plain strings and integers,
      but also whole columns of a filtered table (one entry per matching row). */
  datatype Value = Text(s: string) | Int(n: int) | Column(items: seq<string>)

  /** The Measurement Protocol parameters the builders write. */
  datatype Param =
    | Tid | Cid | Cd1 | HitType | Ec | Ea | El | Qt | Dt | Cs | Cn | V
    | Ti | Tr | Tt | Cu

  /** The parameter's name on the wire. */
  function ParamName(k: Param): string {
    match k
    case Tid => "tid"
    case Cid => "cid"
    case Cd1 => "cd1"
    case HitType => "t"
    case Ec => "ec"
    case Ea => "ea"
    case El => "el"
    case Qt => "qt"
    case Dt => "dt"
    case Cs => "cs"
    case Cn => "cn"
    case V => "v"
    case Ti => "ti"
    case Tr => "tr"
    case Tt => "tt"
    case Cu => "cu"
  }

  type Payload = map<Param, Value>

  /** The string-keyed dictionary handed to the HTTP client: the payload
      under the wire names. No two parameters share a name, so nothing is
      lost. How the client then form-encodes a column value is not modelled. */
  function WireForm(p: Payload): (w: map<string, Value>)
    ensures w.Keys == set k | k in p :: ParamName(k)
    ensures forall k :: k in p ==> ParamName(k) in w && w[ParamName(k)] == p[k]
  {
    ParamNamesDistinct();
    map k | k in p :: ParamName(k) := p[k]
  }

  /** Different parameters have different wire names. */
  lemma ParamNamesDistinct()
    ensures forall a, b :: ParamName(a) == ParamName(b) ==> a == b
  {
    forall a, b | ParamName(a) == ParamName(b)
      ensures a == b
    {
      var n := ParamName(a);
      if |n| == 1 {
        assert n[0] == ParamName(b)[0];
      } else if |n| == 2 {
        assert n[0] == ParamName(b)[0] && n[1] == ParamName(b)[1];
      } else {
        assert n[0] == ParamName(b)[0] && n[1] == ParamName(b)[1] && n[2] == ParamName(b)[2];
      }
    }
  }

  /** Protocol version used when the caller does not supply one. */
  const DefaultVersion: Value := Int(1)
  /** Event label used when the caller does not supply one. */
  const DefaultLabel: Value := Text("None")

  const EventKeys: set<Param> := {Tid, Cid, Cd1, HitType, Ec, Ea, El, Qt, Dt, Cs, Cn, V}
  const TransactionKeys: set<Param> := {Tid, Cid, Cd1, HitType, Ti, Tr, Tt, Cu, Qt, Dt, Cs, Cn}

  /** The arguments of the event builder, one field per parameter. */
  datatype EventArgs = EventArgs(
    gaProperty: Value,
    clientId: Value,
    eventCategory: Value,
    eventAction: Value,
    eventTimedelta: Value,
    source: Value,
    campaign: Value,
    v: Value,
    eventLabel: Value)

  /** The arguments of the transaction builder that reach the payload. */
  datatype TransactionArgs = TransactionArgs(
    gaProperty: Value,
    clientId: Value,
    source: Value,
    campaign: Value,
    transactionId: Value,
    revenue: Value,
    currency: Value,
    tax: Value,
    eventTimedelta: Value)

  /** The shape every event hit has: hit type "event", document title
      "offline" and the same client id in `cid` and `cd1`. */
  predicate IsEventHit(p: Payload) {
    && p.Keys == EventKeys
    && p[HitType] == Text("event")
    && p[Dt] == Text("offline")
    && p[Cid] == p[Cd1]
  }

  /** The shape every transaction hit has. */
  predicate IsTransactionHit(p: Payload) {
    && p.Keys == TransactionKeys
    && p[HitType] == Text("transaction")
    && p[Dt] == Text("offline")
    && p[Cid] == p[Cd1]
  }

  /** Reads the builder arguments back out of an event hit. */
  function ParseEvent(p: Payload): Option<EventArgs> {
    if IsEventHit(p) then
      Some(EventArgs(p[Tid], p[Cid], p[Ec], p[Ea], p[Qt], p[Cs], p[Cn], p[V], p[El]))
    else
      None
  }

  /** Reads the builder arguments back out of a transaction hit. */
  function ParseTransaction(p: Payload): Option<TransactionArgs> {
    if IsTransactionHit(p) then
      Some(TransactionArgs(p[Tid], p[Cid], p[Cs], p[Cn], p[Ti], p[Tr], p[Cu], p[Tt], p[Qt]))
    else
      None
  }

  /** Builds the payload of a custom event hit. */
  function Registration(a: EventArgs): (p: Payload)
  {
    map[
      Tid := a.gaProperty,
      Cid := a.clientId,
      Cd1 := a.clientId,
      HitType := Text("event"),
      Ec := a.eventCategory,
      Ea := a.eventAction,
      El := a.eventLabel,
      Qt := a.eventTimedelta,
      Dt := Text("offline"),
      Cs := a.source,
      Cn := a.campaign,
      V := a.v]
  }

  /** The event builder called without its two optional arguments. */
  function RegistrationWithDefaults(
    gaProperty: Value, clientId: Value, eventCategory: Value, eventAction: Value,
    eventTimedelta: Value, source: Value, campaign: Value): (p: Payload)
    ensures ParseEvent(p) == Some(EventArgs(gaProperty, clientId, eventCategory, eventAction,
                                            eventTimedelta, source, campaign, Int(1), Text("None")))
  {
    Registration(EventArgs(gaProperty, clientId, eventCategory, eventAction,
                           eventTimedelta, source, campaign, DefaultVersion, DefaultLabel))
  }

  /** Builds the payload of a transaction hit. The protocol version `v` is
      accepted but never written: the payload has no "v" key. */
  function Transaction(a: TransactionArgs, v: Value): (p: Payload)
    ensures ParseTransaction(p) == Some(a)
    ensures V !in p
  {
    map[
      Tid := a.gaProperty,
      Cid := a.clientId,
      Cd1 := a.clientId,
      HitType := Text("transaction"),
      Ti := a.transactionId,
      Tr := a.revenue,
      Tt := a.tax,
      Cu := a.currency,
      Qt := a.eventTimedelta,
      Dt := Text("offline"),
      Cs := a.source,
      Cn := a.campaign]
  }

  /** The event builder's output is an event hit from which its arguments
      read back unchanged. */
  lemma RegistrationRoundTrip(a: EventArgs)
    ensures IsEventHit(Registration(a))
    ensures ParseEvent(Registration(a)) == Some(a)
  {
  }

  /** Every event hit is the output of the builder on the arguments parsed
      from it, so the builder reaches exactly the event-shaped payloads. */
  lemma ParseEventInverse(p: Payload, a: EventArgs)
    requires ParseEvent(p) == Some(a)
    ensures Registration(a) == p
  {
    var q := Registration(a);
    assert q.Keys == p.Keys;
    forall k | k in p
      ensures q[k] == p[k]
    {
    }
  }

  /** Every transaction hit is the output of the builder on the arguments
      parsed from it, whatever version argument is passed. */
  lemma ParseTransactionInverse(p: Payload, a: TransactionArgs, v: Value)
    requires ParseTransaction(p) == Some(a)
    ensures Transaction(a, v) == p
  {
    var q := Transaction(a, v);
    assert q.Keys == p.Keys;
    forall k | k in p
      ensures q[k] == p[k]
    {
    }
  }

  /** The version argument has no effect on the transaction payload. */
  lemma TransactionIgnoresVersion(a: TransactionArgs, v1: Value, v2: Value)
    ensures Transaction(a, v1) == Transaction(a, v2)
  {
    ParseTransactionInverse(Transaction(a, v1), a, v2);
  }
}
