/** The unit of work and its wire form. */
module Payloads {
  import opened Lease
  import opened QueueModel

  /** The worker dispatches on Kind; anything that is neither "email" nor
      "message" takes the delivery path. */
  datatype Kind = Delivery | Message | Email

  /** `data` is the decoded Data field: the delivery id of a message, the content of
      an email, None when it does not decode. `rest` stands for the fields no
      modelled code reads (the retry-policy snapshot and the trace carrier). */
  datatype Payload = Payload(
    kind: Kind,
    eventId: nat,
    org: Org,
    attempt: nat,
    enqueuedAt: int,
    manual: bool,
    data: Option<nat>,
    rest: nat)

  /** json.Marshal and json.Unmarshal, of which only two facts are used: decoding
      undoes encoding, and JSON text has no unit separator. */
  datatype Codec = Codec(enc: Payload -> Raw, dec: Raw -> Option<Payload>) {
    ghost predicate Valid() {
      forall p :: Plain(enc(p)) && dec(enc(p)) == Some(p)
    }

    /** cjson.decode(evt)['org_id']; text that does not decode is outside the model. */
    function OrgOf(raw: Raw): Org {
      match dec(raw)
      case Some(p) => p.org
      case None => 0
    }
  }
}
