// The Stripe calls the handlers make. What Stripe answers is an oracle: each call takes the answer
// the network would give and turns it into the effect that answer has on Stripe's own ledger.

module Stripe {
  import opened Entities

  /** PaymentIntent.cancel: done, InvalidRequestError, or any other exception. */
  datatype CancelReply = Done | Refused | Unreachable

  /** A captured intent cannot be cancelled: such a call is refused whatever the oracle says. */
  function CancelIntent(intents: seq<Intent>, i: nat, reply: CancelReply): (seq<Intent>, CancelReply) {
    if !reply.Done? then (intents, reply)
    else if i >= |intents| || intents[i].status.Captured? then (intents, Refused)
    else (intents[i := intents[i].(status := Voided)], Done)
  }

  /** PaymentIntent.retrieve: the current status, or None for an exception. */
  function Retrieve(intents: seq<Intent>, i: nat, answers: bool): Option<IntentStatus> {
    if answers && i < |intents| then Some(intents[i].status) else None
  }

  /** Refund.create is refused for an intent that took no money, whatever the oracle says. */
  predicate RefundAccepted(intents: seq<Intent>, i: nat, answers: bool) {
    answers && i < |intents| && intents[i].status.Captured?
  }

  /** Refund.create under an idempotency key: a key already used replays the first answer. */
  function CreateRefund(refunds: Refunds, key: RefundKey, i: nat, amount: nat): Refunds {
    if key in refunds then refunds else refunds[key := Refund(i, amount)]
  }
}
