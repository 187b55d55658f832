/**
 Request validation (app/schemas/usage.py). A request that passes is what
 `UsageRepository.create` copies into a row; a plain `UsageCreate` has no token
 attributes, so its breakdown columns default to 0.
 */
module UsageSchema {
  import opened Dates
  import opened Models

  datatype Request = Request(
    subscriptionId: Uuid,
    usageType: UsageType,
    quantity: nat,
    cachedInput: nat,
    input: nat,
    output: nat,
    reasoning: nat,
    idempotencyKey: string)
  {
    function Breakdown(): nat {
      cachedInput + input + output + reasoning
    }

    /** The two shapes validation lets through. */
    predicate WellFormed() {
      || quantity == Breakdown()
      || (0 < quantity && Breakdown() == 0)
    }

    function ToEvent(at: Instant): UsageEvent {
      UsageEvent(subscriptionId, usageType, quantity, cachedInput, input, output, reasoning,
                 idempotencyKey, at)
    }
  }

  /** POST /usage: quantity must be positive; TOKENS is accepted here as well. */
  function UsageCreate(subscriptionId: Uuid, usageType: UsageType, quantity: int, key: string): Option<Request> {
    if quantity > 0 then Some(Request(subscriptionId, usageType, quantity, 0, 0, 0, 0, key)) else None
  }

  /** The body of POST /generate. Its usage type is only a default, and its
      quantity is overwritten by the validator whatever the caller sent. */
  class TokenUsageCreate {
    const subscriptionId: Uuid
    const usageType: UsageType
    const cachedInput: nat
    const input: nat
    const output: nat
    const reasoning: nat
    const idempotencyKey: string
    var quantity: int

    constructor (subscriptionId: Uuid, usageType: UsageType, quantity: int,
                 cachedInput: nat, input: nat, output: nat, reasoning: nat, key: string)
      ensures 0 <= this.quantity
      ensures Validated() == TokenRequest(subscriptionId, usageType, cachedInput, input, output, reasoning, key)
      ensures Validated().WellFormed()
    {
      this.subscriptionId, this.usageType, this.quantity := subscriptionId, usageType, quantity;
      this.cachedInput, this.input, this.output, this.reasoning := cachedInput, input, output, reasoning;
      this.idempotencyKey := key;
      new;
      DeriveQuantity();
    }

    function Validated(): Request
      requires 0 <= quantity
      reads this
    {
      Request(subscriptionId, usageType, quantity, cachedInput, input, output, reasoning, idempotencyKey)
    }

    method DeriveQuantity()
      modifies this`quantity
      ensures quantity == cachedInput + input + output + reasoning
      ensures Validated() == TokenRequest(subscriptionId, usageType, cachedInput, input, output, reasoning,
                                          idempotencyKey)
    {
      quantity := cachedInput + input + output + reasoning;
    }
  }

  function TokenRequest(subscriptionId: Uuid, usageType: UsageType, cachedInput: nat, input: nat,
                        output: nat, reasoning: nat, key: string): (r: Request)
    ensures r.quantity == r.Breakdown()
  {
    Request(subscriptionId, usageType, cachedInput + input + output + reasoning,
            cachedInput, input, output, reasoning, key)
  }

  /** POST /usage accepts exactly the positive quantities, and adds no breakdown. */
  lemma PlainUsageAccepted(subscriptionId: Uuid, usageType: UsageType, quantity: int, key: string)
    ensures match UsageCreate(subscriptionId, usageType, quantity, key)
            case None => quantity <= 0
            case Some(r) =>
              && 0 < quantity == r.quantity
              && r.cachedInput == r.input == r.output == r.reasoning == 0
              && r.subscriptionId == subscriptionId && r.usageType == usageType && r.idempotencyKey == key
  {
  }

  /** Validation accepts exactly the well-formed requests, no matter the endpoint. */
  lemma AcceptedIsWellFormed(r: Request)
    ensures r.WellFormed() <==>
              || UsageCreate(r.subscriptionId, r.usageType, r.quantity, r.idempotencyKey) == Some(r)
              || TokenRequest(r.subscriptionId, r.usageType, r.cachedInput, r.input, r.output,
                              r.reasoning, r.idempotencyKey) == r
  {
  }
}
