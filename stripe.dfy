/**
 * The payment processor's objects as the core sees them: the payment intent
 * a webhook event carries, with the metadata the synchronous path attached
 * to it and the shipping details the browser confirmed the payment with.
 * Only the fields the core reads are kept.
 */
module Stripe {
  import opened Wrappers
  import opened Bag

  /** `intent.shipping`: name, phone and the address object. */
  datatype Shipping = Shipping(name: Option<string>, phone: Option<string>, address: map<string, Option<string>>)

  /** The keys every address object of the processor carries (their values may be null). */
  const AddressKeys: set<string> := {"city", "country", "line1", "line2", "postal_code", "state"}

  /**
   * `intent.metadata`. Metadata is a key-value map; a key that was never
   * set is `None` here, and reading it as an attribute raises.
   */
  datatype Metadata = Metadata(bag: Option<Snapshot>, saveInfo: Option<string>, username: Option<string>, email: Option<string>)

  /** A payment intent: its id, its amount in minor units, its metadata and shipping. */
  datatype Intent = Intent(id: string, amount: int, metadata: Metadata, shipping: Option<Shipping>)

  /** A webhook event: its type and `data.object`. */
  datatype Event = Event(eventType: string, intent: Intent)
}
