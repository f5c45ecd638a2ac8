/** The records the upstream panel returns and the client keeps. */
module Types {
  /**
   * A catalogue entry. Every field is text except the three capability
   * flags; the panel's `type` field is called `kind` because `type` is a
   * Dafny keyword.
   */
  datatype Service = Service(
    service: string,
    name: string,
    kind: string,
    category: string,
    rate: string,
    min: string,
    max: string,
    dripfeed: bool,
    refill: bool,
    cancel: bool)

  /** The account balance as the panel reports it. */
  datatype Balance = Balance(balance: string, currency: string)
}
