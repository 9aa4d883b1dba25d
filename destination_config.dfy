/** The immutable per-destination settings that change only through configuration (its address). */
module DestinationConfigs {
  import opened Wrappers
  import opened Errors

  /**
   * A destination's configuration. Being a value, neither field can change after
   * construction: a changed configuration is a new instance. `destinationId` is kept
   * exactly as given (`None` is a null id); `address` is kept as a plain string.
   */
  datatype DestinationConfig = DestinationConfig(destinationId: Option<string>, address: string) {

    /** The invariant every instance built by `Create` has. */
    predicate Valid() {
      |address| > 0
    }
  }

  /** The configurations a destination can hold: those with a non-empty address. */
  type ValidDestinationConfig = c: DestinationConfig | c.Valid() witness DestinationConfig(None, "a")

  /**
   * The constructor `DestinationConfig(destinationId, address)`: a null (`None`) or empty
   * address is refused with an `ArgumentNullException` for `address`; otherwise both
   * arguments are stored unchanged. The destination id is not checked.
   */
  function Create(destinationId: Option<string>, address: Option<string>): (r: Result<ValidDestinationConfig, ArgumentError>)
    ensures r.Success? <==> address.Some? && |address.value| > 0
    ensures r.Success? ==> Some(r.value.address) == address && r.value.destinationId == destinationId
    ensures r.Failure? ==> r.error == ArgumentNull("address")
  {
    if address.None? || address.value == "" then
      Failure(ArgumentNull("address"))
    else
      Success(DestinationConfig(destinationId, address.value))
  }

  /** A null address is refused, whatever the id. */
  lemma CreateRejectsNullAddress(destinationId: Option<string>)
    ensures Create(destinationId, None) == Failure(ArgumentNull("address"))
  {
  }

  /** An empty address is refused the same way as a null one. */
  lemma CreateRejectsEmptyAddress(destinationId: Option<string>)
    ensures Create(destinationId, Some("")) == Failure(ArgumentNull("address"))
  {
  }

  /** Every valid configuration is what `Create` builds from its own two getters. */
  lemma CreateRoundTrip(c: ValidDestinationConfig)
    ensures Create(c.destinationId, Some(c.address)) == Success(c)
  {
  }

  /** Two constructions that succeed give the same instance only for the same arguments. */
  lemma CreateInjective(id1: Option<string>, a1: Option<string>, id2: Option<string>, a2: Option<string>)
    requires Create(id1, a1).Success? && Create(id2, a2).Success?
    ensures Create(id1, a1) == Create(id2, a2) <==> id1 == id2 && a1 == a2
  {
  }
}
