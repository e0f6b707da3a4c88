/** The exceptions the modelled code can raise or propagate. */
module Errors {

  datatype Exception =
    /** A `ValueError` raised by the code itself, with its message. */
    | ValueError(message: string)
    /** Anything raised by a collaborator outside the model (database, HTTP, ML endpoint). */
    | ExternalError(message: string)
}
