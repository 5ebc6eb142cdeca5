/** How a statement sent to the server ends. */
module Outcomes {

  /** Applied: took effect, success reported.  Lost: no effect, error.  Cut: took effect, but the
      caller sees an error or dies before its next step. */
  datatype Outcome = Applied | Lost | Cut
}
