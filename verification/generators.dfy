/**
 The `IdGenerator` configuration field. Its default, the random UUID generator,
 is not modelled: whatever it would return for the current request is an input
 (`defaultId`) to every operation that may call it. A caller-supplied generator is
 represented by the string it returns for the current request.
 */
module Generators {

  datatype Generator =
    | DefaultGenerator        // the package's own random-id generator
    | Custom(output: string)  // a function supplied by the caller

  /** One call of generator `g`, when the default generator would return `defaultId`. */
  function Call(g: Generator, defaultId: string): (id: string)
    ensures g.DefaultGenerator? ==> id == defaultId
    ensures g.Custom? ==> id == g.output
  {
    match g
    case DefaultGenerator => defaultId
    case Custom(s) => s
  }
}
