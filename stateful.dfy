/** The calling convention every generator's `next()` goes through: a step runs on the
    generator's state and its changes are written back to the generator.

    Swift passes the state to the step as an `inout` argument. Here a step is a function
    from the state it receives to the state it leaves behind and the word it returns; a
    step that may trap is a partial function (`-->`) whose precondition says when it does
    not. */
module Stateful {
  import opened SwiftUInt64

  /** A generator with a single state value `s`. */
  class Cell<S> {
    var s: S

    constructor (initial: S)
      ensures s == initial
    {
      s := initial;
    }

    /** `next(_:)`: the step runs on `s` itself; the state it leaves becomes the new `s`
        and the word it returns is the result. */
    method Next(step: S --> (S, UInt64)) returns (r: UInt64)
      requires step.requires(s)
      modifies this
      ensures s == step(old(s)).0
      ensures r == step(old(s)).1
    {
      var outcome := step(s);
      s := outcome.0;
      r := outcome.1;
    }
  }

  /** A generator with a parameter `p` next to its state `s` (the 1024-bit generators keep
      their word pointer in `p`). */
  class ExtendedCell<P, S> {
    var p: P
    var s: S

    constructor (param: P, initial: S)
      ensures p == param && s == initial
    {
      p := param;
      s := initial;
    }

    /** `next(_:)`: `p` and `s` are copied into locals, the step runs on the copies, both
        copies are written back together, and the step's word is returned. */
    method Next(step: (P, S) --> (P, S, UInt64)) returns (r: UInt64)
      requires step.requires(p, s)
      modifies this
      ensures p == step(old(p), old(s)).0
      ensures s == step(old(p), old(s)).1
      ensures r == step(old(p), old(s)).2
    {
      var param, state := p, s;
      var outcome := step(param, state);
      param, state := outcome.0, outcome.1;
      p, s := param, state;
      r := outcome.2;
    }
  }
}
