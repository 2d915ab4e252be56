// Faults of single operations on a store, a queue or a broker.
module Faults {

  // How one operation turns out: fine, an error before it takes effect, or an error although it took effect.
  datatype Fault = Fine | Before | After

  // What an operation leaves behind.
  function Effect<T>(fault: Fault, before: T, after: T): T {
    if fault == Before then before else after
  }
}
