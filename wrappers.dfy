/**
 * An optional value. It stands for an option left `undefined` (the prompt,
 * the intro), for a missing CSS class, and for "no `updateCommandLine` call"
 * in the history steps. A read past the end of the history is a different
 * thing: the `Undefined` case of `History.Lookup`.
 */
module Wrappers {
  datatype Option<+T> = None | Some(value: T)
}
