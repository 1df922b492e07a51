/** JavaScript notions the worker's message handler relies on. */
module Js {

  /** A property of a message that may be absent (`undefined`) or hold a value. */
  datatype Option<+T> = Undefined | Defined(value: T)

  /** How a piece of JavaScript completed: normally with a value, or by throwing
      an error whose `message` property is given. A rejected promise that is
      awaited completes by throwing as well. */
  datatype Completion<+T> = Normal(value: T) | Throw(message: string)
}
