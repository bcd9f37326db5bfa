/** The optional value returned by every lookup of the syscall tables: a raw
    number that the table does not define, or a name that an ABI does not
    number, is `None`, never a guessed neighbour. */
module Wrappers {

  datatype Option<+T> = None | Some(value: T)
}
