/** The optional value used for "no match", "nothing sent" and rejected collaborator calls. */
module Wrappers {

  datatype Option<+T> = None | Some(value: T)
}
