/** Vocabulary shared by all modules. */
module Common {

  datatype Option<+T> = None | Some(value: T)

  /** How a handler, a job or a transaction ends. */
  datatype Outcome = Done | Thrown

  function One(b: bool): nat {
    if b then 1 else 0
  }
}
