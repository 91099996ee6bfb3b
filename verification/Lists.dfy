/** Inductive lists. The grammar table, the parse stack and the token stream are
    lists, so that rows of the table are literals the verifier can evaluate. */
module Lists {

  datatype Option<+T> = None | Some(value: T)

  datatype List<+T> = Nil | Cons(head: T, tail: List<T>)

  function Length<T>(xs: List<T>): nat {
    match xs
    case Nil => 0
    case Cons(_, rest) => 1 + Length(rest)
  }
}
