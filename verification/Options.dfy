/** An optional value, in place of the empty strings and nil values of the programs modelled here. */
module Options {
  datatype Option<+T> = None | Some(value: T)

  /** Some element of a set that is not empty. */
  lemma Pick<T>(s: set<T>) returns (x: T)
    requires s != {}
    ensures x in s
  {
    x :| x in s;
  }
}
