/** Optional values, standing for Go's nilable pointers and lookups that may find nothing. */
module Options {
  datatype Option<+T> = None | Some(value: T)

  lemma SomeElement<T>(s: set<T>) returns (x: T)
    requires s != {}
    ensures x in s
  {
    x :| x in s;
  }
}
