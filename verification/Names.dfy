/** Enumerations stored under names: looking a name up is the inverse of naming. */
module Names {
  import opened Wrappers

  /** The first member of `among` with the given name. */
  function Lookup<T>(name: string, among: seq<T>, nameOf: T -> string): Option<T> {
    if among == [] then None
    else if nameOf(among[0]) == name then Some(among[0])
    else Lookup(name, among[1..], nameOf)
  }

  lemma {:induction false} LookupFinds<T>(name: string, among: seq<T>, nameOf: T -> string)
    ensures var r := Lookup(name, among, nameOf);
            if r.Some? then r.value in among && nameOf(r.value) == name
            else forall x | x in among :: nameOf(x) != name
  {
    if among != [] {
      LookupFinds(name, among[1..], nameOf);
    }
  }
}
