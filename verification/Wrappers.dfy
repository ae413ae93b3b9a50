/** What several components share: a value that may be missing, and the search for an element. */
module Wrappers {

  datatype Option<+T> = None | Some(value: T)

  /** The first position whose element satisfies `p`, or -1. */
  function FindIndex<T>(s: seq<T>, p: T -> bool): (index: int)
    ensures -1 <= index < |s|
    ensures index >= 0 ==> p(s[index])
    ensures forall i :: 0 <= i < (if index < 0 then |s| else index) ==> !p(s[i])
  {
    if s == [] then -1
    else if p(s[0]) then 0
    else
      var rest := FindIndex(s[1..], p);
      if rest < 0 then -1 else rest + 1
  }
}
