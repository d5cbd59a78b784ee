/** Facts about sequences shared by the list-keeping modules. */
module Seqs {

  /** s is obtained from t by deleting elements, keeping the order of the rest. */
  predicate IsSubsequence<T(==)>(s: seq<T>, t: seq<T>)
    decreases |t|
  {
    if s == [] then true
    else if t == [] then false
    else if s[0] == t[0] then IsSubsequence(s[1..], t[1..])
    else IsSubsequence(s, t[1..])
  }

  lemma {:induction false} SubsequenceOfTail<T>(s: seq<T>, t: seq<T>)
    requires t != [] && IsSubsequence(s, t[1..])
    ensures IsSubsequence(s, t)
    decreases |t|, 0
  {
    if s != [] && s[0] == t[0] {
      SubsequenceDropHead(s, t[1..]);
    }
  }

  lemma {:induction false} SubsequenceDropHead<T>(s: seq<T>, u: seq<T>)
    requires s != [] && IsSubsequence(s, u)
    ensures IsSubsequence(s[1..], u)
    decreases |u|, 1
  {
    if s[0] != u[0] {
      SubsequenceDropHead(s, u[1..]);
    }
    if s[1..] != [] {
      SubsequenceOfTail(s[1..], u);
    }
  }

  /** No element occurs twice. */
  predicate NoDuplicates<T(==)>(s: seq<T>) {
    forall i, j :: 0 <= i < j < |s| ==> s[i] != s[j]
  }
}
