/** Small facts about sequence concatenation, stated over abstract
    sequences so that the proofs that use them need not rediscover them
    around recursive definitions. */
module SeqFacts {
  lemma Assoc<T>(a: seq<T>, b: seq<T>, c: seq<T>)
    ensures a + (b + c) == a + b + c
  {
  }

  lemma Regroup<T>(a: seq<T>, b: seq<T>, c: seq<T>, d: seq<T>)
    ensures a + (b + c + d) == a + b + c + d
    ensures a + b + c + d == a + (b + c) + d
  {
  }

  lemma NoResults<T>(a: seq<T>, b: seq<T>, c: seq<T>)
    ensures a + (b + c + []) == a + b + c
  {
  }

  lemma DropLastAppend<T>(a: seq<T>, b: seq<T>)
    requires b != []
    ensures (a + b)[..|a + b| - 1] == a + b[..|b| - 1]
    ensures (a + b)[|a + b| - 1] == b[|b| - 1]
  {
  }

  lemma EmptyLead<T>(s: seq<T>)
    ensures [] + s == s
  {
  }

  lemma EmptyTail<T>(s: seq<T>)
    ensures s + [] == s && s + [] + [] == s
  {
  }
}
