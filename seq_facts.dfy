/** Generic facts about sequences (and one about sets), stated once so
    that the proofs using them need not re-derive them for each element
    type. */
module SeqFacts {
  /** Growing a prefix by one element. */
  lemma PrefixStep<T>(s: seq<T>, i: int)
    requires 0 <= i < |s|
    ensures s[..i + 1][..i] == s[..i]
    ensures s[..i + 1] == s[..i] + [s[i]]
  {
  }

  /** A sequence around its element `k`. */
  lemma SplitAt<T>(s: seq<T>, k: int)
    requires 0 <= k < |s|
    ensures s == s[..k] + ([s[k]] + s[k + 1..])
  {
  }

  /** Appending in two steps is appending once. */
  lemma AppendInSteps<T>(start: seq<T>, before: seq<T>, added: seq<T>, after: seq<T>)
    requires after == before + added
    ensures (start + before) + added == start + after
  {
  }

  /** Dropping the last element of a sequence that ends with `tail`. */
  lemma DropLastOfJoin<T>(front: seq<T>, tail: seq<T>)
    requires tail != []
    ensures (front + tail)[..|front + tail| - 1] == front + tail[..|tail| - 1]
  {
  }

  /** Regrouping a union of three sets. */
  lemma UnionRegroup<T>(a: set<T>, b: set<T>, c: set<T>)
    ensures a + b + c == a + (b + c)
  {
  }
}
