/**
  Ordering report resources by creation time, as both the report writer
  (sortResources in pkg/parser/parser.go) and the notifier
  (prepareSlackMessage in pkg/slack/slack.go) do with sort.Slice and
  Created.Before. sort.Slice is not stable, so the source fixes no order
  among resources created at the same instant; SortByCreated picks one and
  promises only the ordering and the permutation.
*/
module ResourceOrder {
  import opened Dto

  /** Created times never decrease along the sequence. */
  predicate ByCreated(rs: seq<Resource>)
  {
    forall i, j :: 0 <= i < j < |rs| ==> rs[i].created <= rs[j].created
  }

  /** Put r into a sequence ordered by creation, before the first resource not created earlier. */
  function Insert(r: Resource, rs: seq<Resource>): (out: seq<Resource>)
    requires ByCreated(rs)
    ensures ByCreated(out)
    ensures multiset(out) == multiset(rs) + multiset{r}
    decreases |rs|
  {
    if rs == [] then [r]
    else if r.created <= rs[0].created then [r] + rs
    else
      var rest := Insert(r, rs[1..]);
      assert rs == [rs[0]] + rs[1..];
      assert rest[0] in multiset(rest);
      [rs[0]] + rest
  }

  /** The resources ordered by creation time. */
  function SortByCreated(rs: seq<Resource>): (out: seq<Resource>)
    ensures ByCreated(out)
    ensures multiset(out) == multiset(rs)
    decreases |rs|
  {
    if rs == [] then []
    else
      assert rs == [rs[0]] + rs[1..];
      Insert(rs[0], SortByCreated(rs[1..]))
  }

  /** A sequence already ordered by creation is left as it is. */
  lemma {:induction false} SortOrdered(rs: seq<Resource>)
    requires ByCreated(rs)
    ensures SortByCreated(rs) == rs
    decreases |rs|
  {
    if rs != [] {
      SortOrdered(rs[1..]);
      assert rs == [rs[0]] + rs[1..];
      if |rs| > 1 {
        assert rs[1..][0] == rs[1];
      }
    }
  }

  /** Sorting twice is sorting once. */
  lemma SortIdempotent(rs: seq<Resource>)
    ensures SortByCreated(SortByCreated(rs)) == SortByCreated(rs)
  {
    SortOrdered(SortByCreated(rs));
  }
}
