/**
  The node group step of the teardown (pkg/aws/nodegroups.go): list the
  cluster's node groups, then delete them one by one, a node group that is
  already gone counting as deleted.
*/
module AwsNodegroups {
  import opened Wrappers
  import opened Sdk
  import opened Cloud

  // ---------------------------------------------------------------------
  // Listing
  // ---------------------------------------------------------------------

  /**
    The listing loop over the pages it is served, with every error kept as
    it came: one list call per page, each carrying the token of the page
    before it, stopping after a page without a next token or without node
    groups.
  */
  function RawListing(clusterName: string, p: Pages<string>, token: Option<string>): Listing<string>
  {
    var call := Api(NodeGroups, ListNodegroups(clusterName, token));
    match p
    case Failed(e) => Listing([call], Failure(e))
    case Last(groups) => Listing([call], Success(groups))
    case More(groups, next, rest) =>
      if |groups| == 0 then Listing([call], Success([]))
      else
        var tail := RawListing(clusterName, rest, Some(next));
        Listing([call] + tail.calls, Prepend(groups, tail.result))
  }

  /** listClusterNodeGroups: the raw listing, with a cluster that is not found, at any page, meaning no node groups at all. */
  function NodegroupListing(clusterName: string, p: Pages<string>): Listing<string>
  {
    var raw := RawListing(clusterName, p, None);
    if raw.result == Failure(EksNotFound) then Listing(raw.calls, Success([])) else raw
  }

  /** listClusterNodeGroups as a loop over the pages the cluster service serves. */
  method ListClusterNodeGroups(cloud: Cloud, trace: seq<Call>, clusterName: string)
    returns (trace': seq<Call>, r: Result<seq<string>, Err>)
    ensures trace' == trace + NodegroupListing(clusterName, cloud.nodegroups(trace, clusterName)).calls
    ensures r == NodegroupListing(clusterName, cloud.nodegroups(trace, clusterName)).result
  {
    var pages := cloud.nodegroups(trace, clusterName);
    var p := pages;
    var nextToken: Option<string> := None;
    var result: seq<string> := [];
    trace' := trace;
    PrependTwice(result, result, RawListing(clusterName, pages, None).result);
    while true
      invariant trace' + RawListing(clusterName, p, nextToken).calls == trace + RawListing(clusterName, pages, None).calls
      invariant RawListing(clusterName, pages, None).result == Prepend(result, RawListing(clusterName, p, nextToken).result)
      decreases p
    {
      var call := Api(NodeGroups, ListNodegroups(clusterName, nextToken));
      ghost var before := trace';
      trace' := trace' + [call];
      match p
      case Failed(e) =>
        assert RawListing(clusterName, p, nextToken).calls == [call];
        if e == EksNotFound {
          return trace', Success([]);
        }
        return trace', Failure(e);
      case Last(groups) =>
        assert RawListing(clusterName, p, nextToken).calls == [call];
        return trace', Success(result + groups);
      case More(groups, next, rest) =>
        if |groups| == 0 {
          assert RawListing(clusterName, p, nextToken).calls == [call];
          assert result + groups == result;
          return trace', Success(result + groups);
        }
        assert RawListing(clusterName, p, nextToken).calls == [call] + RawListing(clusterName, rest, Some(next)).calls;
        assert before + ([call] + RawListing(clusterName, rest, Some(next)).calls) == trace' + RawListing(clusterName, rest, Some(next)).calls;
        PrependTwice(result, groups, RawListing(clusterName, rest, Some(next)).result);
        result := result + groups;
        nextToken := Some(next);
        p := rest;
    }
  }

  /** The listing never stops at a page holding node groups and a next token; every other page ends it. */
  predicate NoEmptyPage(p: Pages<string>)
  {
    match p
    case Failed(_) => true
    case Last(_) => true
    case More(groups, _, rest) => |groups| > 0 && NoEmptyPage(rest)
  }

  /** The number of pages a listing serves, the failing call included. */
  function PageCount<T>(p: Pages<T>): nat
  {
    if p.More? then 1 + PageCount(p.rest) else 1
  }

  /**
    When no page before the last is empty, the listing asks for every page
    and returns every node group served, or the error of the failing call;
    a cluster that is not found yields no node groups. The listing never
    returns the not-found error itself.
  */
  lemma {:induction false} NodegroupListingMeaning(clusterName: string, p: Pages<string>)
    ensures NodegroupListing(clusterName, p).result.Failure? ==> NodegroupListing(clusterName, p).result.error != EksNotFound
    ensures NoEmptyPage(p) ==> |NodegroupListing(clusterName, p).calls| == PageCount(p)
    ensures NoEmptyPage(p) && !Fails(p) ==> NodegroupListing(clusterName, p).result == Success(Items(p))
    ensures NoEmptyPage(p) && Fails(p) ==>
      NodegroupListing(clusterName, p).result == (if FinalError(p) == EksNotFound then Success([]) else Failure(FinalError(p)))
  {
    RawListingMeaning(clusterName, p, None);
  }

  lemma {:induction false} RawListingMeaning(clusterName: string, p: Pages<string>, token: Option<string>)
    ensures NoEmptyPage(p) ==> |RawListing(clusterName, p, token).calls| == PageCount(p)
    ensures NoEmptyPage(p) && !Fails(p) ==> RawListing(clusterName, p, token).result == Success(Items(p))
    ensures NoEmptyPage(p) && Fails(p) ==> RawListing(clusterName, p, token).result == Failure(FinalError(p))
  {
    match p
    case Failed(_) =>
    case Last(_) =>
    case More(groups, next, rest) =>
      RawListingMeaning(clusterName, rest, Some(next));
  }

  // ---------------------------------------------------------------------
  // Deleting
  // ---------------------------------------------------------------------

  /** The delete of one node group. */
  function DeleteCall(clusterName: string, group: string): Call
  {
    Api(NodeGroups, DeleteNodegroup(clusterName, group))
  }

  /**
    The delete loop as the code writes it, from history h, with `err` the
    error variable as it stands: each group's delete, in order; an error
    other than not-found is returned at once; otherwise the loop goes on,
    and what is returned at the end is the error of the last delete, a
    not-found included.
  */
  function DeletesAsWritten(cloud: Cloud, h: seq<Call>, clusterName: string, groups: seq<string>, err: Option<Err>): Run
    decreases |groups|
  {
    if groups == [] then Run([], AsList(err))
    else
      var c := DeleteCall(clusterName, groups[0]);
      var e := cloud.answer(h, c);
      if e.Some? && e.value != EksNotFound then Run([c], [e.value])
      else
        var rest := DeletesAsWritten(cloud, h + [c], clusterName, groups[1..], e);
        Run([c] + rest.calls, rest.errs)
  }

  /**
    The delete loop as intended, from history h: each group's delete, in
    order, a node group already gone counting as deleted; the first other
    error is returned at once and the remaining groups are not attempted.
  */
  function NodegroupDeletes(cloud: Cloud, h: seq<Call>, clusterName: string, groups: seq<string>): Run
    decreases |groups|
  {
    if groups == [] then NoRun
    else
      var c := DeleteCall(clusterName, groups[0]);
      var e := cloud.answer(h, c);
      if e.Some? && e.value != EksNotFound then Run([c], [e.value])
      else
        var rest := NodegroupDeletes(cloud, h + [c], clusterName, groups[1..]);
        Run([c] + rest.calls, rest.errs)
  }

  /** A cloud where every node group is already gone. */
  const AllGone: Cloud := Quiet.(answer := (h: seq<Call>, c: Call) => if c.Api? && c.op.DeleteNodegroup? then Some(EksNotFound) else None)

  /** As written, deleting a single node group that is already gone reports the not-found error. */
  lemma LastNotFoundReported(h: seq<Call>, clusterName: string, group: string)
    ensures DeletesAsWritten(AllGone, h, clusterName, [group], None) == Run([DeleteCall(clusterName, group)], [EksNotFound])
    ensures NodegroupDeletes(AllGone, h, clusterName, [group]) == Run([DeleteCall(clusterName, group)], [])
  {
    assert [group][1..] == [];
  }

  /**
    The code as written and the intended loop issue the same deletes; their
    errors differ only in that the code as written reports a trailing
    not-found.
  */
  lemma {:induction false} AsWrittenDiffersOnlyByNotFound(cloud: Cloud, h: seq<Call>, clusterName: string, groups: seq<string>, err: Option<Err>)
    requires err.None? || err == Some(EksNotFound)
    ensures DeletesAsWritten(cloud, h, clusterName, groups, err).calls == NodegroupDeletes(cloud, h, clusterName, groups).calls
    ensures DeletesAsWritten(cloud, h, clusterName, groups, err).errs == NodegroupDeletes(cloud, h, clusterName, groups).errs
      || (DeletesAsWritten(cloud, h, clusterName, groups, err).errs == [EksNotFound] && NodegroupDeletes(cloud, h, clusterName, groups).errs == [])
    decreases |groups|
  {
    if groups != [] {
      var c := DeleteCall(clusterName, groups[0]);
      var e := cloud.answer(h, c);
      if !(e.Some? && e.value != EksNotFound) {
        AsWrittenDiffersOnlyByNotFound(cloud, h + [c], clusterName, groups[1..], e);
      }
    }
  }

  /** The error a delete answer leaves: none for a node group already gone. */
  function Settled(e: Option<Err>): Option<Err>
  {
    if e == Some(EksNotFound) then None else e
  }

  /** Delete i of `calls`, issued after the ones before it, left no error: it succeeded or the node group was already gone. */
  ghost predicate SettledAt(cloud: Cloud, h: seq<Call>, calls: seq<Call>, i: int)
    requires 0 <= i < |calls|
  {
    Settled(cloud.answer(h + calls[..i], calls[i])).None?
  }

  /** The intended deletes address the groups in list order, a prefix of them. */
  lemma {:induction false} NodegroupDeletesOrder(cloud: Cloud, h: seq<Call>, clusterName: string, groups: seq<string>)
    ensures var r := NodegroupDeletes(cloud, h, clusterName, groups);
      && |r.calls| <= |groups|
      && (forall i :: 0 <= i < |r.calls| ==> r.calls[i] == DeleteCall(clusterName, groups[i]))
      && |r.errs| <= 1
      && (r.errs == [] ==> |r.calls| == |groups|)
    decreases |groups|
  {
    if groups != [] {
      var c := DeleteCall(clusterName, groups[0]);
      var e := cloud.answer(h, c);
      if !(e.Some? && e.value != EksNotFound) {
        NodegroupDeletesOrder(cloud, h + [c], clusterName, groups[1..]);
      }
    }
  }

  /** The delete after a first one, seen from after that first one. */
  lemma SettledShift(cloud: Cloud, h: seq<Call>, c: Call, rest: seq<Call>, i: int)
    requires 0 < i <= |rest|
    ensures h + ([c] + rest)[..i] == (h + [c]) + rest[..i - 1] && ([c] + rest)[i] == rest[i - 1]
    ensures SettledAt(cloud, h, [c] + rest, i) <==> SettledAt(cloud, h + [c], rest, i - 1)
  {
    assert ([c] + rest)[..i] == [c] + rest[..i - 1];
  }

  /**
    The intended deletes go on past every delete that succeeded or found the
    node group gone, and report nothing exactly when every group was deleted
    that way.
  */
  lemma {:induction false} NodegroupDeletesClean(cloud: Cloud, h: seq<Call>, clusterName: string, groups: seq<string>)
    ensures var r := NodegroupDeletes(cloud, h, clusterName, groups);
      && (forall i :: 0 <= i < |r.calls| - 1 ==> SettledAt(cloud, h, r.calls, i))
      && (r.errs == [] <==> |r.calls| == |groups| && forall i :: 0 <= i < |r.calls| ==> SettledAt(cloud, h, r.calls, i))
    decreases |groups|
  {
    NodegroupDeletesOrder(cloud, h, clusterName, groups);
    if groups != [] {
      var c := DeleteCall(clusterName, groups[0]);
      var e := cloud.answer(h, c);
      var r := NodegroupDeletes(cloud, h, clusterName, groups);
      assert r.calls[..0] == [] && h + [] == h;
      if !(e.Some? && e.value != EksNotFound) {
        var rest := NodegroupDeletes(cloud, h + [c], clusterName, groups[1..]);
        NodegroupDeletesClean(cloud, h + [c], clusterName, groups[1..]);
        NodegroupDeletesOrder(cloud, h + [c], clusterName, groups[1..]);
        assert r.calls == [c] + rest.calls;
        assert r.errs == rest.errs && |r.calls| == |rest.calls| + 1;
        assert SettledAt(cloud, h, r.calls, 0);
        forall i | 0 < i < |r.calls| ensures SettledAt(cloud, h, r.calls, i) <==> SettledAt(cloud, h + [c], rest.calls, i - 1) {
          SettledShift(cloud, h, c, rest.calls, i);
        }
        if forall i :: 0 <= i < |rest.calls| ==> SettledAt(cloud, h + [c], rest.calls, i) {
          forall i | 0 <= i < |r.calls| ensures SettledAt(cloud, h, r.calls, i) {
            if i > 0 {
              assert SettledAt(cloud, h + [c], rest.calls, i - 1);
            }
          }
        }
        if forall i :: 0 <= i < |r.calls| ==> SettledAt(cloud, h, r.calls, i) {
          forall i | 0 <= i < |rest.calls| ensures SettledAt(cloud, h + [c], rest.calls, i) {
            assert SettledAt(cloud, h, r.calls, i + 1);
          }
        }
      } else {
        assert r.calls == [c];
        assert !SettledAt(cloud, h, r.calls, 0);
      }
    }
  }

  /** When the intended deletes report an error, it is the answer to the last delete issued, and not a not-found. */
  lemma {:induction false} NodegroupDeletesFailure(cloud: Cloud, h: seq<Call>, clusterName: string, groups: seq<string>)
    ensures var r := NodegroupDeletes(cloud, h, clusterName, groups);
      r.errs != [] ==>
        |r.calls| > 0 && !SettledAt(cloud, h, r.calls, |r.calls| - 1) &&
        Some(r.errs[0]) == cloud.answer(h + r.calls[..|r.calls| - 1], r.calls[|r.calls| - 1])
    decreases |groups|
  {
    if groups != [] {
      var c := DeleteCall(clusterName, groups[0]);
      var e := cloud.answer(h, c);
      var r := NodegroupDeletes(cloud, h, clusterName, groups);
      if !(e.Some? && e.value != EksNotFound) {
        var rest := NodegroupDeletes(cloud, h + [c], clusterName, groups[1..]);
        NodegroupDeletesFailure(cloud, h + [c], clusterName, groups[1..]);
        assert r.calls == [c] + rest.calls && r.errs == rest.errs;
        if rest.errs != [] {
          SettledShift(cloud, h, c, rest.calls, |rest.calls|);
        }
      } else {
        assert r.calls[..0] == [] && h + [] == h;
      }
    }
  }

  /** The delete loop of deleteClusterNodeGroups, with a node group already gone counting as deleted. */
  method DeleteNodegroups(cloud: Cloud, trace: seq<Call>, clusterName: string, groups: seq<string>)
    returns (trace': seq<Call>, err: Option<Err>)
    ensures trace' == trace + NodegroupDeletes(cloud, trace, clusterName, groups).calls
    ensures AsList(err) == NodegroupDeletes(cloud, trace, clusterName, groups).errs
  {
    trace' := trace;
    var i := 0;
    while i < |groups|
      invariant 0 <= i <= |groups|
      invariant trace' + NodegroupDeletes(cloud, trace', clusterName, groups[i..]).calls == trace + NodegroupDeletes(cloud, trace, clusterName, groups).calls
      invariant NodegroupDeletes(cloud, trace', clusterName, groups[i..]).errs == NodegroupDeletes(cloud, trace, clusterName, groups).errs
    {
      var c := DeleteCall(clusterName, groups[i]);
      var e := cloud.answer(trace', c);
      assert groups[i..][0] == groups[i] && groups[i..][1..] == groups[i + 1..];
      ghost var before := trace';
      trace' := trace' + [c];
      if e.Some? && e.value != EksNotFound {
        return trace', e;
      }
      assert before + ([c] + NodegroupDeletes(cloud, trace', clusterName, groups[i + 1..]).calls)
        == trace' + NodegroupDeletes(cloud, trace', clusterName, groups[i + 1..]).calls;
      i := i + 1;
    }
    assert trace' + [] == trace';
    err := None;
  }

  /** What deleteClusterNodeGroups does from history h: the listing, whose error is the result, then the deletes. */
  function NodegroupRun(cloud: Cloud, h: seq<Call>, clusterName: string): Run
  {
    var listing := NodegroupListing(clusterName, cloud.nodegroups(h, clusterName));
    match listing.result
    case Failure(e) => Run(listing.calls, [e])
    case Success(groups) => Then(Run(listing.calls, []), NodegroupDeletes(cloud, h + listing.calls, clusterName, groups))
  }

  /** deleteClusterNodeGroups: list the cluster's node groups, then delete each in turn. */
  method DeleteClusterNodeGroups(cloud: Cloud, trace: seq<Call>, clusterName: string)
    returns (trace': seq<Call>, err: Option<Err>)
    ensures trace' == trace + NodegroupRun(cloud, trace, clusterName).calls
    ensures AsList(err) == NodegroupRun(cloud, trace, clusterName).errs
  {
    var listed, groups := ListClusterNodeGroups(cloud, trace, clusterName);
    if groups.Failure? {
      return listed, Some(groups.error);
    }
    trace', err := DeleteNodegroups(cloud, listed, clusterName, groups.value);
  }

  /** A listing failure other than not-found is the result, and no node group is deleted. */
  lemma ListFailureStops(cloud: Cloud, h: seq<Call>, clusterName: string)
    requires NodegroupListing(clusterName, cloud.nodegroups(h, clusterName)).result.Failure?
    ensures var listing := NodegroupListing(clusterName, cloud.nodegroups(h, clusterName));
      NodegroupRun(cloud, h, clusterName) == Run(listing.calls, [listing.result.error]) && listing.result.error != EksNotFound
      && forall c :: c in NodegroupRun(cloud, h, clusterName).calls ==> c.Api? && c.op.ListNodegroups?
  {
    NodegroupListingMeaning(clusterName, cloud.nodegroups(h, clusterName));
    RawCallsAreLists(clusterName, cloud.nodegroups(h, clusterName), None);
  }

  lemma {:induction false} RawCallsAreLists(clusterName: string, p: Pages<string>, token: Option<string>)
    ensures forall c :: c in RawListing(clusterName, p, token).calls ==> c.Api? && c.step == NodeGroups && c.op.ListNodegroups?
  {
    if p.More? && |p.items| > 0 {
      RawCallsAreLists(clusterName, p.rest, Some(p.token));
    }
  }
}
