/**
  The storage bucket mapper (ParseS3 in pkg/aws/s3.go): the custodian output
  lists every bucket for every region, so buckets of other regions are
  dropped; owner and expiry come from tags matched without regard to case.
*/
module AwsS3 {
  import opened Wrappers
  import opened Dto
  import opened Strings

  /** A bucket as the custodian output lists it. */
  datatype Bucket = Bucket(name: string, createdAt: Time, tags: seq<KeyValue>, locationConstraint: string)

  /** The value of the last tag whose key, lower-cased, is `key`; "" when there is none. */
  function TagValue(tags: seq<KeyValue>, key: string): string
    decreases |tags|
  {
    if tags == [] then ""
    else if Lower(tags[|tags| - 1].key) == key then tags[|tags| - 1].value
    else TagValue(tags[..|tags| - 1], key)
  }

  /**
    The last matching tag wins: with no tag matching the result is "";
    otherwise it is the value of a matching tag after which no tag matches.
  */
  lemma {:induction false} TagValueMeaning(tags: seq<KeyValue>, key: string)
    ensures (forall i :: 0 <= i < |tags| ==> Lower(tags[i].key) != key) ==> TagValue(tags, key) == ""
    ensures (exists i :: 0 <= i < |tags| && Lower(tags[i].key) == key) ==>
      exists i :: 0 <= i < |tags| && Lower(tags[i].key) == key && TagValue(tags, key) == tags[i].value
        && forall j :: i < j < |tags| ==> Lower(tags[j].key) != key
    decreases |tags|
  {
    if tags != [] {
      var n := |tags| - 1;
      var front := tags[..n];
      TagValueMeaning(front, key);
      if Lower(tags[n].key) != key {
        if exists i :: 0 <= i < |tags| && Lower(tags[i].key) == key {
          var i :| 0 <= i < |tags| && Lower(tags[i].key) == key;
          assert front[i] == tags[i];
          var i' :| 0 <= i' < |front| && Lower(front[i'].key) == key && TagValue(front, key) == front[i'].value
            && forall j :: i' < j < |front| ==> Lower(front[j].key) != key;
          assert forall j :: i' < j < |tags| ==> j == n || tags[j] == front[j];
        }
        forall i | 0 <= i < n ensures front[i] == tags[i] {
        }
      }
    }
  }

  /** Tag keys are matched without regard to case: "Owner", "OWNER" and "owner" are the same key. */
  lemma TagKeyCaseInsensitive(tags: seq<KeyValue>, value: string)
    ensures TagValue(tags + [KeyValue("Owner", value)], "owner") == value
    ensures TagValue(tags + [KeyValue("OWNER", value)], "owner") == value
  {
    assert Lower("Owner") == "owner";
    assert Lower("OWNER") == "owner";
  }

  /** The tag loop of ParseS3: every tag is looked at, and a later match overwrites an earlier one. */
  method ScanTags(tags: seq<KeyValue>) returns (owner: string, expiry: string)
    ensures owner == TagValue(tags, "owner")
    ensures expiry == TagValue(tags, "expiry")
  {
    owner, expiry := "", "";
    for i := 0 to |tags|
      invariant owner == TagValue(tags[..i], "owner")
      invariant expiry == TagValue(tags[..i], "expiry")
    {
      assert tags[..i + 1][..i] == tags[..i];
      var key := Lower(tags[i].key);
      if key == "owner" {
        owner := tags[i].value;
        assert key != "expiry";
      } else if key == "expiry" {
        expiry := tags[i].value;
      }
    }
    assert tags[..|tags|] == tags;
  }

  /** The report resource of a kept bucket: its name, the region, its owner tag and its creation time. */
  function BucketResource(region: string, b: Bucket): Resource
  {
    Resource(b.name, region, TagValue(b.tags, "owner"), b.createdAt)
  }

  /** The resources of the buckets located in the region, in input order. */
  function S3Resources(region: string, buckets: seq<Bucket>): seq<Resource>
    decreases |buckets|
  {
    if buckets == [] then []
    else
      var n := |buckets| - 1;
      S3Resources(region, buckets[..n]) + (if buckets[n].locationConstraint == region then [BucketResource(region, buckets[n])] else [])
  }

  /** Mapping buckets a then b is mapping a, then mapping b. */
  lemma {:induction false} S3ResourcesAppend(region: string, a: seq<Bucket>, b: seq<Bucket>)
    ensures S3Resources(region, a + b) == S3Resources(region, a) + S3Resources(region, b)
    decreases |b|
  {
    if b == [] {
      assert a + b == a;
    } else {
      var n := |b| - 1;
      assert (a + b)[..|a + b| - 1] == a + b[..n];
      S3ResourcesAppend(region, a, b[..n]);
    }
  }

  /** A resource is reported exactly when it is the resource of a bucket in the region. */
  lemma {:induction false} S3ResourcesMeaning(region: string, buckets: seq<Bucket>, r: Resource)
    ensures r in S3Resources(region, buckets) <==>
      exists i :: 0 <= i < |buckets| && buckets[i].locationConstraint == region && r == BucketResource(region, buckets[i])
    decreases |buckets|
  {
    if buckets != [] {
      var n := |buckets| - 1;
      S3ResourcesMeaning(region, buckets[..n], r);
      if exists i :: 0 <= i < |buckets| && buckets[i].locationConstraint == region && r == BucketResource(region, buckets[i]) {
        var i :| 0 <= i < |buckets| && buckets[i].locationConstraint == region && r == BucketResource(region, buckets[i]);
        if i < n {
          assert buckets[..n][i] == buckets[i];
        }
      }
      if r in S3Resources(region, buckets[..n]) {
        var i :| 0 <= i < n && buckets[..n][i].locationConstraint == region && r == BucketResource(region, buckets[..n][i]);
        assert buckets[i] == buckets[..n][i];
      }
    }
  }

  /** Every resource is located in the region asked for, whatever the bucket list. */
  lemma {:induction false} S3ResourcesInRegion(region: string, buckets: seq<Bucket>)
    ensures forall r :: r in S3Resources(region, buckets) ==> r.location == region
    decreases |buckets|
  {
    if buckets != [] {
      S3ResourcesInRegion(region, buckets[..|buckets| - 1]);
    }
  }

  /**
    ParseS3: the loop over the decoded buckets, skipping those of another
    region and reading each kept bucket's owner and expiry tags.
  */
  method ParseS3(region: string, content: Decoded<Bucket>) returns (r: Decoded<Resource>)
    ensures content.Failure? ==> r == Failure(content.error)
    ensures content.Success? ==> r == Success(S3Resources(region, content.value))
  {
    if content.Failure? {
      return Failure(content.error);
    }
    var buckets := content.value;
    var result: seq<Resource> := [];
    for i := 0 to |buckets|
      invariant result == S3Resources(region, buckets[..i])
    {
      assert buckets[..i + 1][..i] == buckets[..i];
      var bucket := buckets[i];
      if bucket.locationConstraint != region {
        continue;
      }
      var owner, expiry := ScanTags(bucket.tags);
      result := result + [Resource(bucket.name, region, owner, bucket.createdAt)];
    }
    assert buckets[..|buckets|] == buckets;
    r := Success(result);
  }
}
