/**
  The report records (pkg/dto/dto.go): a policy report groups, per cloud
  account, the resources a custodian policy found. Timestamps are instants
  on one ordered scale; their formatting and parsing are outside the model.
*/
module Dto {
  import opened Wrappers

  /** An instant (Go's time.Time), ordered by `<`. */
  type Time = int

  datatype Resource = Resource(name: string, location: string, owner: string, created: Time)

  datatype Account = Account(name: string, resources: seq<Resource>)

  datatype PolicyReport = PolicyReport(kind: string, policy: string, accounts: seq<Account>)

  /** A decoded record's key/value tag. */
  datatype KeyValue = KeyValue(key: string, value: string)

  /** A decode failure: the text of the decoder's error. */
  type DecodeError = string

  /** A file's content once decoded: the records it holds, or the decoder's error. */
  type Decoded<T> = Result<seq<T>, DecodeError>

  /** One resource of one account, with the account's name. */
  datatype Placed = Placed(account: string, resource: Resource)

  /** The resources of one account, each with its account. */
  function Row(a: Account): (r: seq<Placed>)
    ensures |r| == |a.resources|
    ensures forall j :: 0 <= j < |r| ==> r[j] == Placed(a.name, a.resources[j])
  {
    seq(|a.resources|, j requires 0 <= j < |a.resources| => Placed(a.name, a.resources[j]))
  }

  /** Every resource of every account, account by account, in input order. */
  function Placements(accounts: seq<Account>): seq<Placed>
    decreases |accounts|
  {
    if accounts == [] then []
    else
      var n := |accounts| - 1;
      Placements(accounts[..n]) + Row(accounts[n])
  }

  lemma {:induction false} PlacementsMeaning(accounts: seq<Account>, p: Placed)
    ensures p in Placements(accounts) <==>
      exists i, j :: 0 <= i < |accounts| && 0 <= j < |accounts[i].resources| && p == Placed(accounts[i].name, accounts[i].resources[j])
    decreases |accounts|
  {
    if accounts != [] {
      var n := |accounts| - 1;
      PlacementsMeaning(accounts[..n], p);
      if p in Placements(accounts[..n]) {
        var i, j :| 0 <= i < n && 0 <= j < |accounts[..n][i].resources| && p == Placed(accounts[..n][i].name, accounts[..n][i].resources[j]);
        assert accounts[..n][i] == accounts[i];
      } else if p in Row(accounts[n]) {
        var j :| 0 <= j < |Row(accounts[n])| && Row(accounts[n])[j] == p;
      }
      if exists i, j :: 0 <= i < |accounts| && 0 <= j < |accounts[i].resources| && p == Placed(accounts[i].name, accounts[i].resources[j]) {
        var i, j :| 0 <= i < |accounts| && 0 <= j < |accounts[i].resources| && p == Placed(accounts[i].name, accounts[i].resources[j]);
        if i < n {
          assert accounts[..n][i] == accounts[i];
        } else {
          assert Row(accounts[n])[j] == p;
        }
      }
    }
  }

  /** The resources of the accounts, taken from the front: the first account's row, then the rest's. */
  lemma PlacementsFront(accounts: seq<Account>)
    requires accounts != []
    ensures Placements(accounts) == Row(accounts[0]) + Placements(accounts[1..])
  {
    PlacementsConcat([accounts[0]], accounts[1..]);
    assert [accounts[0]] + accounts[1..] == accounts;
    assert [accounts[0]][..0] == [];
    assert Placements([accounts[0]]) == [] + Row(accounts[0]);
  }

  lemma {:induction false} PlacementsConcat(a: seq<Account>, b: seq<Account>)
    ensures Placements(a + b) == Placements(a) + Placements(b)
    decreases |b|
  {
    if b == [] {
      assert a + b == a;
    } else {
      var n := |b| - 1;
      assert (a + b)[..|a + b| - 1] == a + b[..n];
      assert (a + b)[|a + b| - 1] == b[n];
      PlacementsConcat(a, b[..n]);
      assert Placements(a + b) == Placements(a + b[..n]) + Row(b[n]);
    }
  }

  /** The resources of the first i + 1 accounts: those of the first i, then account i's row. */
  lemma PlacementsSnoc(accounts: seq<Account>, i: nat)
    requires i < |accounts|
    ensures Placements(accounts[..i + 1]) == Placements(accounts[..i]) + Row(accounts[i])
  {
    assert accounts[..i + 1][..i] == accounts[..i];
  }
}
