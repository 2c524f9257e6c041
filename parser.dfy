/**
  Building a policy report from custodian output (pkg/parser/parser.go):
  the report files of one policy are found by path, each file's account and
  region are read off its path, its resources are decoded by the parser of
  the requested resource type, and the resources are merged per account.
  Reading and decoding a file is one oracle, `load`.
*/
module Parser {
  import opened Wrappers
  import opened Dto
  import opened Strings
  import opened ResourceOrder

  // ---------------------------------------------------------------------
  // Paths
  // ---------------------------------------------------------------------

  /**
    accountRegion: a report path reads .../<account>/<region>/<policy>/resources.json,
    so the account and region are the fourth- and third-from-last segments.
    The source indexes without a check: a path of fewer than four segments
    makes it panic.
  */
  function AccountRegion(file: string): (r: (string, string))
    requires |Split(file, '/')| >= 4
    ensures '/' !in r.0 && '/' !in r.1
  {
    var parts := Split(file, '/');
    var l := |parts|;
    (parts[l - 4], parts[l - 3])
  }

  /** The name of every report file. */
  const ReportFile := "resources.json"

  /** The suffix every report file of a policy ends with. */
  function ReportSuffix(policy: string): string
  {
    "/" + policy + "/" + ReportFile
  }

  /** The file predicate of resourceFiles: not a directory, and the policy's report file name at the end of the path. */
  predicate IsReportFile(path: string, isDir: bool, policy: string)
  {
    !isDir && HasSuffix(path, ReportSuffix(policy))
  }

  lemma ReportFileSegment()
    ensures '/' !in ReportFile
  {
    assert forall i :: 0 <= i < |ReportFile| ==> ReportFile[i] != '/';
  }

  /** A path ending in two segments without separators splits into the front's segments and those two. */
  lemma SplitTwoSegments(front: string, a: string, b: string)
    requires '/' !in a && '/' !in b
    ensures Split(front + ['/'] + (a + ['/'] + b), '/') == Split(front, '/') + [a, b]
  {
    SplitWithoutSeparator(a, '/');
    SplitWithoutSeparator(b, '/');
    SplitAround(a, '/', b);
    SplitAround(front, '/', a + ['/'] + b);
  }

  /** A path ending in a policy's report suffix splits into the front's segments, the policy, and the file name. */
  lemma SplitReportPath(front: string, policy: string)
    requires '/' !in policy
    ensures Split(front + ReportSuffix(policy), '/') == Split(front, '/') + [policy, ReportFile]
  {
    ReportFileSegment();
    var name := ReportFile;
    assert front + ReportSuffix(policy) == front + ['/'] + (policy + ['/'] + name);
    SplitTwoSegments(front, policy, name);
  }

  /** A report file laid out as the custodian writes it is selected, and its path gives back its account and region. */
  lemma ReportLayout(root: string, account: string, region: string, policy: string)
    requires '/' !in account && '/' !in region && '/' !in policy
    ensures var path := root + "/" + account + "/" + region + ReportSuffix(policy);
      && IsReportFile(path, false, policy)
      && |Split(path, '/')| >= 4
      && AccountRegion(path) == (account, region)
  {
    var front := root + "/" + account + "/" + region;
    var path := front + ReportSuffix(policy);
    HasSuffixOfConcat(front, ReportSuffix(policy));
    SplitReportPath(front, policy);
    SplitWithoutSeparator(account, '/');
    SplitWithoutSeparator(region, '/');
    SplitAround(account, '/', region);
    assert front == root + ['/'] + (account + ['/'] + region);
    SplitAround(root, '/', account + ['/'] + region);
    assert Split(path, '/') == Split(root, '/') + [account, region] + [policy, ReportFile];
  }

  /** A selected path ends with the policy's segment and the report file name, whatever comes before. */
  lemma SelectedPathSegments(path: string, policy: string)
    requires IsReportFile(path, false, policy) && '/' !in policy
    ensures var parts := Split(path, '/');
      |parts| >= 3 && parts[|parts| - 2] == policy && parts[|parts| - 1] == ReportFile
  {
    var n := |path| - |ReportSuffix(policy)|;
    var front := path[..n];
    assert path == front + ReportSuffix(policy);
    SplitReportPath(front, policy);
  }

  // ---------------------------------------------------------------------
  // Resource types
  // ---------------------------------------------------------------------

  /** The resource parsers the report side knows. */
  datatype ResourceKind = EksKind | Ec2Kind | GkeKind | GceKind | ArgKind

  /** The parser table: a parser for exactly the types "eks", "ec2", "gke", "gce" and "arg". */
  function ParserFor(kind: string): (p: Option<ResourceKind>)
    ensures p.Some? <==> kind in {"eks", "ec2", "gke", "gce", "arg"}
  {
    if kind == "eks" then Some(EksKind)
    else if kind == "ec2" then Some(Ec2Kind)
    else if kind == "gke" then Some(GkeKind)
    else if kind == "gce" then Some(GceKind)
    else if kind == "arg" then Some(ArgKind)
    else None
  }

  /** The error for a resource type without a parser. */
  const Unsupported := "unsupported resource type"

  /** Reading and decoding one file with one parser for one region: its resources, or the error that stopped it. */
  type Loader = (ResourceKind, string, string) -> Result<seq<Resource>, string>

  /**
    resourcesFromFile: an unknown resource type fails before the file is
    read; otherwise the file is read and decoded by the type's parser.
  */
  function ResourcesFromFile(kind: string, region: string, file: string, load: Loader): (r: Result<seq<Resource>, string>)
    ensures ParserFor(kind).None? ==> r == Failure(Unsupported)
    ensures ParserFor(kind).Some? ==> r == load(ParserFor(kind).value, region, file)
  {
    match ParserFor(kind)
    case None => Failure(Unsupported)
    case Some(p) => load(p, region, file)
  }

  /** An unknown resource type fails the same way whatever the files hold. */
  lemma UnsupportedReadsNothing(kind: string, region: string, file: string, load1: Loader, load2: Loader)
    requires kind !in {"eks", "ec2", "gke", "gce", "arg"}
    ensures ResourcesFromFile(kind, region, file, load1) == ResourcesFromFile(kind, region, file, load2) == Failure(Unsupported)
  {
  }

  // ---------------------------------------------------------------------
  // Merging files per account
  // ---------------------------------------------------------------------

  /** One file's contribution: the account its path names and the resources it holds. */
  datatype Loaded = Loaded(account: string, resources: seq<Resource>)

  /** Every path has the four segments accountRegion needs. */
  predicate Addressable(files: seq<string>)
  {
    forall i :: 0 <= i < |files| ==> |Split(files[i], '/')| >= 4
  }

  /** Every file loaded in order, or the error of the first file that failed. */
  function LoadAll(files: seq<string>, kind: string, load: Loader): Result<seq<Loaded>, string>
    requires Addressable(files)
    decreases |files|
  {
    if files == [] then Success([])
    else
      var n := |files| - 1;
      match LoadAll(files[..n], kind, load)
      case Failure(e) => Failure(e)
      case Success(done) =>
        var (account, region) := AccountRegion(files[n]);
        match ResourcesFromFile(kind, region, files[n], load)
        case Failure(e) => Failure(e)
        case Success(rs) => Success(done + [Loaded(account, rs)])
  }

  /** What LoadAll does, file by file: it fails exactly when some file fails, with the first such file's error. */
  lemma {:induction false} LoadAllMeaning(files: seq<string>, kind: string, load: Loader)
    requires Addressable(files)
    ensures var r := LoadAll(files, kind, load);
      && (r.Success? <==> forall i :: 0 <= i < |files| ==> FileLoads(files, kind, load, i))
      && (r.Success? ==> |r.value| == |files| && forall i :: 0 <= i < |files| ==> r.value[i] == FileLoaded(files, kind, load, i))
      && (r.Failure? ==> exists i :: 0 <= i < |files| && FileError(files, kind, load, i) == Some(r.error) && forall j :: 0 <= j < i ==> FileLoads(files, kind, load, j))
    decreases |files|
  {
    if files != [] {
      var n := |files| - 1;
      var front := files[..n];
      LoadAllMeaning(front, kind, load);
      forall i | 0 <= i < n
        ensures FileOutcome(front, kind, load, i) == FileOutcome(files, kind, load, i)
        ensures FileLoads(front, kind, load, i) == FileLoads(files, kind, load, i)
        ensures FileError(front, kind, load, i) == FileError(files, kind, load, i)
        ensures FileLoads(files, kind, load, i) ==> FileLoaded(front, kind, load, i) == FileLoaded(files, kind, load, i)
      {
        assert front[i] == files[i];
      }
      var r := LoadAll(files, kind, load);
      var rf := LoadAll(front, kind, load);
      if rf.Failure? {
        var i :| 0 <= i < |front| && FileError(front, kind, load, i) == Some(rf.error)
            && forall j :: 0 <= j < i ==> FileLoads(front, kind, load, j);
        assert FileError(files, kind, load, i) == Some(r.error);
        assert !FileLoads(files, kind, load, i);
        assert forall j :: 0 <= j < i ==> FileLoads(files, kind, load, j);
      } else {
        assert forall j :: 0 <= j < n ==> FileLoads(files, kind, load, j);
        if !FileLoads(files, kind, load, n) {
          assert FileError(files, kind, load, n) == Some(r.error);
        } else {
          assert r.value == rf.value + [FileLoaded(files, kind, load, n)];
          forall i | 0 <= i < |files| ensures r.value[i] == FileLoaded(files, kind, load, i) {
            if i < n {
              assert r.value[i] == rf.value[i];
            }
          }
        }
      }
    }
  }

  /** The account and the outcome of file i. */
  function FileOutcome(files: seq<string>, kind: string, load: Loader, i: nat): (string, Result<seq<Resource>, string>)
    requires Addressable(files) && i < |files|
  {
    var (account, region) := AccountRegion(files[i]);
    (account, ResourcesFromFile(kind, region, files[i], load))
  }

  predicate FileLoads(files: seq<string>, kind: string, load: Loader, i: nat)
    requires Addressable(files) && i < |files|
  {
    FileOutcome(files, kind, load, i).1.Success?
  }

  function FileError(files: seq<string>, kind: string, load: Loader, i: nat): Option<string>
    requires Addressable(files) && i < |files|
  {
    var r := FileOutcome(files, kind, load, i).1;
    if r.Failure? then Some(r.error) else None
  }

  function FileLoaded(files: seq<string>, kind: string, load: Loader, i: nat): Loaded
    requires Addressable(files) && i < |files| && FileLoads(files, kind, load, i)
  {
    Loaded(FileOutcome(files, kind, load, i).0, FileOutcome(files, kind, load, i).1.value)
  }

  /** The accounts after merging loaded files in order: a file with no resources adds nothing; otherwise its resources go after its account's earlier ones. */
  function Merge(loaded: seq<Loaded>): map<string, Account>
    decreases |loaded|
  {
    if loaded == [] then map[]
    else
      var n := |loaded| - 1;
      var m := Merge(loaded[..n]);
      var f := loaded[n];
      if f.resources == [] then m
      else
        var earlier := if f.account in m then m[f.account].resources else [];
        m[f.account := Account(f.account, earlier + f.resources)]
  }

  /** Everything the files of one account hold, in file order. */
  function Gathered(loaded: seq<Loaded>, account: string): seq<Resource>
    decreases |loaded|
  {
    if loaded == [] then []
    else
      var n := |loaded| - 1;
      Gathered(loaded[..n], account) + (if loaded[n].account == account then loaded[n].resources else [])
  }

  /**
    The merged accounts: an account is present exactly when one of its files
    holds a resource; each entry carries its own name and the concatenation
    of its files' resources, in file order.
  */
  lemma {:induction false} MergeMeaning(loaded: seq<Loaded>, account: string)
    ensures account in Merge(loaded) <==> Gathered(loaded, account) != []
    ensures account in Merge(loaded) ==> Merge(loaded)[account] == Account(account, Gathered(loaded, account))
    decreases |loaded|
  {
    if loaded != [] {
      MergeMeaning(loaded[..|loaded| - 1], account);
    }
  }

  /** Report accounts, one per map entry, in some order: the order of map iteration, which Go leaves unspecified. */
  ghost predicate Enumerates(keys: seq<string>, m: map<string, Account>, accounts: seq<Account>)
  {
    && (forall i, j :: 0 <= i < j < |keys| ==> keys[i] != keys[j])
    && (forall k :: k in m <==> k in keys)
    && |accounts| == |keys|
    && (forall i :: 0 <= i < |keys| ==> keys[i] in m && accounts[i] == m[keys[i]])
  }

  /** accountsFromMap: every account of the map, each once, in iteration order. */
  method AccountsFromMap(m: map<string, Account>) returns (accounts: seq<Account>)
    ensures exists keys :: Enumerates(keys, m, accounts)
  {
    accounts := [];
    ghost var keys: seq<string> := [];
    var rest := m.Keys;
    while rest != {}
      invariant forall i, j :: 0 <= i < j < |keys| ==> keys[i] != keys[j]
      invariant forall k :: k in m <==> k in keys || k in rest
      invariant forall k :: k in keys ==> k !in rest
      invariant rest <= m.Keys
      invariant |accounts| == |keys|
      invariant forall i :: 0 <= i < |keys| ==> keys[i] in m && accounts[i] == m[keys[i]]
      decreases |rest|
    {
      var k :| k in rest;
      accounts := accounts + [m[k]];
      keys := keys + [k];
      rest := rest - {k};
    }
    assert Enumerates(keys, m, accounts);
  }

  /**
    reportFromFiles: load each file in order and merge its resources into
    its account; the first file that fails ends it with that error.
  */
  method ReportFromFiles(files: seq<string>, kind: string, policy: string, load: Loader)
    returns (r: Result<PolicyReport, string>)
    requires Addressable(files)
    ensures LoadAll(files, kind, load).Failure? ==> r == Failure(LoadAll(files, kind, load).error)
    ensures LoadAll(files, kind, load).Success? ==>
      r.Success? && r.value.kind == kind && r.value.policy == policy
      && exists keys :: Enumerates(keys, Merge(LoadAll(files, kind, load).value), r.value.accounts)
  {
    var accountMap: map<string, Account> := map[];
    ghost var loaded: seq<Loaded> := [];
    for i := 0 to |files|
      invariant LoadAll(files[..i], kind, load) == Success(loaded)
      invariant accountMap == Merge(loaded)
    {
      assert files[..i + 1][..i] == files[..i];
      var (accName, region) := AccountRegion(files[i]);
      var resources := ResourcesFromFile(kind, region, files[i], load);
      if resources.Failure? {
        LoadAllPrefix(files, i + 1, kind, load);
        return Failure(resources.error);
      }
      ghost var next := loaded + [Loaded(accName, resources.value)];
      assert next[..|loaded|] == loaded;
      loaded := next;
      if |resources.value| == 0 {
        continue;
      }
      var account := if accName in accountMap then accountMap[accName] else Account(accName, []);
      MergeNames(loaded[..|loaded| - 1], accName);
      account := account.(resources := account.resources + resources.value);
      accountMap := accountMap[accName := account];
    }
    assert files[..|files|] == files;
    var accounts := AccountsFromMap(accountMap);
    r := Success(PolicyReport(kind, policy, accounts));
  }

  /** Every entry of the merged map is stored under its own name. */
  lemma {:induction false} MergeNames(loaded: seq<Loaded>, account: string)
    ensures account in Merge(loaded) ==> Merge(loaded)[account].name == account
    decreases |loaded|
  {
    if loaded != [] {
      MergeNames(loaded[..|loaded| - 1], account);
    }
  }

  /** A failure among the first k files is the failure of all of them. */
  lemma {:induction false} LoadAllPrefix(files: seq<string>, k: nat, kind: string, load: Loader)
    requires Addressable(files) && k <= |files|
    requires LoadAll(files[..k], kind, load).Failure?
    ensures LoadAll(files, kind, load) == LoadAll(files[..k], kind, load)
    decreases |files| - k
  {
    if k < |files| {
      var n := |files| - 1;
      assert files[..n][..k] == files[..k];
      LoadAllPrefix(files[..n], k, kind, load);
      assert files[..|files|] == files;
    } else {
      assert files[..k] == files;
    }
  }

  /** The merged report names each account once, whatever the order. */
  lemma AccountsDistinct(keys: seq<string>, m: map<string, Account>, accounts: seq<Account>)
    requires Enumerates(keys, m, accounts)
    requires forall k :: k in m ==> m[k].name == k
    ensures forall i, j :: 0 <= i < j < |accounts| ==> accounts[i].name != accounts[j].name
    ensures forall k :: k in m <==> exists i :: 0 <= i < |accounts| && accounts[i].name == k
  {
    forall k | k in m ensures exists i :: 0 <= i < |accounts| && accounts[i].name == k {
      var i :| 0 <= i < |keys| && keys[i] == k;
      assert accounts[i].name == k;
    }
  }

  // ---------------------------------------------------------------------
  // Sorting
  // ---------------------------------------------------------------------

  /** An account with its resources ordered by creation time. */
  function SortedAccount(a: Account): (r: Account)
    ensures r.name == a.name
    ensures ByCreated(r.resources) && multiset(r.resources) == multiset(a.resources)
  {
    a.(resources := SortByCreated(a.resources))
  }

  /** sortResources: each account's resources, in place, ordered by creation time. */
  method SortResources(accounts: array<Account>)
    modifies accounts
    ensures forall i :: 0 <= i < accounts.Length ==> accounts[i] == SortedAccount(old(accounts[i]))
  {
    ghost var before := accounts[..];
    for i := 0 to accounts.Length
      invariant forall k :: 0 <= k < i ==> accounts[k] == SortedAccount(before[k])
      invariant forall k :: i <= k < accounts.Length ==> accounts[k] == before[k]
    {
      accounts[i] := SortedAccount(accounts[i]);
    }
  }
}
