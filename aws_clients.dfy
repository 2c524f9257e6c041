/**
  The client cache of the teardown (pkg/aws/clients.go): one set of service
  handles per (account, region) pair, keyed by "account:region", built the
  first time the pair is seen and never replaced.
*/
module AwsClients {
  import opened Wrappers
  import opened Dto
  import opened Cloud

  /** clientKey: the account, a colon, the region. */
  function ClientKey(account: string, region: string): (key: string)
    ensures |key| == |account| + 1 + |region|
    ensures key[..|account|] == account && key[|account|] == ':' && key[|account| + 1..] == region
  {
    account + ":" + region
  }

  /** Two keys agree only for the same pair, as long as account names hold no colon. */
  lemma ClientKeyInjective(a1: string, r1: string, a2: string, r2: string)
    requires ':' !in a1 && ':' !in a2
    requires ClientKey(a1, r1) == ClientKey(a2, r2)
    ensures a1 == a2 && r1 == r2
  {
    var k := ClientKey(a1, r1);
    if |a1| != |a2| {
      assert false;
    }
    assert a1 == k[..|a1|] == a2;
  }

  /** The configuration loaded for a pair: the shared profile named after the account, and the region. */
  datatype Config = Config(profile: string, region: string)

  /** The service handles of one pair, each built from the same configuration. */
  datatype ClientSet = ClientSet(autoscaling: Config, cloudFormation: Config, ec2: Config, elb: Config, eks: Config)

  function FromConfig(cfg: Config): ClientSet
  {
    ClientSet(cfg, cfg, cfg, cfg, cfg)
  }

  /** The key a placed resource's clients are cached under. */
  function KeyOf(p: Placed): string
  {
    ClientKey(p.account, p.resource.location)
  }

  /** What populating the cache did: the entries it ends with, and the configuration error that stopped it, if any. */
  datatype Populated = Populated(entries: map<string, ClientSet>, err: Option<Err>)

  /**
    The cache after visiting the pairs in order, starting from `entries`: a
    pair whose key is present is skipped; otherwise its configuration is
    loaded, and a failure stops everything with the entries built so far
    kept.
  */
  function Populate(entries: map<string, ClientSet>, ps: seq<Placed>, load: (string, string) -> Option<Err>): Populated
    decreases |ps|
  {
    if ps == [] then Populated(entries, None)
    else
      var p := ps[0];
      var key := KeyOf(p);
      if key in entries then Populate(entries, ps[1..], load)
      else
        match load(p.account, p.resource.location)
        case Some(e) => Populated(entries, Some(e))
        case None => Populate(entries[key := FromConfig(Config(p.account, p.resource.location))], ps[1..], load)
  }

  /** Visiting a then b is visiting a and, unless it failed, b from where a left the cache. */
  lemma {:induction false} PopulateAppend(entries: map<string, ClientSet>, a: seq<Placed>, b: seq<Placed>, load: (string, string) -> Option<Err>)
    ensures Populate(entries, a + b, load) ==
      var r := Populate(entries, a, load);
      if r.err.Some? then r else Populate(r.entries, b, load)
    decreases |a|
  {
    if a == [] {
      assert a + b == b;
    } else {
      assert (a + b)[0] == a[0] && (a + b)[1..] == a[1..] + b;
      var key := KeyOf(a[0]);
      if key in entries {
        PopulateAppend(entries, a[1..], b, load);
      } else if load(a[0].account, a[0].resource.location).None? {
        PopulateAppend(entries[key := FromConfig(Config(a[0].account, a[0].resource.location))], a[1..], b, load);
      }
    }
  }

  /** An entry already in the cache is never replaced. */
  lemma {:induction false} PopulateKeeps(entries: map<string, ClientSet>, ps: seq<Placed>, load: (string, string) -> Option<Err>)
    ensures var r := Populate(entries, ps, load);
      forall key :: key in entries ==> key in r.entries && r.entries[key] == entries[key]
    decreases |ps|
  {
    if ps != [] {
      var key := KeyOf(ps[0]);
      if key in entries {
        PopulateKeeps(entries, ps[1..], load);
      } else if load(ps[0].account, ps[0].resource.location).None? {
        PopulateKeeps(entries[key := FromConfig(Config(ps[0].account, ps[0].resource.location))], ps[1..], load);
      }
    }
  }

  /** When no configuration failed, every pair visited has an entry. */
  lemma {:induction false} PopulateCovers(entries: map<string, ClientSet>, ps: seq<Placed>, load: (string, string) -> Option<Err>)
    ensures var r := Populate(entries, ps, load);
      r.err.None? ==> forall p :: p in ps ==> KeyOf(p) in r.entries
    decreases |ps|
  {
    if ps != [] {
      var key := KeyOf(ps[0]);
      var next := if key in entries then entries else entries[key := FromConfig(Config(ps[0].account, ps[0].resource.location))];
      if key in entries || load(ps[0].account, ps[0].resource.location).None? {
        PopulateCovers(next, ps[1..], load);
        PopulateKeeps(next, ps[1..], load);
        forall p | p in ps ensures p == ps[0] || p in ps[1..] {
        }
      }
    }
  }

  /**
    Every entry the cache gains belongs to a visited pair and holds handles
    built from the configuration of that pair's account profile and region,
    whose loading succeeded.
  */
  lemma {:induction false} PopulateBuilds(entries: map<string, ClientSet>, ps: seq<Placed>, load: (string, string) -> Option<Err>)
    ensures var r := Populate(entries, ps, load);
      forall key :: key in r.entries && key !in entries ==>
        exists p :: p in ps && KeyOf(p) == key && load(p.account, p.resource.location).None?
          && r.entries[key] == FromConfig(Config(p.account, p.resource.location))
    decreases |ps|
  {
    if ps != [] {
      var key := KeyOf(ps[0]);
      if key in entries {
        PopulateBuilds(entries, ps[1..], load);
        forall p | p in ps[1..] ensures p in ps {
        }
      } else if load(ps[0].account, ps[0].resource.location).None? {
        var next := entries[key := FromConfig(Config(ps[0].account, ps[0].resource.location))];
        PopulateBuilds(next, ps[1..], load);
        PopulateKeeps(next, ps[1..], load);
        forall p | p in ps[1..] ensures p in ps {
        }
      }
    }
  }

  /** A failure is the configuration error of a visited pair that had no entry yet. */
  lemma {:induction false} PopulateFails(entries: map<string, ClientSet>, ps: seq<Placed>, load: (string, string) -> Option<Err>)
    ensures var r := Populate(entries, ps, load);
      r.err.Some? ==> exists p :: p in ps && load(p.account, p.resource.location) == r.err
    decreases |ps|
  {
    if ps != [] {
      var key := KeyOf(ps[0]);
      var next := if key in entries then entries else entries[key := FromConfig(Config(ps[0].account, ps[0].resource.location))];
      if key in entries || load(ps[0].account, ps[0].resource.location).None? {
        PopulateFails(next, ps[1..], load);
        forall p | p in ps[1..] ensures p in ps {
        }
      }
    }
  }

  /** The process-wide client cache. */
  class ClientRegistry {
    var entries: map<string, ClientSet>

    constructor ()
      ensures entries == map[]
    {
      entries := map[];
    }

    /**
      InitClientsMap: for every resource of every account, in order, build
      the pair's clients unless its key is cached; a configuration failure
      returns at once.
    */
    method InitClientsMap(accounts: seq<Account>, load: (string, string) -> Option<Err>) returns (err: Option<Err>)
      modifies this
      ensures entries == Populate(old(entries), Placements(accounts), load).entries
      ensures err == Populate(old(entries), Placements(accounts), load).err
    {
      ghost var target := Populate(entries, Placements(accounts), load);
      for i := 0 to |accounts|
        invariant target == Populate(entries, Placements(accounts[i..]), load)
      {
        ghost var row := Row(accounts[i]);
        PlacementsFront(accounts[i..]);
        assert accounts[i..][0] == accounts[i] && accounts[i..][1..] == accounts[i + 1..];
        PopulateAppend(entries, row, Placements(accounts[i + 1..]), load);
        var resources := accounts[i].resources;
        for j := 0 to |resources|
          invariant target == (var r := Populate(entries, row[j..], load);
                               if r.err.Some? then r else Populate(r.entries, Placements(accounts[i + 1..]), load))
        {
          assert row[j..][0] == Placed(accounts[i].name, resources[j]) && row[j..][1..] == row[j + 1..];
          var key := ClientKey(accounts[i].name, resources[j].location);
          if key !in entries {
            var cfgErr := load(accounts[i].name, resources[j].location);
            if cfgErr.Some? {
              return cfgErr;
            }
            entries := entries[key := FromConfig(Config(accounts[i].name, resources[j].location))];
          }
        }
        assert row[|resources|..] == [];
      }
      assert accounts[|accounts|..] == [];
      err := None;
    }
  }
}
