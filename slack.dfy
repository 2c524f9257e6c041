/**
  The notifier's message preparation (pkg/slack/slack.go): resources are
  routed to the chat channel of their owner, or to a default channel, and
  grouped by account; each account's resources become a table that is cut
  into messages short enough for the chat service, each wrapped with the
  account's name. Strings count runes: one char per rune.
*/
module Slack {
  import opened Wrappers
  import opened Dto
  import opened Strings
  import opened ResourceOrder

  // ---------------------------------------------------------------------
  // Splitting long messages
  // ---------------------------------------------------------------------

  /** The longest message the chat service takes, in runes. */
  const MaxSlackMessageLength := 3000

  /** A message is cut once a piece grows past this length: four fifths of the maximum, 2400. */
  const SplitMessageThreshold := MaxSlackMessageLength - MaxSlackMessageLength / 5

  /** Each line with the newline the builder writes after it. */
  function Terminated(lines: seq<string>): (r: seq<string>)
    ensures |r| == |lines|
    ensures forall i :: 0 <= i < |lines| ==> r[i] == lines[i] + "\n"
  {
    seq(|lines|, i requires 0 <= i < |lines| => lines[i] + "\n")
  }

  /** The builder loop after the given lines: the pieces cut so far and the text still in the builder. */
  datatype Cut = Cut(pieces: seq<string>, builder: string)

  function Fill(lines: seq<string>): Cut
    decreases |lines|
  {
    if lines == [] then Cut([], "")
    else
      var c := Fill(lines[..|lines| - 1]);
      var b := c.builder + lines[|lines| - 1] + "\n";
      if |b| > SplitMessageThreshold then Cut(c.pieces + [b], "") else Cut(c.pieces, b)
  }

  /**
    The builder loop loses and adds nothing: the pieces, then what is left in
    the builder, spell out the lines each followed by a newline; every piece
    cut is longer than the threshold, and the builder never is.
  */
  lemma {:induction false} FillMeaning(lines: seq<string>)
    ensures var c := Fill(lines);
      && Concat(c.pieces) + c.builder == Concat(Terminated(lines))
      && (forall i :: 0 <= i < |c.pieces| ==> |c.pieces[i]| > SplitMessageThreshold)
      && |c.builder| <= SplitMessageThreshold
    decreases |lines|
  {
    if lines != [] {
      var n := |lines| - 1;
      var c := Fill(lines[..n]);
      FillMeaning(lines[..n]);
      assert Terminated(lines)[..n] == Terminated(lines[..n]);
      var b := c.builder + lines[n] + "\n";
      if |b| > SplitMessageThreshold {
        assert (c.pieces + [b])[..|c.pieces|] == c.pieces;
      }
    }
  }

  /** Lines each followed by a newline are the lines joined by newlines, plus one final newline. */
  lemma {:induction false} TerminatedJoin(lines: seq<string>)
    requires |lines| >= 1
    ensures Concat(Terminated(lines)) == Join(lines, '\n') + "\n"
    decreases |lines|
  {
    var n := |lines| - 1;
    assert Terminated(lines)[..n] == Terminated(lines[..n]);
    if n == 0 {
      assert Terminated(lines)[..0] == [];
    } else {
      TerminatedJoin(lines[..n]);
      JoinLast(lines, '\n');
    }
  }

  /** splitMessage's result: a short message as it is; a long one cut line by line, with whatever is left in the builder last. */
  function SplitPieces(message: string): seq<string>
  {
    if |message| > MaxSlackMessageLength then
      var c := Fill(Split(message, '\n'));
      if |c.builder| > 0 then c.pieces + [c.builder] else c.pieces
    else [message]
  }

  /**
    A message of at most 3000 runes is sent as it is. A longer one is cut
    into pieces that together spell the message plus a final newline; no
    piece is empty, and every piece but the last is longer than 2400 runes.
  */
  lemma SplitPiecesMeaning(message: string)
    ensures |message| <= MaxSlackMessageLength ==> SplitPieces(message) == [message]
    ensures |message| > MaxSlackMessageLength ==>
      var pieces := SplitPieces(message);
      && Concat(pieces) == message + "\n"
      && |pieces| >= 1
      && (forall i :: 0 <= i < |pieces| ==> pieces[i] != "")
      && (forall i :: 0 <= i < |pieces| - 1 ==> |pieces[i]| > SplitMessageThreshold)
  {
    if |message| > MaxSlackMessageLength {
      var lines := Split(message, '\n');
      FillMeaning(lines);
      TerminatedJoin(lines);
      JoinSplit(message, '\n');
      Flushed(Fill(lines), message + "\n");
    }
  }

  /** The pieces after the final flush of a non-empty builder spell the text, none is empty, and all but the last are past the threshold. */
  lemma Flushed(c: Cut, text: string)
    requires Concat(c.pieces) + c.builder == text && text != ""
    requires forall i :: 0 <= i < |c.pieces| ==> |c.pieces[i]| > SplitMessageThreshold
    ensures var pieces := if |c.builder| > 0 then c.pieces + [c.builder] else c.pieces;
      && Concat(pieces) == text
      && |pieces| >= 1
      && (forall i :: 0 <= i < |pieces| ==> pieces[i] != "")
      && (forall i :: 0 <= i < |pieces| - 1 ==> |pieces[i]| > SplitMessageThreshold)
  {
    if |c.builder| > 0 {
      var pieces := c.pieces + [c.builder];
      assert pieces[..|c.pieces|] == c.pieces;
    } else {
      assert Concat(c.pieces) + c.builder == Concat(c.pieces);
    }
  }

  /** splitMessage: the builder loop over the message's lines, cutting whenever the builder grows past the threshold. */
  method SplitMessage(message: string) returns (messages: seq<string>)
    ensures messages == SplitPieces(message)
  {
    if |message| > MaxSlackMessageLength {
      messages := [];
      var builder := "";
      var lines := Split(message, '\n');
      for i := 0 to |lines|
        invariant Fill(lines[..i]) == Cut(messages, builder)
      {
        assert lines[..i + 1][..i] == lines[..i];
        builder := builder + lines[i] + "\n";
        if |builder| > SplitMessageThreshold {
          messages := messages + [builder];
          builder := "";
        }
      }
      assert lines[..|lines|] == lines;
      if |builder| > 0 {
        messages := messages + [builder];
      }
      return;
    }
    messages := [message];
  }

  // ---------------------------------------------------------------------
  // Routing resources to channels
  // ---------------------------------------------------------------------

  /** The channel of a resource's owner: the member's channel when the lower-cased owner is a member, the default otherwise. */
  function Route(members: map<string, string>, defaultChannel: string, owner: string): (channel: string)
    ensures Lower(owner) in members ==> channel == members[Lower(owner)]
    ensures Lower(owner) !in members ==> channel == defaultChannel
  {
    if Lower(owner) in members then members[Lower(owner)] else defaultChannel
  }

  /** Channel, then account, then resources: the shape groupSlackMessage builds. */
  type Groups = map<string, map<string, seq<Resource>>>

  /** One resource added at the end of its channel's and account's list, creating either when absent. */
  function Add(groups: Groups, channel: string, account: string, r: Resource): Groups
  {
    var inner := if channel in groups then groups[channel] else map[];
    var list := if account in inner then inner[account] else [];
    groups[channel := inner[account := list + [r]]]
  }

  /** The groups after routing the resources in order. */
  function Group(ps: seq<Placed>, members: map<string, string>, defaultChannel: string): Groups
    decreases |ps|
  {
    if ps == [] then map[]
    else
      var n := |ps| - 1;
      Add(Group(ps[..n], members, defaultChannel), Route(members, defaultChannel, ps[n].resource.owner), ps[n].account, ps[n].resource)
  }

  /** The resources of `account` routed to `channel`, in input order. */
  function Routed(ps: seq<Placed>, members: map<string, string>, defaultChannel: string, channel: string, account: string): seq<Resource>
    decreases |ps|
  {
    if ps == [] then []
    else
      var n := |ps| - 1;
      var here := ps[n].account == account && Route(members, defaultChannel, ps[n].resource.owner) == channel;
      Routed(ps[..n], members, defaultChannel, channel, account) + (if here then [ps[n].resource] else [])
  }

  /**
    groups[channel][account] exists exactly when some resource of the account
    is routed to the channel, and then lists exactly those resources, in
    input order; every channel present holds at least one account.
  */
  lemma {:induction false} GroupMeaning(ps: seq<Placed>, members: map<string, string>, defaultChannel: string, channel: string, account: string)
    ensures var g := Group(ps, members, defaultChannel);
      && (channel in g && account in g[channel] <==> Routed(ps, members, defaultChannel, channel, account) != [])
      && (channel in g && account in g[channel] ==> g[channel][account] == Routed(ps, members, defaultChannel, channel, account))
      && (channel in g ==> g[channel] != map[])
    decreases |ps|
  {
    if ps != [] {
      GroupMeaning(ps[..|ps| - 1], members, defaultChannel, channel, account);
    }
  }

  /** Every resource lands in its owner's channel under its own account. */
  lemma {:induction false} RoutedContains(ps: seq<Placed>, members: map<string, string>, defaultChannel: string, i: nat)
    requires i < |ps|
    ensures ps[i].resource in Routed(ps, members, defaultChannel, Route(members, defaultChannel, ps[i].resource.owner), ps[i].account)
    decreases |ps|
  {
    var n := |ps| - 1;
    if i < n {
      assert ps[..n][i] == ps[i];
      RoutedContains(ps[..n], members, defaultChannel, i);
    }
  }

  /** Nothing else is routed: a resource listed under a channel and an account is a resource of that account whose owner routes to that channel. */
  lemma {:induction false} RoutedOnlyThere(ps: seq<Placed>, members: map<string, string>, defaultChannel: string, channel: string, account: string, r: Resource)
    requires r in Routed(ps, members, defaultChannel, channel, account)
    ensures exists i :: 0 <= i < |ps| && ps[i] == Placed(account, r) && Route(members, defaultChannel, r.owner) == channel
    decreases |ps|
  {
    var n := |ps| - 1;
    if r in Routed(ps[..n], members, defaultChannel, channel, account) {
      RoutedOnlyThere(ps[..n], members, defaultChannel, channel, account, r);
      var i :| 0 <= i < n && ps[..n][i] == Placed(account, r) && Route(members, defaultChannel, r.owner) == channel;
      assert ps[i] == ps[..n][i];
    } else {
      assert ps[n] == Placed(account, r);
    }
  }

  /** One more resource routed: it is added under its owner's channel and its account. */
  lemma GroupSnoc(ps: seq<Placed>, p: Placed, members: map<string, string>, defaultChannel: string)
    ensures Group(ps + [p], members, defaultChannel)
      == Add(Group(ps, members, defaultChannel), Route(members, defaultChannel, p.resource.owner), p.account, p.resource)
  {
    assert (ps + [p])[..|ps|] == ps;
  }

  /** groupSlackMessage: every resource of every account, in order, appended to its channel's and account's list. */
  method GroupSlackMessage(accounts: seq<Account>, members: map<string, string>, defaultChannel: string)
    returns (groups: Groups)
    ensures groups == Group(Placements(accounts), members, defaultChannel)
  {
    groups := map[];
    for i := 0 to |accounts|
      invariant groups == Group(Placements(accounts[..i]), members, defaultChannel)
    {
      PlacementsSnoc(accounts, i);
      groups := GroupAccount(groups, Placements(accounts[..i]), accounts[i], members, defaultChannel);
    }
    assert accounts[..|accounts|] == accounts;
  }

  /** The inner loop of groupSlackMessage: one account's resources, in order. */
  method GroupAccount(groups: Groups, ghost done: seq<Placed>, account: Account, members: map<string, string>, defaultChannel: string)
    returns (groups': Groups)
    requires groups == Group(done, members, defaultChannel)
    ensures groups' == Group(done + Row(account), members, defaultChannel)
  {
    groups' := groups;
    ghost var row := Row(account);
    assert done + row[..0] == done;
    for j := 0 to |account.resources|
      invariant groups' == Group(done + row[..j], members, defaultChannel)
    {
      var resource := account.resources[j];
      var channel := Route(members, defaultChannel, resource.owner);
      GroupGrow(done, account, j, members, defaultChannel);
      groups' := Append(groups', channel, account.name, resource);
    }
    assert row[..|account.resources|] == row;
  }

  /** The next resource of an account, routed after the ones before it. */
  lemma GroupGrow(done: seq<Placed>, account: Account, j: nat, members: map<string, string>, defaultChannel: string)
    requires j < |account.resources|
    ensures var row := Row(account); var r := account.resources[j];
      Group(done + row[..j + 1], members, defaultChannel)
      == Add(Group(done + row[..j], members, defaultChannel), Route(members, defaultChannel, r.owner), account.name, r)
  {
    var row := Row(account);
    assert done + row[..j + 1] == done + row[..j] + [row[j]];
    GroupSnoc(done + row[..j], row[j], members, defaultChannel);
  }

  /** The body of groupSlackMessage's inner loop: the account's list under the channel, created when absent, grows by the resource. */
  method Append(groups: Groups, channel: string, account: string, resource: Resource) returns (groups': Groups)
    ensures groups' == Add(groups, channel, account, resource)
  {
    var accountResources := if channel in groups then groups[channel] else map[];
    ghost var inner := accountResources;
    ghost var list := if account in inner then inner[account] else [];
    if account !in accountResources {
      accountResources := accountResources[account := []];
    }
    assert accountResources[account] == list;
    accountResources := accountResources[account := accountResources[account] + [resource]];
    assert accountResources == inner[account := list + [resource]];
    groups' := groups[channel := accountResources];
  }

  // ---------------------------------------------------------------------
  // Tables and payloads
  // ---------------------------------------------------------------------

  /** A table row: position from 1, region, name and creation time (its date formatting is outside the model). */
  datatype MsgLine = MsgLine(index: int, region: string, name: string, created: Time)

  /** The table rows of the resources, in order. */
  function Lines(rs: seq<Resource>): (lines: seq<MsgLine>)
    ensures |lines| == |rs|
    ensures forall i :: 0 <= i < |rs| ==> lines[i] == MsgLine(i + 1, rs[i].location, rs[i].name, rs[i].created)
  {
    seq(|rs|, i requires 0 <= i < |rs| => MsgLine(i + 1, rs[i].location, rs[i].name, rs[i].created))
  }

  /** normalizeDTO: the loop appending one row per resource. */
  method NormalizeDTO(resources: seq<Resource>) returns (result: seq<MsgLine>)
    ensures result == Lines(resources)
  {
    result := [];
    for i := 0 to |resources|
      invariant result == Lines(resources[..i])
    {
      var r := resources[i];
      result := result + [MsgLine(i + 1, r.location, r.name, r.created)];
    }
    assert resources[..|resources|] == resources;
  }

  /** The message for one piece of an account's table: the account in bold, then the piece in a code block. */
  function Payload(account: string, piece: string): (p: string)
    ensures p == "*" + account + "*\n```\n" + piece + "```\n"
    ensures |p| == |account| + |piece| + 11
  {
    "*" + account + "*\n```\n" + piece + "```\n"
  }

  /** The account and the piece can be read back off a payload when the account name holds no '*'. */
  lemma PayloadInjective(a1: string, p1: string, a2: string, p2: string)
    requires '*' !in a1 && '*' !in a2
    requires Payload(a1, p1) == Payload(a2, p2)
    ensures a1 == a2 && p1 == p2
  {
    var m := Payload(a1, p1);
    assert forall k :: 0 <= k < |a1| ==> m[k + 1] == a1[k];
    assert forall k :: 0 <= k < |a2| ==> m[k + 1] == a2[k];
    assert m[|a1| + 1] == '*' && m[|a2| + 1] == '*';
    if |a1| != |a2| {
      assert false;
    }
    assert a1 == m[1..|a1| + 1] == a2;
    assert p1 == m[|a1| + 7..|m| - 4] == p2;
  }

  /** A table renderer: tableprinter's layout, which is outside the model. */
  type Render = seq<MsgLine> -> string

  /** Every piece of a message wrapped for one account. */
  function Payloads(account: string, pieces: seq<string>): (r: seq<string>)
    ensures |r| == |pieces|
    ensures forall i :: 0 <= i < |pieces| ==> r[i] == Payload(account, pieces[i])
  {
    seq(|pieces|, i requires 0 <= i < |pieces| => Payload(account, pieces[i]))
  }

  /** The messages of one account: its resources ordered by creation, rendered as a table, cut into pieces, each wrapped. */
  function AccountMessages(account: string, resources: seq<Resource>, render: Render): seq<string>
  {
    Payloads(account, SplitPieces(render(Lines(SortByCreated(resources)))))
  }

  /** The inner loop of prepareSlackMessage for one account. */
  method PrepareAccount(account: string, resources: seq<Resource>, render: Render) returns (payloads: seq<string>)
    ensures payloads == AccountMessages(account, resources, render)
  {
    var sorted := SortByCreated(resources);
    var table := NormalizeDTO(sorted);
    var pieces := SplitMessage(render(table));
    payloads := [];
    for k := 0 to |pieces|
      invariant payloads == Payloads(account, pieces[..k])
    {
      payloads := payloads + ["*" + account + "*\n```\n" + pieces[k] + "```\n"];
    }
    assert pieces[..|pieces|] == pieces;
  }

  /** The messages of a channel when its accounts are visited in the given order. */
  function ChannelMessages(order: seq<string>, accountResources: map<string, seq<Resource>>, render: Render): seq<string>
    requires forall i :: 0 <= i < |order| ==> order[i] in accountResources
    decreases |order|
  {
    if order == [] then []
    else
      var n := |order| - 1;
      ChannelMessages(order[..n], accountResources, render) + AccountMessages(order[n], accountResources[order[n]], render)
  }

  /** The keys of a map, each once, in some order. */
  ghost predicate EnumeratesKeys<V>(order: seq<string>, m: map<string, V>)
  {
    && (forall i, j :: 0 <= i < j < |order| ==> order[i] != order[j])
    && (forall k :: k in m <==> k in order)
  }

  /** `messages` are the channel's messages when its accounts are visited in `order`, which lists each of them once. */
  ghost predicate ListedIn(order: seq<string>, accountResources: map<string, seq<Resource>>, messages: seq<string>, render: Render)
  {
    && EnumeratesKeys(order, accountResources)
    && (forall i :: 0 <= i < |order| ==> order[i] in accountResources)
    && messages == ChannelMessages(order, accountResources, render)
  }

  /** One more account visited: its messages follow the earlier ones. */
  lemma ChannelMessagesSnoc(order: seq<string>, account: string, accountResources: map<string, seq<Resource>>, render: Render)
    requires forall i :: 0 <= i < |order| ==> order[i] in accountResources
    requires account in accountResources
    ensures forall i :: 0 <= i < |order + [account]| ==> (order + [account])[i] in accountResources
    ensures ChannelMessages(order + [account], accountResources, render)
      == ChannelMessages(order, accountResources, render) + AccountMessages(account, accountResources[account], render)
  {
    assert (order + [account])[..|order|] == order;
  }

  /** prepareSlackMessage for one channel: every account once, in map iteration order. */
  method PrepareChannel(accountResources: map<string, seq<Resource>>, render: Render) returns (messages: seq<string>)
    ensures exists order :: ListedIn(order, accountResources, messages, render)
  {
    messages := [];
    ghost var order: seq<string> := [];
    var rest := accountResources.Keys;
    while rest != {}
      invariant rest <= accountResources.Keys
      invariant forall i, j :: 0 <= i < j < |order| ==> order[i] != order[j]
      invariant forall k :: k in accountResources <==> k in order || k in rest
      invariant forall k :: k in order ==> k !in rest
      invariant forall i :: 0 <= i < |order| ==> order[i] in accountResources
      invariant messages == ChannelMessages(order, accountResources, render)
      decreases |rest|
    {
      var account :| account in rest;
      var payloads := PrepareAccount(account, accountResources[account], render);
      ChannelMessagesSnoc(order, account, accountResources, render);
      messages := messages + payloads;
      order := order + [account];
      rest := rest - {account};
    }
    assert ListedIn(order, accountResources, messages, render);
  }

  /**
    prepareSlackMessage: one message list per channel, holding every
    account's messages one account after another, in map iteration order.
  */
  method PrepareSlackMessage(groups: Groups, render: Render) returns (channelMessages: map<string, seq<string>>)
    ensures channelMessages.Keys == groups.Keys
    ensures forall c :: c in groups ==> exists order :: ListedIn(order, groups[c], channelMessages[c], render)
  {
    channelMessages := map[];
    var rest := groups.Keys;
    while rest != {}
      invariant rest <= groups.Keys
      invariant channelMessages.Keys == groups.Keys - rest
      invariant forall c :: c in channelMessages ==> exists order :: ListedIn(order, groups[c], channelMessages[c], render)
      decreases |rest|
    {
      var channel :| channel in rest;
      var messages := PrepareChannel(groups[channel], render);
      channelMessages := channelMessages[channel := messages];
      rest := rest - {channel};
    }
  }
}
