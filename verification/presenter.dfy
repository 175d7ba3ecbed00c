/**
 * `Query`: the launcher entry point. An empty search offers one entry that
 * opens Slack; any other search fetches the channels, searches them and
 * shows one entry per match, which opens that channel through a
 * `slack://channel` deep link.
 */
module Presenter {
  import opened Wrappers
  import opened Text
  import opened Channels
  import opened QueryInterpreter
  import opened Fetch
  import opened Search

  /** The four icon paths the plugin chooses from. */
  datatype IconSet = IconSet(app: string, channel: string, privateChannel: string, archive: string)

  /** One launcher result: what is shown, and the URI its action opens. */
  datatype DisplayEntry = DisplayEntry(title: string, subTitle: string, queryTextDisplay: string, icon: string, target: string)

  const ArchivedSuffix := " (archived)"

  /** The name shown for a channel: its name, marked when it is archived. */
  function Title(c: Channel): (t: string)
    ensures c.name <= t
    ensures t == c.name <==> !c.isArchived
    ensures c.isArchived ==> t[|c.name|..] == ArchivedSuffix
  {
    if c.isArchived then c.name + ArchivedSuffix else c.name
  }

  /**
   * The icon of a channel: archived channels have their own icon whatever
   * their type; otherwise public and private channels each have one, and
   * direct and group messages fall back to the app icon.
   */
  function Icon(c: Channel, icons: IconSet): (i: string)
    ensures c.isArchived ==> i == icons.archive
    ensures !c.isArchived && c.kind == Public ==> i == icons.channel
    ensures !c.isArchived && c.kind == Private ==> i == icons.privateChannel
    ensures !c.isArchived && (c.kind == Im || c.kind == Mpim) ==> i == icons.app
  {
    if c.isArchived then icons.archive
    else if c.kind == Public then icons.channel
    else if c.kind == Private then icons.privateChannel
    else icons.app
  }

  const ChannelUriPrefix := "slack://channel?team="
  const IdParam := "&id="

  /** The deep link that opens channel `id` of workspace `team` in the desktop app. */
  function ChannelUri(team: string, id: string): string {
    ChannelUriPrefix + team + IdParam + id
  }

  /** Reads the team and channel id back out of a deep link. */
  function ParseChannelUri(uri: string): Option<(string, string)> {
    if |uri| < |ChannelUriPrefix| || uri[..|ChannelUriPrefix|] != ChannelUriPrefix then None
    else
      var rest := uri[|ChannelUriPrefix|..];
      if '&' !in rest then None
      else
        var i := IndexOf('&', rest);
        if !(IdParam <= rest[i..]) then None
        else Some((rest[..i], rest[i + |IdParam|..]))
  }

  /** The deep link names the workspace and the channel it was built from, as long as the team id has no `&`. */
  lemma ChannelUriRoundTrip(team: string, id: string)
    requires '&' !in team
    ensures ParseChannelUri(ChannelUri(team, id)) == Some((team, id))
  {
    var uri := ChannelUri(team, id);
    var rest := team + IdParam + id;
    assert uri == ChannelUriPrefix + rest;
    assert uri[|ChannelUriPrefix|..] == rest;
    assert uri[..|ChannelUriPrefix|] == ChannelUriPrefix;
    assert rest == team + ['&'] + ("id=" + id);
    IndexOfAfter('&', team, "id=" + id);
    assert rest[..|team|] == team;
    assert rest[|team|..] == IdParam + id;
    assert rest[|team| + |IdParam|..] == id;
  }

  /**
   * The entry for one matched channel: the title (also the text put back
   * into the search box), the description as subtitle, the icon for its
   * state and a deep link that identifies the channel.
   */
  function Present(c: Channel, icons: IconSet): (e: DisplayEntry)
    ensures e.title == e.queryTextDisplay == Title(c)
    ensures e.subTitle == c.description && e.icon == Icon(c, icons)
    ensures '&' !in c.contextTeamId ==> ParseChannelUri(e.target) == Some((c.contextTeamId, c.id))
  {
    var e := DisplayEntry(Title(c), c.description, Title(c), Icon(c, icons), ChannelUri(c.contextTeamId, c.id));
    if '&' in c.contextTeamId then e
    else
      ChannelUriRoundTrip(c.contextTeamId, c.id);
      e
  }

  /** The entry offered for an empty search: open the app itself. */
  function Fallback(icons: IconSet): DisplayEntry {
    DisplayEntry("Slack", "Open Slack", "", icons.app, "slack://")
  }

  /** One entry per match, in the order of the matches. */
  function Render(matches: seq<Channel>, icons: IconSet): (r: seq<DisplayEntry>)
    ensures |r| == |matches|
    ensures forall k :: 0 <= k < |r| ==> r[k] == Present(matches[k], icons)
  {
    seq(|matches|, k requires 0 <= k < |matches| => Present(matches[k], icons))
  }

  /** What `Query` returns for a search, and the requests it sends. */
  function QueryResult(search: string, settings: Settings, icons: IconSet, server: Server, rank: Ranker, maxPages: nat)
    : (Result<seq<DisplayEntry>, FetchError>, seq<Request>)
  {
    if search == "" then (Success([Fallback(icons)]), [])
    else
      var fetched := FetchOutcome(search, settings, server, maxPages);
      match fetched.0
      case Failure(e) => (Failure(e), fetched.1)
      case Success(channels) => (Success(Render(IntendedMatches(channels, search, rank), icons)), fetched.1)
  }

  /** The `foreach` over the matches of `Query`: one entry per match, in order. */
  method RenderMatches(matches: seq<Channel>, icons: IconSet) returns (results: seq<DisplayEntry>)
    ensures results == Render(matches, icons)
  {
    results := [];
    for k := 0 to |matches|
      invariant results == Render(matches[..k], icons)
    {
      var channel := matches[k];
      var subTitle := channel.description;
      var name := channel.name;
      if channel.isArchived {
        name := name + ArchivedSuffix;
      }
      var icon := icons.app;
      if channel.isArchived {
        icon := icons.archive;
      } else if channel.kind == Public {
        icon := icons.channel;
      } else if channel.kind == Private {
        icon := icons.privateChannel;
      }
      var entry := DisplayEntry(name, subTitle, name, icon, ChannelUri(channel.contextTeamId, channel.id));
      assert entry == Present(channel, icons);
      assert matches[..k + 1] == matches[..k] + [channel];
      results := results + [entry];
    }
    assert matches[..|matches|] == matches;
  }

  /**
   * `Query`: an empty search gives the single entry that opens Slack;
   * otherwise fetch the channels (an error of the fetch propagates), search
   * them with the raw search text, and build one entry per match.
   */
  method Query(search: string, settings: Settings, icons: IconSet, server: Server, rank: Ranker, maxPages: nat)
    returns (result: Result<seq<DisplayEntry>, FetchError>, sent: seq<Request>)
    ensures (result, sent) == QueryResult(search, settings, icons, server, rank, maxPages)
  {
    var results: seq<DisplayEntry> := [];
    if search != "" {
      var fetched;
      fetched, sent := FetchChannels(search, settings, server, maxPages);
      if fetched.Failure? {
        return Failure(fetched.error), sent;
      }
      var matches := SearchChannelsCorrected(fetched.value, search, rank);
      results := RenderMatches(matches, icons);
      return Success(results), sent;
    } else {
      results := [Fallback(icons)];
      return Success(results), [];
    }
  }

  /**
   * A search that is not empty but is blank, or only sigils, sends no
   * request and shows nothing.
   */
  lemma BlankSearchShowsNothing(search: string, settings: Settings, icons: IconSet, server: Server, rank: Ranker, maxPages: nat)
    requires search != "" && StripLeadingSigils(Trim(search)) == ""
    ensures QueryResult(search, settings, icons, server, rank, maxPages) == (Success([]), [])
  {
    var ranked := rank(StripLeadingSigils(search), Names(Searchable([])));
    assert |ranked| > 0 ==> ranked[0] < 0;
  }

  /**
   * Every entry shown for a list of channels is the entry of one of its
   * channels that is neither a direct nor a group message, and there are at
   * most five.
   */
  lemma EntriesPresentChannels(channels: seq<Channel>, search: string, rank: Ranker, icons: IconSet)
    ensures var entries := Render(IntendedMatches(channels, search, rank), icons);
      && |entries| <= Limit
      && forall k :: 0 <= k < |entries| ==> entries[k] in Render(Searchable(channels), icons)
  {
    var matches := IntendedMatches(channels, search, rank);
    var entries := Render(matches, icons);
    var shown := Searchable(channels);
    var all := Render(shown, icons);
    forall k | 0 <= k < |entries|
      ensures entries[k] in all
    {
      var c := matches[k];
      assert c in shown;
      var i :| 0 <= i < |shown| && shown[i] == c;
      assert all[i] == entries[k];
    }
  }

  /**
   * When the fetch succeeds, every entry of the query is the entry of a
   * fetched channel that is neither a direct nor a group message, and there
   * are at most five of them.
   */
  lemma QueryShowsFetchedChannels(search: string, settings: Settings, icons: IconSet, server: Server, rank: Ranker,
                                  maxPages: nat, channels: seq<Channel>)
    requires search != "" && FetchOutcome(search, settings, server, maxPages).0 == Success(channels)
    ensures var r := QueryResult(search, settings, icons, server, rank, maxPages).0;
      && r.Success? && |r.value| <= Limit
      && forall k :: 0 <= k < |r.value| ==> r.value[k] in Render(Searchable(channels), icons)
  {
    EntriesPresentChannels(channels, search, rank, icons);
  }
}
