/**
 * `SearchChannels`: rank the names of the searchable channels against the
 * query and map the chosen positions back to channels.
 *
 * The fuzzy scorer is a parameter (`Ranker`): all the model knows of it is
 * what a top-five extraction returns, at most five distinct positions into
 * the list of names it was given.
 */
module Search {
  import opened Text
  import opened Channels
  import opened QueryInterpreter

  /** How many matches the extraction keeps. */
  const Limit := 5

  /** At most `Limit` distinct positions into a list of `count` names. */
  predicate IsRanking(r: seq<nat>, count: nat) {
    && |r| <= Limit
    && (forall k :: 0 <= k < |r| ==> r[k] < count)
    && (forall k, l :: 0 <= k < l < |r| ==> r[k] != r[l])
  }

  /** A top-`Limit` extraction over a list of names, best match first. */
  type Ranker = f: (string, seq<string>) -> seq<nat> | forall query, names :: IsRanking(f(query, names), |names|)
    witness (query: string, names: seq<string>) => []

  /** Direct and group messages are fetched but never offered to the scorer. */
  predicate IsSearchable(c: Channel) {
    c.kind != Im && c.kind != Mpim
  }

  /** The searchable channels of `cs`, in order. */
  function Searchable(cs: seq<Channel>): (r: seq<Channel>)
    ensures |r| <= |cs|
    ensures forall c :: c in r <==> c in cs && IsSearchable(c)
  {
    if |cs| == 0 then []
    else
      var init, c := cs[..|cs| - 1], cs[|cs| - 1];
      assert cs == init + [c];
      Searchable(init) + (if IsSearchable(c) then [c] else [])
  }

  /** The positions of the searchable channels of `cs`, in increasing order. */
  function SearchablePositions(cs: seq<Channel>): (idx: seq<nat>)
    ensures forall k :: 0 <= k < |idx| ==> idx[k] < |cs| && IsSearchable(cs[idx[k]])
    ensures forall k, l :: 0 <= k < l < |idx| ==> idx[k] < idx[l]
    ensures forall i :: 0 <= i < |cs| && IsSearchable(cs[i]) ==> i in idx
  {
    if |cs| == 0 then []
    else
      var init := cs[..|cs| - 1];
      var idx := SearchablePositions(init);
      var r := idx + (if IsSearchable(cs[|cs| - 1]) then [|cs| - 1] else []);
      assert forall k :: 0 <= k < |idx| ==> cs[idx[k]] == init[idx[k]];
      assert forall i :: 0 <= i < |cs| && IsSearchable(cs[i]) ==> i in r by {
        forall i | 0 <= i < |cs| && IsSearchable(cs[i]) ensures i in r {
          if i < |init| {
            assert cs[i] == init[i];
            assert i in idx;
          }
        }
      }
      r
  }

  /**
   * `Searchable` keeps every searchable channel once and in list order:
   * its k-th channel is the channel at the k-th searchable position.
   */
  lemma {:induction false} SearchableInOrder(cs: seq<Channel>)
    ensures |Searchable(cs)| == |SearchablePositions(cs)|
    ensures forall k :: 0 <= k < |Searchable(cs)| ==> Searchable(cs)[k] == cs[SearchablePositions(cs)[k]]
  {
    if |cs| > 0 {
      var init, c := cs[..|cs| - 1], cs[|cs| - 1];
      assert cs == init + [c];
      SearchableInOrder(init);
      var kept, idx := Searchable(init), SearchablePositions(init);
      var last := if IsSearchable(c) then [c] else [];
      var lastIdx := if IsSearchable(c) then [|cs| - 1] else [];
      assert Searchable(cs) == kept + last;
      assert SearchablePositions(cs) == idx + lastIdx;
      PickedAppend(init, c, kept, idx, last, lastIdx);
    }
  }

  /** One step of `SearchableInOrder`: picking from `init` extends to picking from `init + [c]`. */
  lemma PickedAppend(init: seq<Channel>, c: Channel, kept: seq<Channel>, idx: seq<nat>,
                     last: seq<Channel>, lastIdx: seq<nat>)
    requires |kept| == |idx| && forall k :: 0 <= k < |kept| ==> idx[k] < |init| && kept[k] == init[idx[k]]
    requires (last == [c] && lastIdx == [|init|]) || (last == [] && lastIdx == [])
    ensures |kept + last| == |idx + lastIdx|
    ensures forall k :: 0 <= k < |kept + last| ==> (kept + last)[k] == (init + [c])[(idx + lastIdx)[k]]
  {
  }

  /** The names of `cs`, position by position. */
  function Names(cs: seq<Channel>): (r: seq<string>)
    ensures |r| == |cs|
    ensures forall i :: 0 <= i < |cs| ==> r[i] == cs[i].name
  {
    seq(|cs|, i requires 0 <= i < |cs| => cs[i].name)
  }

  /**
   * What `SearchChannels` returns, as written: the positions chosen among the
   * searchable names are used to index the full channel list. Every match is
   * therefore one of the first `|Searchable(channels)|` channels, whatever
   * its type.
   */
  function Matches(channels: seq<Channel>, query: string, rank: Ranker): (r: seq<Channel>)
    ensures |r| <= Limit
    ensures forall k :: 0 <= k < |r| ==> r[k] in channels[..|Searchable(channels)|]
    ensures Searchable(channels) == [] ==> r == []
    ensures var ranked := rank(StripLeadingSigils(query), Names(Searchable(channels)));
      && |r| == |ranked|
      && forall k :: 0 <= k < |r| ==> ranked[k] < |Searchable(channels)| && r[k] == channels[ranked[k]]
  {
    var n := |Searchable(channels)|;
    var ranked := rank(StripLeadingSigils(query), Names(Searchable(channels)));
    var r := seq(|ranked|, k requires 0 <= k < |ranked| => channels[ranked[k]]);
    assert |ranked| > 0 ==> ranked[0] < n;
    assert forall k :: 0 <= k < |r| ==> r[k] == channels[..n][ranked[k]];
    r
  }

  /**
   * The matches as the search evidently intends them: the chosen positions
   * index the searchable channels whose names were ranked, so every match is
   * a searchable channel of the list carrying the name the scorer chose.
   */
  function IntendedMatches(channels: seq<Channel>, query: string, rank: Ranker): (r: seq<Channel>)
    ensures |r| <= Limit
    ensures forall k :: 0 <= k < |r| ==> IsSearchable(r[k]) && r[k] in channels
    ensures var names := Names(Searchable(channels));
      var ranked := rank(StripLeadingSigils(query), names);
      && |r| == |ranked|
      && forall k :: 0 <= k < |r| ==> r[k] == Searchable(channels)[ranked[k]] && r[k].name == names[ranked[k]]
  {
    var s := Searchable(channels);
    var ranked := rank(StripLeadingSigils(query), Names(s));
    seq(|ranked|, k requires 0 <= k < |ranked| => s[ranked[k]])
  }

  /**
   * The as-written and the intended matches take the same ranked positions;
   * the former reads each in the full list, the latter at the searchable
   * position it stands for. They differ exactly by that change of index base.
   */
  lemma IndexBases(channels: seq<Channel>, query: string, rank: Ranker)
    ensures var ranked := rank(StripLeadingSigils(query), Names(Searchable(channels)));
      var written, intended := Matches(channels, query, rank), IntendedMatches(channels, query, rank);
      && |written| == |intended| == |ranked|
      && forall k :: 0 <= k < |ranked| ==>
           && ranked[k] < |SearchablePositions(channels)|
           && written[k] == channels[ranked[k]]
           && intended[k] == channels[SearchablePositions(channels)[ranked[k]]]
  {
    SearchableInOrder(channels);
  }

  lemma NamesAppend(cs: seq<Channel>, c: Channel)
    ensures Names(cs + [c]) == Names(cs) + [c.name]
  {
  }

  /**
   * The `foreach` of `SearchChannels` that collects the names the scorer
   * sees, together with the channels they belong to.
   */
  method CollectSearchable(channels: seq<Channel>) returns (candidates: seq<Channel>, names: seq<string>)
    ensures candidates == Searchable(channels) && names == Names(candidates)
  {
    candidates, names := [], [];
    for i := 0 to |channels|
      invariant candidates == Searchable(channels[..i]) && names == Names(candidates)
    {
      assert channels[..i + 1] == channels[..i] + [channels[i]];
      assert channels[..i + 1][..i] == channels[..i];
      if channels[i].kind != Im && channels[i].kind != Mpim {
        NamesAppend(candidates, channels[i]);
        candidates, names := candidates + [channels[i]], names + [channels[i].name];
      }
    }
    assert channels[..|channels|] == channels;
  }

  /** The three sigil checks at the top of `SearchChannels`, without the trim. */
  method StripSigils(query: string) returns (text: string)
    ensures text == StripLeadingSigils(query)
  {
    text := query;
    if StartsWith(text, '#') {
      text := text[1..];
    }
    if StartsWith(text, '^') {
      text := text[1..];
    }
    if StartsWith(text, '@') {
      text := text[1..];
    }
  }

  /**
   * `SearchChannels` as written: strip a leading `#`, `^` and `@` in turn
   * (the text is not trimmed here), collect the names of the channels that
   * are neither direct nor group messages, take the top five, and look each
   * chosen position up in the full `channels` list.
   */
  method SearchChannels(channels: seq<Channel>, query: string, rank: Ranker) returns (matches: seq<Channel>)
    ensures matches == Matches(channels, query, rank)
  {
    var text := StripSigils(query);
    var _, names := CollectSearchable(channels);
    var result := rank(text, names);
    ghost var written := Matches(channels, query, rank);
    assert written == seq(|result|, k requires 0 <= k < |result| => channels[result[k]]);
    matches := [];
    for k := 0 to |result|
      invariant matches == written[..k]
    {
      matches := matches + [channels[result[k]]];
    }
    assert written[..|result|] == written;
  }

  /**
   * `SearchChannels` corrected: each chosen position is looked up among the
   * searchable channels whose names were ranked.
   */
  method SearchChannelsCorrected(channels: seq<Channel>, query: string, rank: Ranker) returns (matches: seq<Channel>)
    ensures matches == IntendedMatches(channels, query, rank)
  {
    var text := StripLeadingSigils(query);
    var candidates, names := CollectSearchable(channels);
    var result := rank(text, names);
    ghost var intended := IntendedMatches(channels, query, rank);
    assert intended == seq(|result|, k requires 0 <= k < |result| => candidates[result[k]]);
    matches := [];
    for k := 0 to |result|
      invariant matches == intended[..k]
    {
      matches := matches + [candidates[result[k]]];
    }
    assert intended[..|result|] == intended;
  }

  /** When the list holds no direct or group messages, the two readings agree. */
  lemma {:induction false} SearchableKeepsAll(cs: seq<Channel>)
    requires forall c :: c in cs ==> IsSearchable(c)
    ensures Searchable(cs) == cs
  {
    if |cs| > 0 {
      var init, last := cs[..|cs| - 1], cs[|cs| - 1];
      assert cs == init + [last];
      forall c | c in init
        ensures IsSearchable(c)
      {
        assert c in cs;
      }
      SearchableKeepsAll(init);
      assert IsSearchable(last);
    }
  }

  lemma MatchesAgreeWithoutMessages(channels: seq<Channel>, query: string, rank: Ranker)
    requires forall c :: c in channels ==> IsSearchable(c)
    ensures Matches(channels, query, rank) == IntendedMatches(channels, query, rank)
  {
    SearchableKeepsAll(channels);
  }

  /**
   * A search whose sigils ask for direct messages only (`@`) or group
   * messages only (`^`) shows nothing when the server returns only the
   * requested types: the search drops exactly those types before ranking.
   */
  lemma MessageSigilFindsNothing(search: string, defaults: TypeToggles, channels: seq<Channel>, rank: Ranker)
    requires '@' in SigilPrefix(Trim(search)) || '^' in SigilPrefix(Trim(search))
    requires forall c :: c in channels ==> Includes(SigilToggles(Trim(search), defaults), c.kind)
    ensures Searchable(channels) == []
    ensures Matches(channels, search, rank) == [] && IntendedMatches(channels, search, rank) == []
  {
    var toggles := SigilToggles(Trim(search), defaults);
    assert !toggles.incPublic && !toggles.incPrivate;
    var kept := Searchable(channels);
    assert |kept| > 0 ==> kept[0] in channels && IsSearchable(kept[0]);
    var ranked := rank(StripLeadingSigils(search), Names(kept));
    assert |ranked| > 0 ==> ranked[0] < |kept|;
  }

  /** A scorer that prefers the first name it is given. */
  const TopOne: Ranker := (query: string, names: seq<string>) => if |names| > 0 then [0] else []

  /**
   * A direct message listed before a public channel is returned for a search
   * that only ranked the public channel's name, while the intended reading
   * returns the public channel.
   */
  lemma DirectMessageCanBeReturned()
    ensures var dm := Channel("D1", "alice", Im, false, "", "T1");
      var general := Channel("C1", "general", Public, false, "", "T1");
      && !IsSearchable(dm)
      && Matches([dm, general], "general", TopOne) == [dm]
      && IntendedMatches([dm, general], "general", TopOne) == [general]
  {
    var dm := Channel("D1", "alice", Im, false, "", "T1");
    var general := Channel("C1", "general", Public, false, "", "T1");
    var cs := [dm, general];
    assert cs[..1] == [dm];
    assert Searchable([dm]) == Searchable([]) + [];
    assert Searchable(cs) == Searchable([dm]) + [general];
    assert Searchable(cs) == [general];
  }
}
