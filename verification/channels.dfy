/**
 * Conversations as the plugin keeps them (the `Channel` struct and the
 * `ChannelType` enum), the JSON elements of a `users.conversations` page
 * they are read from, and the per-element mapping of `FetchChannels`.
 */
module Channels {
  import opened Wrappers

  /** The four kinds of Slack conversation. */
  datatype ChannelType = Public | Private | Mpim | Im

  /** One conversation: `kind` is the source's `type` field. */
  datatype Channel = Channel(
    id: string,
    name: string,
    kind: ChannelType,
    isArchived: bool,
    description: string,
    contextTeamId: string)

  /** The exceptions that end a fetch with no list at all. */
  datatype FetchError =
    | TransportFailed        // SendAsync threw
    | HttpStatus(code: int)  // EnsureSuccessStatusCode threw on a non-2xx status
    | MalformedChannel       // an element whose is_archived is not a boolean
    | PageBudgetExhausted    // more pages than the model's bound (see README)

  /** A `{ "value": ... }` object such as `purpose` or `topic`. */
  datatype TextObject = TextObject(value: Option<string>)

  /** One non-null element of the `channels` array; None is an absent field or a JSON null. */
  datatype ChannelObject = ChannelObject(
    id: Option<string>,
    name: Option<string>,
    isIm: Option<bool>,
    isMpim: Option<bool>,
    isPrivate: Option<bool>,
    isArchived: Option<bool>,
    purpose: Option<TextObject>,
    topic: Option<TextObject>,
    contextTeamId: Option<string>)

  /** A string field as the source reads it with a `(string)` cast: absent reads as "". */
  function OrEmpty(s: Option<string>): string {
    if s.Some? then s.value else ""
  }

  /** `channel[field]?["value"]` read as a string, absent reading as "". */
  function TextOf(t: Option<TextObject>): string {
    if t.Some? then OrEmpty(t.value.value) else ""
  }

  /** The type of an element: `is_im` first, then `is_mpim`, then `is_private`, otherwise Public. */
  function Classify(o: ChannelObject): (t: ChannelType)
    ensures t == Im <==> o.isIm == Some(true)
    ensures t == Mpim <==> o.isIm != Some(true) && o.isMpim == Some(true)
    ensures t == Private <==> o.isIm != Some(true) && o.isMpim != Some(true) && o.isPrivate == Some(true)
    ensures t == Public <==> o.isIm != Some(true) && o.isMpim != Some(true) && o.isPrivate != Some(true)
  {
    if o.isIm == Some(true) then Im
    else if o.isMpim == Some(true) then Mpim
    else if o.isPrivate == Some(true) then Private
    else Public
  }

  /** The description of an element: a non-empty purpose, else the topic, else "". */
  function Description(o: ChannelObject): (d: string)
    ensures TextOf(o.purpose) != "" ==> d == TextOf(o.purpose)
    ensures TextOf(o.purpose) == "" ==> d == TextOf(o.topic)
    ensures d != "" ==> d == TextOf(o.purpose) || d == TextOf(o.topic)
  {
    var purpose := if o.purpose.Some? then o.purpose.value.value else None;
    if purpose.Some? && purpose.value != "" then purpose.value
    else
      var topic := if o.topic.Some? then o.topic.value.value else None;
      if topic.Some? then topic.value else ""
  }

  /** The `Channel` built from one element; the `(bool)` cast of a missing `is_archived` throws. */
  function ToChannel(o: ChannelObject): (r: Result<Channel, FetchError>)
    ensures r.Failure? <==> o.isArchived.None?
    ensures r.Failure? ==> r.error == MalformedChannel
    ensures r.Success? ==> r.value.kind == Classify(o) && r.value.description == Description(o)
    ensures r.Success? ==> r.value.isArchived == o.isArchived.value
    ensures r.Success? ==> r.value.id == OrEmpty(o.id) && r.value.name == OrEmpty(o.name)
    ensures r.Success? ==> r.value.contextTeamId == OrEmpty(o.contextTeamId)
  {
    if o.isArchived.None? then Failure(MalformedChannel)
    else Success(Channel(
      OrEmpty(o.id),
      OrEmpty(o.name),
      Classify(o),
      o.isArchived.value,
      Description(o),
      OrEmpty(o.contextTeamId)))
  }

  /** The number of non-null elements. */
  function NonNullCount(elems: seq<Option<ChannelObject>>): nat {
    if |elems| == 0 then 0
    else (if elems[0].Some? then 1 else 0) + NonNullCount(elems[1..])
  }

  /** The non-null elements, in array order. */
  function NonNull(elems: seq<Option<ChannelObject>>): (r: seq<ChannelObject>)
    ensures |r| == NonNullCount(elems)
    ensures forall o :: o in r <==> Some(o) in elems
  {
    if |elems| == 0 then []
    else
      assert forall o :: Some(o) in elems <==> elems[0] == Some(o) || Some(o) in elems[1..];
      (if elems[0].Some? then [elems[0].value] else []) + NonNull(elems[1..])
  }

  /** Every non-null element carries `is_archived`. */
  predicate AllConvertible(elems: seq<Option<ChannelObject>>) {
    forall k :: 0 <= k < |elems| && elems[k].Some? ==> elems[k].value.isArchived.Some?
  }

  /**
   * The channels of one page, in array order: null elements are skipped,
   * and one element without `is_archived` fails the whole page.
   */
  function ConvertElements(elems: seq<Option<ChannelObject>>): (r: Result<seq<Channel>, FetchError>)
    ensures r.Success? <==> AllConvertible(elems)
    ensures r.Failure? ==> r.error == MalformedChannel
    ensures r.Success? ==> |r.value| == NonNullCount(elems)
  {
    if |elems| == 0 then Success([])
    else
      var rest := ConvertElements(elems[1..]);
      assert AllConvertible(elems) <==>
             (elems[0].Some? ==> elems[0].value.isArchived.Some?) && AllConvertible(elems[1..]) by {
        if AllConvertible(elems[1..]) && (elems[0].Some? ==> elems[0].value.isArchived.Some?) {
          forall k | 0 <= k < |elems| && elems[k].Some? ensures elems[k].value.isArchived.Some? {
            if k > 0 { assert elems[k] == elems[1..][k - 1]; }
          }
        }
      }
      match elems[0]
      case None => rest
      case Some(o) =>
        match ToChannel(o)
        case Failure(e) => Failure(e)
        case Success(c) =>
          if rest.Success? then Success([c] + rest.value) else rest
  }

  /**
   * A converted page lists, position by position, the channel built from
   * each non-null element, in array order.
   */
  lemma {:induction false} ConvertedInOrder(elems: seq<Option<ChannelObject>>)
    requires AllConvertible(elems)
    ensures var r := ConvertElements(elems);
      && r.Success? && |r.value| == |NonNull(elems)|
      && forall k :: 0 <= k < |r.value| ==> ToChannel(NonNull(elems)[k]) == Success(r.value[k])
  {
    if |elems| > 0 {
      var tail := elems[1..];
      assert AllConvertible(tail) by {
        forall k | 0 <= k < |tail| && tail[k].Some? ensures tail[k].value.isArchived.Some? {
          assert tail[k] == elems[k + 1];
        }
      }
      ConvertedInOrder(tail);
      var rest := ConvertElements(tail).value;
      if elems[0].Some? {
        var o := elems[0].value;
        var c := ToChannel(o).value;
        assert ConvertElements(elems).value == [c] + rest;
        assert NonNull(elems) == [o] + NonNull(tail);
      } else {
        assert ConvertElements(elems).value == rest;
        assert NonNull(elems) == NonNull(tail);
      }
    }
  }
}
