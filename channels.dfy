/** Locating the configured channel in the workspace's conversation list. */
module Channels {
  import opened Wrappers

  /** The fields of one entry of the conversation list that the search reads. */
  datatype Conversation = Conversation(id: string, name: string, isChannel: bool, topic: string, isMember: bool)

  /** What the search records about the channel it selects. */
  datatype Selection = Selection(chanId: string, topic: string, isMember: bool)

  /** A conversation qualifies when its name is the configured one and it is a channel. */
  predicate Matches(c: Conversation, name: string) {
    c.name == name && c.isChannel
  }

  function SelectionOf(c: Conversation): Selection {
    Selection(c.id, c.topic, c.isMember)
  }

  /** The index of the first qualifying conversation at or after `from`, if any. */
  function FirstMatchFrom(convs: seq<Conversation>, name: string, from: nat): (r: Option<nat>)
    requires from <= |convs|
    ensures r.None? <==> forall i :: from <= i < |convs| ==> !Matches(convs[i], name)
    ensures r.Some? ==>
      && from <= r.value < |convs|
      && Matches(convs[r.value], name)
      && forall j :: from <= j < r.value ==> !Matches(convs[j], name)
    decreases |convs| - from
  {
    if from == |convs| then None
    else if Matches(convs[from], name) then Some(from)
    else FirstMatchFrom(convs, name, from + 1)
  }

  /** The index of the first qualifying conversation in the list, if any. */
  function FirstMatch(convs: seq<Conversation>, name: string): (r: Option<nat>)
    ensures r.None? <==> forall i :: 0 <= i < |convs| ==> !Matches(convs[i], name)
    ensures r.Some? ==>
      && r.value < |convs|
      && Matches(convs[r.value], name)
      && forall j :: 0 <= j < r.value ==> !Matches(convs[j], name)
  {
    FirstMatchFrom(convs, name, 0)
  }

  /** The search loop: stops at the first conversation with the configured name that is a
      channel and records its id, topic and membership; finds nothing when none qualifies. */
  method FindChannel(convs: seq<Conversation>, name: string) returns (sel: Option<Selection>)
    ensures sel.None? <==> forall i :: 0 <= i < |convs| ==> !Matches(convs[i], name)
    ensures sel.Some? ==> exists k :: 0 <= k < |convs| && sel.value == SelectionOf(convs[k]) && Matches(convs[k], name) && (forall j :: 0 <= j < k ==> !Matches(convs[j], name))
    ensures sel.Some? <==> FirstMatch(convs, name).Some?
    ensures sel.Some? ==> sel.value == SelectionOf(convs[FirstMatch(convs, name).value])
  {
    sel := None;
    var i := 0;
    while i < |convs|
      invariant 0 <= i <= |convs|
      invariant sel.None?
      invariant forall j :: 0 <= j < i ==> !Matches(convs[j], name)
      invariant FirstMatchFrom(convs, name, i) == FirstMatch(convs, name)
    {
      var conv := convs[i];
      if conv.name == name && conv.isChannel {
        sel := Some(Selection(conv.id, conv.topic, conv.isMember));
        break;
      }
      i := i + 1;
    }
  }
}
