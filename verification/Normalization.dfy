/**
  Event normalisation: a transaction's flat list of events sorted into one log per
  message, and a block's finalize events split into begin-block and end-block ones.
 */
module Normalization {
  import opened Options
  import opened Decimal

  datatype Attribute = Attribute(key: string, value: string)
  datatype Event = Event(kind: string, attributes: seq<Attribute>)

  /** The value of the first attribute with the key. */
  function FirstValue(attributes: seq<Attribute>, key: string): Option<string> {
    if attributes == [] then None
    else if attributes[0].key == key then Some(attributes[0].value)
    else FirstValue(attributes[1..], key)
  }

  method GetValueForAttribute(key: string, event: Event) returns (value: Option<string>)
    ensures value == FirstValue(event.attributes, key)
    ensures value.None? <==> forall a | a in event.attributes :: a.key != key
  {
    for n := 0 to |event.attributes|
      invariant FirstValue(event.attributes, key) == FirstValue(event.attributes[n..], key)
      invariant forall i | 0 <= i < n :: event.attributes[i].key != key
    {
      if event.attributes[n].key == key {
        return Some(event.attributes[n].value);
      }
      assert event.attributes[n..][1..] == event.attributes[n + 1..];
    }
    return None;
  }

  // ------------------------------------------------------------------- logs by message

  /** Which message an event names: none, an unreadable number, or that of a message. */
  datatype Tag = Untagged | Unreadable | Message(index: int)

  function TagOf(event: Event): Tag {
    match FirstValue(event.attributes, "msg_index")
    case None => Untagged
    case Some(value) =>
      if value == "" then Untagged
      else match Atoi(value)
           case None => Unreadable
           case Some(i) => Message(i)
  }

  datatype MessageLog = MessageLog(msgIndex: int, events: seq<Event>)

  /** The subsequence of the events that name message i. */
  function EventsOf(events: seq<Event>, i: int): seq<Event> {
    if events == [] then []
    else
      var last := events[|events| - 1];
      EventsOf(events[..|events| - 1], i) + if TagOf(last) == Message(i) then [last] else []
  }

  /** One event is put into the log of the message it names, or left out. */
  method PlaceEvent(parsed: seq<MessageLog>, event: Event) returns (logs: Option<seq<MessageLog>>)
    ensures logs.None? <==> TagOf(event) == Unreadable
    ensures logs.Some? ==> logs.value == Placed(parsed, event)
  {
    var value := GetValueForAttribute("msg_index", event);
    if value.Some? && value.value != "" {
      var msgIndex := Atoi(value.value);
      if msgIndex.None? {
        return None;
      }
      if 0 <= msgIndex.value < |parsed| {
        var log := parsed[msgIndex.value];
        return Some(parsed[msgIndex.value := log.(events := log.events + [event])]);
      }
    }
    return Some(parsed);
  }

  function Placed(logs: seq<MessageLog>, event: Event): seq<MessageLog> {
    var tag := TagOf(event);
    if tag.Message? && 0 <= tag.index < |logs|
    then logs[tag.index := logs[tag.index].(events := logs[tag.index].events + [event])]
    else logs
  }

  /** The number a log carries is its place among the messages as far as 32 bits tell. */
  function Uint32(i: nat): nat {
    i % 0x1_0000_0000
  }

  /** Fails exactly when an event names its message unreadably. */
  method ParseTxEventsToMessageIndexEvents(numMessages: nat, events: seq<Event>) returns (logs: Option<seq<MessageLog>>)
    ensures logs.None? <==> exists event :: event in events && TagOf(event) == Unreadable
    ensures logs.Some? ==> logs.value == LogsOf(numMessages, events)
  {
    var parsed := seq(numMessages, i requires i >= 0 => MessageLog(Uint32(i), []));
    for n := 0 to |events|
      invariant parsed == LogsOf(numMessages, events[..n])
      invariant forall k | 0 <= k < n :: TagOf(events[k]) != Unreadable
    {
      assert events[..n + 1][..n] == events[..n];
      OneMoreEvent(numMessages, events[..n + 1]);
      var placed := PlaceEvent(parsed, events[n]);
      if placed.None? {
        assert events[n] in events;
        return None;
      }
      parsed := placed.value;
    }
    assert events[..|events|] == events;
    return Some(parsed);
  }

  function LogsOf(numMessages: nat, events: seq<Event>): seq<MessageLog> {
    seq(numMessages, i requires i >= 0 => MessageLog(Uint32(i), EventsOf(events, i)))
  }

  lemma OneMoreEvent(numMessages: nat, events: seq<Event>)
    requires events != []
    ensures LogsOf(numMessages, events)
         == Placed(LogsOf(numMessages, events[..|events| - 1]), events[|events| - 1])
  {
    var init, last := events[..|events| - 1], events[|events| - 1];
    var logs, logs2 := LogsOf(numMessages, init), LogsOf(numMessages, events);
    forall i | 0 <= i < numMessages ensures logs2[i] == Placed(logs, last)[i] {
      assert EventsOf(init, i) + [] == EventsOf(init, i);
    }
  }

  /** The places of the events that name message i. */
  function PlacesOf(events: seq<Event>, i: int): seq<nat> {
    if events == [] then []
    else
      var n := |events| - 1;
      PlacesOf(events[..n], i) + if TagOf(events[n]) == Message(i) then [n] else []
  }

  /** Each log lists its message's events in their original order: none is missing, none is another message's. */
  lemma {:induction false} LogIsSubsequence(events: seq<Event>, i: int)
    ensures var places := PlacesOf(events, i);
            && |places| == |EventsOf(events, i)|
            && (forall a, b | 0 <= a < b < |places| :: places[a] < places[b])
            && (forall a | 0 <= a < |places| :: places[a] < |events| && EventsOf(events, i)[a] == events[places[a]])
            && (forall p | 0 <= p < |events| :: p in places <==> TagOf(events[p]) == Message(i))
  {
    if events != [] {
      var n := |events| - 1;
      var init := events[..n];
      LogIsSubsequence(init, i);
      var before := PlacesOf(init, i);
      forall p | 0 <= p < |events| ensures p in PlacesOf(events, i) <==> TagOf(events[p]) == Message(i) {
        if p < n {
          assert init[p] == events[p];
        } else {
          assert p !in before;
        }
      }
    }
  }

  /** An event occurs in the log of the message it names as often as in the list, and in no other log. */
  lemma {:induction false} EachEventInItsLog(events: seq<Event>, i: int, event: Event)
    ensures multiset(EventsOf(events, i))[event]
         == if TagOf(event) == Message(i) then multiset(events)[event] else 0
  {
    if events != [] {
      var n := |events| - 1;
      EachEventInItsLog(events[..n], i, event);
      assert events == events[..n] + [events[n]];
    }
  }

  function Concat(logs: seq<MessageLog>): seq<Event> {
    if logs == [] then [] else Concat(logs[..|logs| - 1]) + logs[|logs| - 1].events
  }

  /** The events that name a message below n. */
  function InRange(events: seq<Event>, n: nat): seq<Event> {
    if events == [] then []
    else
      var last := events[|events| - 1];
      InRange(events[..|events| - 1], n)
      + if TagOf(last).Message? && 0 <= TagOf(last).index < n then [last] else []
  }

  lemma {:induction false} OneMoreMessage(events: seq<Event>, n: nat)
    ensures multiset(InRange(events, n + 1)) == multiset(InRange(events, n)) + multiset(EventsOf(events, n))
  {
    if events != [] {
      OneMoreMessage(events[..|events| - 1], n);
    }
  }

  lemma {:induction false} NoMessages(events: seq<Event>)
    ensures InRange(events, 0) == []
  {
    if events != [] {
      NoMessages(events[..|events| - 1]);
    }
  }

  /** All logs together hold exactly the events that name a message of the transaction. */
  lemma {:induction false} LogsConserve(numMessages: nat, events: seq<Event>)
    ensures multiset(Concat(LogsOf(numMessages, events))) == multiset(InRange(events, numMessages))
  {
    var logs := LogsOf(numMessages, events);
    if numMessages == 0 {
      NoMessages(events);
    } else {
      LogsConserve(numMessages - 1, events);
      assert logs[..|logs| - 1] == LogsOf(numMessages - 1, events);
      OneMoreMessage(events, numMessages - 1);
    }
  }

  /** Writing an index as decimal text tags an event with it. */
  lemma WrittenIndexIsRead(kind: string, before: seq<Attribute>, after: seq<Attribute>, i: int)
    requires -MAX_INT64 - 1 <= i <= MAX_INT64
    requires forall a | a in before :: a.key != "msg_index"
    ensures TagOf(Event(kind, before + [Attribute("msg_index", Text(i))] + after)) == Message(i)
  {
    FirstAfter(before, Attribute("msg_index", Text(i)), after);
    AtoiOfText(i);
  }

  /** Decimal digits, behind a sign if there is one. */
  predicate IsNumber(s: string) {
    (s != "" && AllDigits(s)) || (|s| > 1 && (s[0] == '-' || s[0] == '+') && AllDigits(s[1..]))
  }

  /** What an event names, told by the first attribute with the key, which is value here. */
  lemma TagByValue(kind: string, before: seq<Attribute>, after: seq<Attribute>, value: string)
    requires forall a | a in before :: a.key != "msg_index"
    ensures var tag := TagOf(Event(kind, before + [Attribute("msg_index", value)] + after));
            && (tag == Untagged <==> value == "")
            && (value != "" && !IsNumber(value) ==> tag == Unreadable)
            && (tag.Message? ==> IsNumber(value) && -MAX_INT64 - 1 <= tag.index <= MAX_INT64)
  {
    FirstAfter(before, Attribute("msg_index", value), after);
  }

  /** An event that names no message. */
  lemma {:induction false} NoTag(kind: string, attributes: seq<Attribute>)
    requires forall a | a in attributes :: a.key != "msg_index"
    ensures TagOf(Event(kind, attributes)) == Untagged
  {
    NoValue(attributes, "msg_index");
  }

  lemma {:induction false} NoValue(attributes: seq<Attribute>, key: string)
    requires forall a | a in attributes :: a.key != key
    ensures FirstValue(attributes, key) == None
  {
    if attributes != [] {
      assert attributes[0] in attributes;
      NoValue(attributes[1..], key);
    }
  }

  lemma {:induction false} FirstAfter(before: seq<Attribute>, a: Attribute, after: seq<Attribute>)
    requires forall b | b in before :: b.key != a.key
    ensures FirstValue(before + [a] + after, a.key) == Some(a.value)
  {
    var all := before + [a] + after;
    if before != [] {
      assert all[0] == before[0] && before[0] in before;
      assert all[1..] == before[1..] + [a] + after;
      FirstAfter(before[1..], a, after);
    }
  }

  // ---------------------------------------------------------------- begin and end events

  predicate HasMode(event: Event, mode: string) {
    Attribute("mode", mode) in event.attributes
  }

  predicate OneMode(event: Event) {
    HasMode(event, "BeginBlock") != HasMode(event, "EndBlock")
  }

  /** The attributes other than the mode. */
  function Unmoded(attributes: seq<Attribute>): seq<Attribute> {
    if attributes == [] then []
    else
      var last := attributes[|attributes| - 1];
      Unmoded(attributes[..|attributes| - 1]) + if last.key == "mode" then [] else [last]
  }

  function Stripped(event: Event): Event {
    event.(attributes := Unmoded(event.attributes))
  }

  /** The events of one mode, in order, without the mode. */
  function WithMode(events: seq<Event>, mode: string): seq<Event> {
    if events == [] then []
    else
      var last := events[|events| - 1];
      WithMode(events[..|events| - 1], mode) + if HasMode(last, mode) then [Stripped(last)] else []
  }

  method Modes(event: Event) returns (begins: bool, ends: bool, attributes: seq<Attribute>)
    ensures begins == HasMode(event, "BeginBlock") && ends == HasMode(event, "EndBlock")
    ensures attributes == Unmoded(event.attributes)
  {
    begins, ends, attributes := false, false, [];
    var all := event.attributes;
    for n := 0 to |all|
      invariant begins <==> Attribute("mode", "BeginBlock") in all[..n]
      invariant ends <==> Attribute("mode", "EndBlock") in all[..n]
      invariant attributes == Unmoded(all[..n])
    {
      assert all[..n + 1] == all[..n] + [all[n]];
      if all[n].key == "mode" {
        if all[n].value == "BeginBlock" {
          begins := true;
        } else if all[n].value == "EndBlock" {
          ends := true;
        }
      } else {
        attributes := attributes + [all[n]];
      }
    }
    assert all[..|all|] == all;
  }

  /** Fails exactly when some event names both modes or neither. */
  method NormalizeCustomBlockResults(events: seq<Event>) returns (split: Option<(seq<Event>, seq<Event>)>)
    ensures split.None? <==> exists event :: event in events && !OneMode(event)
    ensures split.Some? ==> split.value == (WithMode(events, "BeginBlock"), WithMode(events, "EndBlock"))
  {
    var beginBlock: seq<Event>, endBlock: seq<Event> := [], [];
    for n := 0 to |events|
      invariant beginBlock == WithMode(events[..n], "BeginBlock")
      invariant endBlock == WithMode(events[..n], "EndBlock")
      invariant forall k | 0 <= k < n :: OneMode(events[k])
    {
      assert events[..n + 1][..n] == events[..n];
      var begins, ends, attributes := Modes(events[n]);
      if begins == ends {
        assert events[n] in events && !OneMode(events[n]);
        return None;
      }
      if begins {
        beginBlock := beginBlock + [Event(events[n].kind, attributes)];
      } else {
        endBlock := endBlock + [Event(events[n].kind, attributes)];
      }
    }
    assert events[..|events|] == events;
    return Some((beginBlock, endBlock));
  }

  /** The modes of the events, in order: whether each is a begin-block event. */
  function ModeList(events: seq<Event>): seq<bool> {
    seq(|events|, i requires 0 <= i < |events| => HasMode(events[i], "BeginBlock"))
  }

  /** Merging two lists by a list of choices, from the end. */
  function Merge(choices: seq<bool>, a: seq<Event>, b: seq<Event>): Option<seq<Event>> {
    if choices == [] then (if a == [] && b == [] then Some([]) else None)
    else
      var n := |choices| - 1;
      if choices[n] then
        if a == [] then None else Appended(Merge(choices[..n], a[..|a| - 1], b), a[|a| - 1])
      else
        if b == [] then None else Appended(Merge(choices[..n], a, b[..|b| - 1]), b[|b| - 1])
  }

  function Appended(events: Option<seq<Event>>, event: Event): Option<seq<Event>> {
    if events.None? then None else Some(events.value + [event])
  }

  function StrippedAll(events: seq<Event>): seq<Event> {
    seq(|events|, i requires 0 <= i < |events| => Stripped(events[i]))
  }

  lemma MergeLast(choices: seq<bool>, a: seq<Event>, b: seq<Event>, event: Event)
    ensures Merge(choices + [true], a + [event], b) == Appended(Merge(choices, a, b), event)
    ensures Merge(choices + [false], a, b + [event]) == Appended(Merge(choices, a, b), event)
  {
    assert (choices + [true])[..|choices|] == choices && (choices + [false])[..|choices|] == choices;
    assert (a + [event])[..|a|] == a && (b + [event])[..|b|] == b;
  }

  lemma WithLast(events: seq<Event>, event: Event, mode: string)
    ensures WithMode(events + [event], mode)
         == if HasMode(event, mode) then WithMode(events, mode) + [Stripped(event)] else WithMode(events, mode)
  {
    assert (events + [event])[..|events|] == events;
    assert WithMode(events, mode) + [] == WithMode(events, mode);
  }

  /** Of one event a mode's list has the event, stripped, exactly if an attribute names the mode. */
  lemma ModeOfOne(event: Event, mode: string)
    ensures WithMode([event], mode) == if Attribute("mode", mode) in event.attributes then [Stripped(event)] else []
  {
    WithLast([], event, mode);
    assert [] + [event] == [event] && WithMode([], mode) == [];
  }

  lemma {:induction false} ModeOfMore(a: seq<Event>, b: seq<Event>, mode: string)
    ensures WithMode(a + b, mode) == WithMode(a, mode) + WithMode(b, mode)
  {
    if b == [] {
      assert a + b == a;
    } else {
      assert (a + b)[..|a + b| - 1] == a + b[..|b| - 1];
      ModeOfMore(a, b[..|b| - 1], mode);
    }
  }

  predicate MergesBack(events: seq<Event>) {
    Merge(ModeList(events), WithMode(events, "BeginBlock"), WithMode(events, "EndBlock")) == Some(StrippedAll(events))
  }

  lemma ListsLast(events: seq<Event>, event: Event)
    ensures ModeList(events + [event]) == ModeList(events) + [HasMode(event, "BeginBlock")]
    ensures StrippedAll(events + [event]) == StrippedAll(events) + [Stripped(event)]
  {
  }

  lemma MergesBackLast(events: seq<Event>, event: Event)
    requires MergesBack(events) && OneMode(event)
    ensures MergesBack(events + [event])
  {
    WithLast(events, event, "BeginBlock");
    WithLast(events, event, "EndBlock");
    MergeLast(ModeList(events), WithMode(events, "BeginBlock"), WithMode(events, "EndBlock"), Stripped(event));
    ListsLast(events, event);
  }

  /** Given the modes, the two lists merge back into the whole list: nothing is lost, repeated or reordered. */
  lemma {:induction false} SplitMergesBack(events: seq<Event>)
    requires forall event | event in events :: OneMode(event)
    ensures MergesBack(events)
  {
    if events != [] {
      var n := |events| - 1;
      assert events[n] in events && events == events[..n] + [events[n]];
      SplitMergesBack(events[..n]);
      MergesBackLast(events[..n], events[n]);
    } else {
      assert ModeList(events) == [] && StrippedAll(events) == [];
    }
  }

  /** Stripping removes the mode attributes and nothing else. */
  lemma {:induction false} UnmodedIs(attributes: seq<Attribute>, a: Attribute)
    ensures multiset(Unmoded(attributes))[a] == if a.key == "mode" then 0 else multiset(attributes)[a]
  {
    if attributes != [] {
      var n := |attributes| - 1;
      var init, last := attributes[..n], attributes[n];
      UnmodedIs(init, a);
      assert attributes == init + [last];
      assert multiset(attributes)[a] == multiset(init)[a] + multiset([last])[a];
      if last.key == "mode" {
        assert Unmoded(attributes) == Unmoded(init) + [];
        assert a.key != "mode" ==> a != last;
      } else {
        assert Unmoded(attributes) == Unmoded(init) + [last];
        assert multiset(Unmoded(attributes))[a] == multiset(Unmoded(init))[a] + multiset([last])[a];
      }
    }
  }

  /** The places of the attributes other than the mode. */
  function KeptPlaces(attributes: seq<Attribute>): seq<nat> {
    if attributes == [] then []
    else
      var n := |attributes| - 1;
      KeptPlaces(attributes[..n]) + if attributes[n].key == "mode" then [] else [n]
  }

  /** A stripped event has its kind, and its attributes but the modes in their order. */
  lemma StrippedIs(event: Event)
    ensures var places := KeptPlaces(event.attributes);
            && Stripped(event).kind == event.kind && |Stripped(event).attributes| == |places|
            && (forall a, b | 0 <= a < b < |places| :: places[a] < places[b])
            && (forall a | 0 <= a < |places| :: places[a] < |event.attributes|
                                                && Stripped(event).attributes[a] == event.attributes[places[a]])
            && (forall p | 0 <= p < |event.attributes| :: p in places <==> event.attributes[p].key != "mode")
  {
    PlacesAre(event.attributes);
    UnmodedAt(event.attributes);
  }

  lemma {:induction false} PlacesAre(attributes: seq<Attribute>)
    ensures var places := KeptPlaces(attributes);
            && (forall a, b | 0 <= a < b < |places| :: places[a] < places[b])
            && (forall a | 0 <= a < |places| :: places[a] < |attributes|)
            && (forall p | 0 <= p < |attributes| :: p in places <==> attributes[p].key != "mode")
  {
    if attributes != [] {
      var n := |attributes| - 1;
      var before := KeptPlaces(attributes[..n]);
      PlacesAre(attributes[..n]);
      assert n !in before;
      assert forall p | 0 <= p < n :: attributes[..n][p] == attributes[p];
    }
  }

  lemma {:induction false} UnmodedAt(attributes: seq<Attribute>)
    ensures var places := KeptPlaces(attributes);
            && |Unmoded(attributes)| == |places|
            && (forall a | 0 <= a < |places| :: places[a] < |attributes| && Unmoded(attributes)[a] == attributes[places[a]])
  {
    if attributes != [] {
      UnmodedAt(attributes[..|attributes| - 1]);
    }
  }
}
