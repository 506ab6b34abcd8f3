/**
 * The chat's message list (newest first) and the pure list updates the client applies to it:
 * the stream effect that reconciles `history` and `message` events, and the `pushMessage`
 * updater for locally created entries.
 */
module Feed {
  import opened Wrappers
  import opened Text

  datatype Sender = You | Patient | System

  /** The `status` a local entry carries; entries built from stream events carry none. */
  datatype Status = Sent | Failed

  /** A list key: the server's id, or the clock reading `Date.now()` stands in for it. */
  datatype Id = Server(key: string) | Clock(ms: int)

  datatype Message = Message(id: Id, text: string, sender: Sender, time: string, isSent: bool, status: Option<Status>)

  /** One message as the stream delivers it; absent (or empty) `id` and `timestamp` are `None`. */
  datatype WireMessage = WireMessage(id: Option<string>, text: string, timestamp: Option<string>, isFinal: bool)

  /**
   * A decoded stream event: its `type` tag, its `messages` when that field is an array,
   * and its `message` when that field is present.
   */
  datatype Event = Event(kind: string, messages: Option<seq<WireMessage>>, message: Option<WireMessage>)

  /** One stream delivery: the event (None when `latestMessage` is empty) and the clock when it is handled. */
  datatype Delivery = Delivery(event: Option<Event>, at: int)

  predicate IsHistory(e: Event) {
    e.kind == "history" && e.messages.Some?
  }

  predicate IsFinalMessage(e: Event) {
    e.kind == "message" && e.message.Some? && e.message.value.isFinal
  }

  /** `m.id || Date.now()` */
  function KeyOf(id: Option<string>, now: int): Id {
    if id.Some? && id.value != "" then Server(id.value) else Clock(now)
  }

  /** The list entry a history snapshot makes of one of its messages. */
  function HistoryEntry(m: WireMessage, now: int): Message {
    Message(KeyOf(m.id, now), m.text, if m.isFinal then System else Patient, m.timestamp.GetOr(""), false, None)
  }

  /** The list entry a final `message` event makes. */
  function IncomingEntry(m: WireMessage, now: int): Message {
    Message(KeyOf(m.id, now), m.text, Patient, m.timestamp.GetOr(""), false, None)
  }

  /** `s.slice().reverse()` */
  function Reverse<T>(s: seq<T>): (r: seq<T>)
    ensures |r| == |s|
    ensures forall i :: 0 <= i < |s| ==> r[i] == s[|s| - 1 - i]
  {
    if s == [] then [] else Reverse(s[1..]) + [s[0]]
  }

  /**
   * The list a history snapshot (oldest first on the wire) becomes: newest first, none of them
   * sent by this client, sender System exactly for the final ones and Patient otherwise.
   */
  function HistoryList(ms: seq<WireMessage>, now: int): (r: seq<Message>)
    ensures |r| == |ms|
    ensures forall i :: 0 <= i < |r| ==>
      var m := ms[|ms| - 1 - i];
      && r[i].text == m.text
      && r[i].id == KeyOf(m.id, now)
      && r[i].time == m.timestamp.GetOr("")
      && (r[i].sender == System <==> m.isFinal)
      && r[i].sender != You
      && !r[i].isSent
      && r[i].status == None
  {
    var newestFirst := Reverse(ms);
    seq(|newestFirst|, i requires 0 <= i < |newestFirst| => HistoryEntry(newestFirst[i], now))
  }

  /**
   * The stream effect: a history snapshot replaces the whole list, a final `message` event
   * prepends exactly one entry above the untouched old list, anything else leaves the list alone.
   */
  function Reconcile(list: seq<Message>, ev: Option<Event>, now: int): (r: seq<Message>)
    ensures ev.Some? && IsHistory(ev.value) ==> r == HistoryList(ev.value.messages.value, now)
    ensures ev.Some? && IsFinalMessage(ev.value) ==>
      var m := ev.value.message.value;
      && |r| == |list| + 1 && r[1..] == list
      && r[0].text == m.text && r[0].sender == Patient && !r[0].isSent
      && r[0].time == m.timestamp.GetOr("") && r[0].id == KeyOf(m.id, now) && r[0].status == None
    ensures ev.None? || (!IsHistory(ev.value) && !IsFinalMessage(ev.value)) ==> r == list
  {
    match ev
    case None => list
    case Some(e) =>
      if e.kind == "history" && e.messages.Some? then
        HistoryList(e.messages.value, now)
      else if e.kind == "message" && e.message.Some? then
        var m := e.message.value;
        if m.isFinal then [IncomingEntry(m, now)] + list else list
      else
        list
  }

  predicate IsFinalDelivery(d: Delivery) {
    d.event.Some? && IsFinalMessage(d.event.value)
  }

  /** The entry a final `message` delivery adds. */
  function DeliveredEntry(d: Delivery): Message
    requires IsFinalDelivery(d)
  {
    IncomingEntry(d.event.value.message.value, d.at)
  }

  /** The list after the deliveries, handled in order. */
  function ApplyAll(list: seq<Message>, ds: seq<Delivery>): seq<Message>
    decreases |ds|
  {
    if ds == [] then list else ApplyAll(Reconcile(list, ds[0].event, ds[0].at), ds[1..])
  }

  /** The entry `pushMessage` creates: trimmed text, "Just now", sender You exactly when sent by this client. */
  function LocalEntry(text: string, isSent: bool, status: Status, now: int): Message {
    Message(Clock(now), Trim(text), if isSent then You else Patient, "Just now", isSent, Some(status))
  }

  /**
   * The list after `pushMessage`: unchanged for a whitespace-only text, otherwise one new entry
   * holding the trimmed text on top of the unchanged old list.
   */
  function PushList(list: seq<Message>, text: string, isSent: bool, status: Status, now: int): (r: seq<Message>)
    ensures IsBlank(text) ==> r == list
    ensures !IsBlank(text) ==>
      && |r| == |list| + 1 && r[1..] == list
      && r[0].text == Trim(text) && r[0].text != []
      && (r[0].sender == You <==> isSent) && r[0].sender != System
      && r[0].isSent == isSent && r[0].status == Some(status)
      && r[0].id == Clock(now) && r[0].time == "Just now"
  {
    if Trim(text) == [] then list else [LocalEntry(text, isSent, status, now)] + list
  }

  /** A history snapshot does not depend on what the list held before it. */
  lemma HistoryDiscardsPrior(a: seq<Message>, b: seq<Message>, h: Event, now: int)
    requires IsHistory(h)
    ensures Reconcile(a, Some(h), now) == Reconcile(b, Some(h), now)
  {
  }

  /** Applying a history snapshot again gives the list that applying it once gives. */
  lemma HistoryIdempotent(list: seq<Message>, h: Event, t1: int, t2: int)
    requires IsHistory(h)
    ensures Reconcile(Reconcile(list, Some(h), t1), Some(h), t2) == Reconcile(list, Some(h), t2)
  {
  }

  /** When every message of a snapshot has an id, the clock does not matter either. */
  lemma HistoryClockFree(h: Event, t1: int, t2: int)
    requires IsHistory(h)
    requires forall k :: 0 <= k < |h.messages.value| ==> h.messages.value[k].id.Some? && h.messages.value[k].id.value != ""
    ensures forall list: seq<Message> :: Reconcile(list, Some(h), t1) == Reconcile(list, Some(h), t2)
  {
  }

  /** Ids are not unique: every id-less message of one snapshot gets the same clock key. */
  lemma HistoryKeysCollide(a: WireMessage, b: WireMessage, now: int)
    requires a.id.None? && b.id.None?
    ensures var r := HistoryList([a, b], now); |r| == 2 && r[0].id == r[1].id == Clock(now)
  {
  }

  /** Whatever was delivered before it, the list after a history snapshot is that snapshot. */
  lemma {:induction false} HistoryWins(list: seq<Message>, ds: seq<Delivery>, h: Event, t: int)
    requires IsHistory(h)
    ensures ApplyAll(list, ds + [Delivery(Some(h), t)]) == HistoryList(h.messages.value, t)
    decreases |ds|
  {
    var last := [Delivery(Some(h), t)];
    if ds == [] {
      assert ApplyAll(Reconcile(list, Some(h), t), []) == Reconcile(list, Some(h), t);
    } else {
      assert (ds + last)[0] == ds[0];
      assert (ds + last)[1..] == ds[1..] + last;
      HistoryWins(Reconcile(list, ds[0].event, ds[0].at), ds[1..], h, t);
    }
  }

  /**
   * Final `message` events stack up newest first on top of the untouched list: after the
   * deliveries, entry i belongs to the i-th delivery counted from the last.
   */
  lemma {:induction false} FinalMessagesStack(list: seq<Message>, ds: seq<Delivery>)
    requires forall k :: 0 <= k < |ds| ==> IsFinalDelivery(ds[k])
    ensures var r := ApplyAll(list, ds);
      && |r| == |list| + |ds| && r[|ds|..] == list
      && forall i :: 0 <= i < |ds| ==> r[i] == DeliveredEntry(ds[|ds| - 1 - i])
    decreases |ds|
  {
    if ds != [] {
      var d := ds[0];
      var next := Reconcile(list, d.event, d.at);
      assert next == [DeliveredEntry(d)] + list;
      FinalMessagesStack(next, ds[1..]);
      var r := ApplyAll(list, ds);
      assert r == ApplyAll(next, ds[1..]);
      assert r[|ds|..] == r[|ds| - 1..][1..];
    }
  }
}
