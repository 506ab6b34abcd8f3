/**
 * Short runs of the client's handlers, each stating what a user would observe at the end.
 * Every run starts from a freshly opened session.
 */
module Scenarios {
  import opened Wrappers
  import opened Text
  import opened Feed
  import opened Session

  /** Edits "x", "x", "y" inside one debounce window: only "y" goes out, once, as a non-final update. */
  method DebounceSendsLatestOnly(room: string, first: string, second: string) returns (sent: seq<Submission>)
    requires room != "" && !IsBlank(second) && first != second
    ensures sent == [Submission(room, second, false)]
  {
    var s := new ChatSession(Some(room));
    s.SetDraft(first);
    s.SetDraft(first);
    s.SetDraft(second);
    s.FireTimer(true, 0);
    s.FireTimer(true, 0);
    sent := s.outbox;
  }

  /** Clearing the draft before the timer fires cancels the update: nothing is sent. */
  method ClearedDraftSendsNothing(room: string, text: string) returns (sent: seq<Submission>)
    requires room != ""
    ensures sent == []
  {
    var s := new ChatSession(Some(room));
    s.SetDraft(text);
    s.SetDraft("");
    s.FireTimer(true, 0);
    sent := s.outbox;
  }

  /**
   * After "hello" went out as a non-final update, committing "hello" still sends it as final,
   * and typing "hello" again schedules a new non-final update.
   */
  method CommitIsNeverSuppressed(room: string, text: string, now: int)
    returns (sent: seq<Submission>, pendingAfter: Option<string>)
    requires room != "" && !IsBlank(text)
    ensures sent == [Submission(room, text, false), Submission(room, text, true)]
    ensures pendingAfter == Some(text)
  {
    var s := new ChatSession(Some(room));
    s.SetDraft(text);
    s.FireTimer(true, now);
    s.KeyDown(true, false, true, now);
    s.SetDraft(text);
    sent, pendingAfter := s.outbox, s.pending;
  }

  /** Shift+Enter is a line break, not a commit: nothing is pushed or sent. */
  method ShiftEnterDoesNotCommit(room: string, text: string, now: int)
    returns (shown: seq<Message>, sent: seq<Submission>)
    requires room != ""
    ensures shown == [] && sent == []
  {
    var s := new ChatSession(Some(room));
    s.SetDraft(text);
    s.KeyDown(true, true, true, now);
    shown, sent := s.messages, s.outbox;
  }

  /** A final send that fails leaves a Failed entry above the optimistic Sent one. */
  method FailedCommitIsVisible(room: string, text: string, now: int) returns (shown: seq<Message>)
    requires room != "" && !IsBlank(text)
    ensures |shown| == 2
    ensures shown[0].text == Trim(text) && shown[0].status == Some(Failed) && shown[0].sender == You
    ensures shown[1].text == Trim(text) && shown[1].status == Some(Sent) && shown[1].sender == You
  {
    var s := new ChatSession(Some(room));
    s.SetDraft(text);
    s.KeyDown(true, false, false, now);
    shown := s.messages;
  }

  /** Without a room, a commit posts nothing and the text shows up twice (both pushes land). */
  method OfflineCommitEchoesTwice(text: string, now: int) returns (shown: seq<Message>, sent: seq<Submission>)
    requires !IsBlank(text)
    ensures sent == []
    ensures |shown| == 2 && shown[0] == shown[1]
    ensures shown[0].text == Trim(text) && shown[0].status == Some(Sent)
  {
    var s := new ChatSession(None);
    s.SetDraft(text);
    s.KeyDown(true, false, true, now);
    shown, sent := s.messages, s.outbox;
  }

  /** A history snapshot that lacks a just-committed entry makes that entry disappear. */
  method HistoryShadowsOptimisticEntry(room: string, text: string, h: Event, now: int, later: int)
    returns (shown: seq<Message>)
    requires room != "" && !IsBlank(text) && IsHistory(h)
    ensures shown == HistoryList(h.messages.value, later)
    ensures forall i :: 0 <= i < |shown| ==> shown[i].status == None
  {
    var s := new ChatSession(Some(room));
    s.SetDraft(text);
    s.KeyDown(true, false, true, now);
    s.ApplyEvent(Some(h), later);
    shown := s.messages;
  }
}
