/**
 * The client's synchronisation state and its handlers: the message list and the draft (React
 * state), the last non-final text sent and the pending debounce slot (refs), the room, and a log
 * of the POSTs issued. Every handler or effect is one atomic transition; the network outcome and
 * the clock reading are parameters.
 */
module Session {
  import opened Wrappers
  import opened Text
  import opened Feed
  import opened Actions

  /** One POST to `/chat/<room>/` with body `{text, isFinal}`. */
  datatype Submission = Submission(room: string, text: string, isFinal: bool)

  /**
   * What the draft effect leaves pending for a draft: nothing for a blank draft or one equal to the
   * last non-final text sent, otherwise a send of exactly that draft.
   */
  function Debounce(value: string, lastSent: string): Option<string> {
    if IsBlank(value) || value == lastSent then None else Some(value)
  }

  class ChatSession {
    /** The list shown, newest first. */
    var messages: seq<Message>
    /** The text being typed. */
    var draft: string
    /** The last text handed to a non-final send by the debounce timer ("" after a commit). */
    var lastSentDraft: string
    /** The debounce timer, holding the text it will send when it fires. */
    var pending: Option<string>
    /** Every POST issued, oldest first. */
    var outbox: seq<Submission>
    /** The room; None (or "") means no session. */
    const chatId: Option<string>

    /**
     * At most one send is pending, and it is always the one the draft effect would schedule for
     * the current draft: never a stale draft, never a blank one, never a repeat of the last one sent.
     */
    ghost predicate Valid()
      reads this
    {
      pending == Debounce(draft, lastSentDraft)
    }

    predicate HasSession() {
      chatId.Some? && chatId.value != ""
    }

    constructor (room: Option<string>)
      ensures Valid()
      ensures chatId == room && messages == [] && draft == "" && lastSentDraft == ""
      ensures pending == None && outbox == []
    {
      chatId := room;
      messages := [];
      draft := "";
      lastSentDraft := "";
      pending := None;
      outbox := [];
    }

    /** The stream effect, run once per new `latestMessage`. */
    method ApplyEvent(ev: Option<Event>, now: int)
      requires Valid()
      modifies this
      ensures Valid()
      ensures messages == Reconcile(old(messages), ev, now)
      ensures draft == old(draft) && lastSentDraft == old(lastSentDraft)
      ensures pending == old(pending) && outbox == old(outbox)
    {
      messages := Reconcile(messages, ev, now);
    }

    /**
     * `setDraft(value)` followed by the draft effect. The effect runs only when the draft really
     * changes; it cancels the pending send and schedules a new one unless the text is blank or
     * equal to the last one sent.
     */
    method SetDraft(value: string)
      requires Valid()
      modifies this
      ensures Valid()
      ensures draft == value
      ensures value == old(draft) ==> pending == old(pending)
      ensures value != old(draft) ==> pending == Debounce(value, old(lastSentDraft))
      ensures messages == old(messages) && lastSentDraft == old(lastSentDraft) && outbox == old(outbox)
    {
      if value != draft {
        draft := value;
        pending := None;
        if Trim(value) == [] {
          return;
        }
        if value == lastSentDraft {
          return;
        }
        pending := Some(value);
      }
    }

    /** `pushMessage(text, isSent, status)`: ignore a blank text, else prepend its entry and clear the draft. */
    method PushMessage(text: string, isSent: bool, status: Status, now: int)
      requires Valid()
      modifies this
      ensures Valid()
      ensures messages == PushList(old(messages), text, isSent, status, now)
      ensures draft == if IsBlank(text) then old(draft) else ""
      ensures IsBlank(text) ==> pending == old(pending)
      ensures !IsBlank(text) ==> pending == None
      ensures lastSentDraft == old(lastSentDraft) && outbox == old(outbox)
    {
      if Trim(text) == [] {
        return;
      }
      messages := [LocalEntry(text, isSent, status, now)] + messages;
      SetDraft("");
    }

    /** `clearAll()`: empty the list and the draft, which also cancels any pending send. */
    method ClearAll()
      requires Valid()
      modifies this
      ensures Valid()
      ensures messages == [] && draft == "" && pending == None
      ensures lastSentDraft == old(lastSentDraft) && outbox == old(outbox)
    {
      messages := [];
      SetDraft("");
    }

    /**
     * `sendToBackend(text, isFinal)`. Without a room: no POST, and a final text is echoed locally.
     * With one: exactly one POST; if it fails (`delivered` false) a final text is echoed with status
     * Failed, a non-final one is dropped.
     */
    method Send(text: string, isFinal: bool, delivered: bool, now: int)
      requires Valid()
      modifies this
      ensures Valid()
      ensures outbox == old(outbox) + (if HasSession() then [Submission(chatId.value, text, isFinal)] else [])
      ensures lastSentDraft == old(lastSentDraft)
      ensures !isFinal ==> messages == old(messages) && draft == old(draft) && pending == old(pending)
      ensures isFinal && !HasSession() ==> messages == PushList(old(messages), text, true, Sent, now)
      ensures isFinal && HasSession() && !delivered ==> messages == PushList(old(messages), text, true, Failed, now)
      ensures isFinal && HasSession() && delivered ==> messages == old(messages)
      ensures isFinal && (!HasSession() || !delivered) && !IsBlank(text) ==> draft == "" && pending == None
      ensures !(isFinal && (!HasSession() || !delivered) && !IsBlank(text)) ==>
        draft == old(draft) && pending == old(pending)
    {
      if !HasSession() {
        if isFinal {
          PushMessage(text, true, Sent, now);
        }
        return;
      }
      outbox := outbox + [Submission(chatId.value, text, isFinal)];
      if !delivered && isFinal {
        PushMessage(text, true, Failed, now);
      }
    }

    /**
     * The debounce timer fires: one non-final send of the text it holds, and that text becomes the
     * last one sent whether or not anything went out. Without a pending timer nothing happens.
     */
    method FireTimer(delivered: bool, now: int)
      requires Valid()
      modifies this
      ensures Valid()
      ensures messages == old(messages) && draft == old(draft) && pending == None
      ensures old(pending).None? ==> lastSentDraft == old(lastSentDraft) && outbox == old(outbox)
      ensures old(pending).Some? ==> old(pending).value == old(draft) && lastSentDraft == old(draft)
      ensures old(pending).Some? ==>
        outbox == old(outbox) + (if HasSession() then [Submission(chatId.value, old(draft), false)] else [])
    {
      if pending.Some? {
        var value := pending.value;
        Send(value, false, delivered, now);
        lastSentDraft := value;
        pending := None;
      }
    }

    /**
     * A key pressed in the message box. Enter without Shift commits the draft: push it locally,
     * send it as final, and forget the last non-final text so the same text can be streamed again.
     * Any other key changes nothing here.
     */
    method KeyDown(enter: bool, shift: bool, delivered: bool, now: int)
      requires Valid()
      modifies this
      ensures Valid()
      ensures !(enter && !shift) ==>
        && messages == old(messages) && draft == old(draft) && lastSentDraft == old(lastSentDraft)
        && pending == old(pending) && outbox == old(outbox)
      ensures enter && !shift ==>
        var text := old(draft);
        var local := PushList(old(messages), text, true, Sent, now);
        && outbox == old(outbox) + (if HasSession() then [Submission(chatId.value, text, true)] else [])
        && messages == (if !HasSession() then PushList(local, text, true, Sent, now)
                        else if delivered then local
                        else PushList(local, text, true, Failed, now))
        && draft == (if IsBlank(text) then text else "")
        && lastSentDraft == "" && pending == None
    {
      if enter && !shift {
        var text := draft;
        PushMessage(text, true, Sent, now);
        Send(text, true, delivered, now);
        lastSentDraft := "";
      }
    }

    /**
     * A quick-action button: Clear All clears, Call Person only opens its dropdown, every other
     * button pushes its text locally and sends it as a non-final update.
     */
    method PressQuickAction(a: QuickAction, delivered: bool, now: int)
      requires Valid()
      modifies this
      ensures Valid()
      ensures a.ClearAll? ==>
        && messages == [] && draft == "" && pending == None
        && lastSentDraft == old(lastSentDraft) && outbox == old(outbox)
      ensures a.CallPerson? ==>
        && messages == old(messages) && draft == old(draft) && lastSentDraft == old(lastSentDraft)
        && pending == old(pending) && outbox == old(outbox)
      ensures Posts(a) ==>
        && messages == [LocalEntry(ActionText(a), true, Sent, now)] + old(messages)
        && messages[0].text == ActionText(a)
        && outbox == old(outbox) + (if HasSession() then [Submission(chatId.value, ActionText(a), false)] else [])
        && draft == "" && pending == None && lastSentDraft == old(lastSentDraft)
    {
      if a.ClearAll? {
        ClearAll();
      } else if a.CallPerson? {
        // opens the dropdown; no synchronisation state changes
      } else {
        var text := ActionText(a);
        PushMessage(text, true, Sent, now);
        Send(text, false, delivered, now);
      }
    }

    /** A name chosen in the "Call Person" dropdown: pushed locally only, nothing is sent. */
    method ChooseCallOption(name: string, now: int)
      requires Valid()
      requires name in CallOptions
      modifies this
      ensures Valid()
      ensures messages == [LocalEntry(CallOptionText(name), true, Sent, now)] + old(messages)
      ensures messages[0].text == name + " Ko Bulao"
      ensures draft == "" && pending == None
      ensures lastSentDraft == old(lastSentDraft) && outbox == old(outbox)
    {
      CallOptionTrimmed(name);
      PushMessage(CallOptionText(name), true, Sent, now);
    }
  }
}
