/** The quick-action buttons and the "Call Person" options, and the texts they post. */
module Actions {
  import opened Text

  datatype QuickAction = Food | Water | Panic | CallPerson | Bell | ClearAll

  /** The people the "Call Person" dropdown offers. */
  const CallOptions: seq<string> := ["Asad", "Irfan", "Anam", "Salman", "Ammi"]

  function Label(a: QuickAction): string {
    match a
    case Food => "Food"
    case Water => "Water"
    case Panic => "Panic"
    case CallPerson => "Call Person"
    case Bell => "Bell"
    case ClearAll => "Clear All"
  }

  /** Whether pressing the button posts a text (the other two clear the list or open the dropdown). */
  predicate Posts(a: QuickAction) {
    a != CallPerson && a != ClearAll
  }

  /**
   * The text a posting button sends: "Paani Do" for Water, its own label otherwise. It is never
   * blank and already trimmed, so the message shown is exactly this text.
   */
  function ActionText(a: QuickAction): (t: string)
    requires Posts(a)
    ensures !IsBlank(t) && Trim(t) == t
    ensures t == "Paani Do" <==> a == Water
    ensures a != Water ==> t == Label(a)
  {
    var t := if a == Water then "Paani Do" else Label(a);
    assert !IsSpace(t[0]);
    TrimFixed(t);
    t
  }

  /** The request posted for a person chosen in the "Call Person" dropdown. */
  function CallOptionText(name: string): (t: string)
    ensures !IsBlank(t)
    ensures |t| == |name| + 9 && t[..|name|] == name && t[|name|..] == " Ko Bulao"
  {
    var t := name + " Ko Bulao";
    assert t[|name| + 1] == 'K';
    t
  }

  /** For the offered names the request needs no trimming. */
  lemma CallOptionTrimmed(name: string)
    requires name in CallOptions
    ensures Trim(CallOptionText(name)) == CallOptionText(name)
  {
    var t := CallOptionText(name);
    assert t == name + " Ko Bulao";
    assert !IsSpace(t[0]) && t[|t| - 1] == 'o';
    TrimFixed(t);
  }
}
