/** The conversation screen: an append-only message log, a draft, a typing
    indicator and a simulated peer who answers every send after a delay.
    The delayed answer is an explicit event (`DeliverReply`) rather than a
    timer. Ids and timestamps come from the clock and the locale, so the
    caller supplies them. */
module Chat {
  import opened Base
  import opened Text

  /** The draft field accepts at most this many characters. */
  const MaxDraftLength: nat := 500

  /** The text of the simulated peer's answer. */
  const ReplyText: string := "Thanks for your message! \U{1F44D}"

  datatype Status = Sent | Delivered | Read

  datatype Message = Message(id: string, text: string, timestamp: string, isMe: bool, status: Status)

  /** The transcript every conversation opens with. (The longer texts are
      written as two literals joined, which is the same string.) */
  function MockMessages(): (ms: seq<Message>)
    ensures |ms| == 6
    ensures forall i :: 0 <= i < |ms| ==> ms[i].isMe == (i % 2 == 1)
    ensures forall i :: 0 <= i < |ms| ==> ms[i].status == (if i == 5 then Delivered else Read)
  {
    [ Message("1", "Hey! How are you doing?", "10:30 AM", false, Read),
      Message("2", "I&apos;m doing great! Thanks for asking \U{1F60A}", "10:32 AM", true, Read),
      Message("3", "That&apos;s awesome! " + "What have you been up to lately?", "10:33 AM", false, Read),
      Message("4", "Just working on some " + "exciting projects. How about you?", "10:35 AM", true, Read),
      Message("5", "Same here! I&apos;d love " + "to hear more about your projects", "10:36 AM", false, Read),
      Message("6", "Sure! Let&apos;s catch up " + "over coffee sometime this week?", "10:38 AM", true, Delivered) ]
  }

  // ---------------------------------------------------------------------
  // Specification of the engine: its state as a value and one function per
  // event. `pending` counts the replies scheduled and not yet delivered; the
  // screen itself keeps no such count.
  // ---------------------------------------------------------------------

  datatype ChatState = ChatState(messages: seq<Message>, draft: string, isTyping: bool, pending: nat)

  /** A message the log may hold: its text is non-empty, has no leading or
      trailing whitespace and fits the draft field. */
  predicate WellFormed(m: Message) {
    m.text != [] && IsTrimmed(m.text) && |m.text| <= MaxDraftLength
  }

  /** Every message of the log is well formed, stated one append at a time. */
  predicate AllWellFormed(ms: seq<Message>)
    decreases |ms|
  {
    ms == [] || (AllWellFormed(ms[..|ms| - 1]) && WellFormed(ms[|ms| - 1]))
  }

  /** `AllWellFormed` says exactly that every message is well formed. */
  lemma {:induction false} AllWellFormedIff(ms: seq<Message>)
    ensures AllWellFormed(ms) <==> forall i :: 0 <= i < |ms| ==> WellFormed(ms[i])
    decreases |ms|
  {
    if ms != [] {
      var init := ms[..|ms| - 1];
      AllWellFormedIff(init);
      assert forall i :: 0 <= i < |init| ==> init[i] == ms[i];
    }
  }

  /** What holds of every state the screen reaches: every logged message is
      well formed, the draft fits its field, and the typing indicator is only
      ever up while a reply is still scheduled. */
  predicate ValidState(s: ChatState) {
    AllWellFormed(s.messages)
    && |s.draft| <= MaxDraftLength
    && (s.isTyping ==> s.pending > 0)
  }

  /** The state a conversation opens in. */
  function Initial(): (s: ChatState)
    ensures ValidState(s)
    ensures s.messages == MockMessages() && s.draft == [] && !s.isTyping && s.pending == 0
  {
    var ms := MockMessages();
    assert WellFormed(ms[0]) by { var t := ms[0].text; assert t[0] == 'H' && t[|t| - 1] == '?'; }
    assert WellFormed(ms[1]) by { var t := ms[1].text; assert t[0] == 'I' && t[|t| - 1] == '\U{1F60A}'; }
    assert WellFormed(ms[2]) by { var t := ms[2].text; assert t[0] == 'T' && t[|t| - 1] == '?'; }
    assert WellFormed(ms[3]) by { var t := ms[3].text; assert t[0] == 'J' && t[|t| - 1] == '?'; }
    assert WellFormed(ms[4]) by { var t := ms[4].text; assert t[0] == 'S' && t[|t| - 1] == 's'; }
    assert WellFormed(ms[5]) by { var t := ms[5].text; assert t[0] == 'S' && t[|t| - 1] == '?'; }
    assert forall i :: 0 <= i < |ms| ==> WellFormed(ms[i]) by {
      forall i | 0 <= i < |ms| ensures WellFormed(ms[i]) {
        assert i == 0 || i == 1 || i == 2 || i == 3 || i == 4 || i == 5;
      }
    }
    AllWellFormedIff(ms);
    ChatState(ms, [], false, 0)
  }

  /** The message `sendMessage` builds from a draft: self-authored, `Sent`,
      carrying the trimmed draft; from a non-blank draft the field allows it
      is well formed. */
  function OwnMessage(id: string, draft: string, timestamp: string): (m: Message)
    ensures m.isMe && m.status == Sent && m.id == id && m.timestamp == timestamp
    ensures m.text == Trim(draft)
    ensures !IsBlank(draft) && |draft| <= MaxDraftLength ==> WellFormed(m)
  {
    Message(id, Trim(draft), timestamp, true, Sent)
  }

  /** The message the simulated peer answers with: from the peer, already
      `Read`, the fixed answer text; it is always well formed. */
  function ReplyMessage(id: string, timestamp: string): (m: Message)
    ensures !m.isMe && m.status == Read && m.id == id && m.timestamp == timestamp
    ensures m.text == ReplyText && WellFormed(m)
  {
    var t := ReplyText;
    assert t[0] == 'T' && t[|t| - 1] == '\U{1F44D}';
    Message(id, ReplyText, timestamp, false, Read)
  }

  /** The send button is enabled exactly when the draft holds a character
      that is not whitespace, i.e. when `sendMessage` would not ignore it. */
  function SendEnabled(draft: string): (r: bool)
    ensures r <==> exists i :: 0 <= i < |draft| && !IsWhitespace(draft[i])
  {
    Trim(draft) != []
  }

  /** Typing into the draft field replaces the draft. */
  function EditStep(s: ChatState, text: string): (t: ChatState)
    requires |text| <= MaxDraftLength
    ensures t.draft == text && t.messages == s.messages
    ensures t.isTyping == s.isTyping && t.pending == s.pending
  {
    s.(draft := text)
  }

  /** `sendMessage`: a blank draft changes nothing; otherwise the trimmed
      draft is appended as one self-authored message with status `Sent`, the
      draft is cleared, the typing indicator goes up and one more reply is
      scheduled. */
  function SendStep(s: ChatState, id: string, timestamp: string): (t: ChatState)
    ensures IsBlank(s.draft) ==> t == s
    ensures !IsBlank(s.draft) ==>
      && |t.messages| == |s.messages| + 1
      && t.messages[..|s.messages|] == s.messages
      && t.draft == [] && t.isTyping && t.pending == s.pending + 1
      && (var m := t.messages[|s.messages|];
          m.isMe && m.status == Sent && m.id == id && m.timestamp == timestamp
          && m.text == Trim(s.draft) && m.text != [] && IsTrimmed(m.text))
  {
    if !SendEnabled(s.draft) then s
    else ChatState(s.messages + [OwnMessage(id, s.draft, timestamp)], [], true, s.pending + 1)
  }

  /** A scheduled reply fires: the typing indicator goes down and the peer's
      fixed answer is appended with status `Read`; the draft is untouched. */
  function ReplyStep(s: ChatState, id: string, timestamp: string): (t: ChatState)
    requires s.pending > 0
    ensures |t.messages| == |s.messages| + 1 && t.messages[..|s.messages|] == s.messages
    ensures var m := t.messages[|s.messages|];
      !m.isMe && m.status == Read && m.text == ReplyText && m.id == id && m.timestamp == timestamp
    ensures !t.isTyping && t.draft == s.draft && t.pending == s.pending - 1
  {
    ChatState(s.messages + [ReplyMessage(id, timestamp)], s.draft, false, s.pending - 1)
  }

  /** Appending a well-formed message to a well-formed log keeps it well
      formed. */
  lemma AppendWellFormed(ms: seq<Message>, m: Message)
    requires AllWellFormed(ms) && WellFormed(m)
    ensures AllWellFormed(ms + [m])
  {
    assert (ms + [m])[..|ms|] == ms;
  }

  /** Every step keeps the state valid. */
  lemma StepsPreserveValid(s: ChatState, id: string, timestamp: string, text: string)
    requires ValidState(s)
    ensures |text| <= MaxDraftLength ==> ValidState(EditStep(s, text))
    ensures ValidState(SendStep(s, id, timestamp))
    ensures s.pending > 0 ==> ValidState(ReplyStep(s, id, timestamp))
  {
    if SendEnabled(s.draft) {
      var m := OwnMessage(id, s.draft, timestamp);
      assert WellFormed(m);
      AppendWellFormed(s.messages, m);
      assert SendStep(s, id, timestamp).messages == s.messages + [m];
    }
    if s.pending > 0 {
      AppendWellFormed(s.messages, ReplyMessage(id, timestamp));
    }
  }

  // ---------------------------------------------------------------------
  // Traces of events.
  // ---------------------------------------------------------------------

  datatype Event =
    | Type(text: string)                           // onChangeText
    | Press(id: string, timestamp: string)         // the send button
    | Reply(id: string, timestamp: string)         // a scheduled reply fires

  /** The state after one event, or None for an event the screen cannot
      produce: a draft longer than the field allows, or a reply with none
      scheduled. */
  function Apply(s: ChatState, e: Event): (r: Option<ChatState>)
    ensures r.None? <==> (e.Type? && |e.text| > MaxDraftLength) || (e.Reply? && s.pending == 0)
    ensures r.Some? ==> s.messages <= r.value.messages
  {
    match e
    case Type(text) => if |text| <= MaxDraftLength then Some(EditStep(s, text)) else None
    case Press(id, ts) => Some(SendStep(s, id, ts))
    case Reply(id, ts) => if s.pending > 0 then Some(ReplyStep(s, id, ts)) else None
  }

  /** The state after a whole trace of events. */
  function Run(s: ChatState, evs: seq<Event>): Option<ChatState>
    decreases |evs|
  {
    if evs == [] then Some(s)
    else match Apply(s, evs[0])
      case None => None
      case Some(t) => Run(t, evs[1..])
  }

  /** Running two traces one after the other is running their concatenation. */
  lemma {:induction false} RunConcat(s: ChatState, a: seq<Event>, b: seq<Event>)
    ensures Run(s, a + b) == match Run(s, a) case None => None case Some(t) => Run(t, b)
    decreases |a|
  {
    if a == [] {
      assert a + b == b;
    } else {
      assert (a + b)[0] == a[0] && (a + b)[1..] == a[1..] + b;
      match Apply(s, a[0])
      case None =>
      case Some(t) => RunConcat(t, a[1..], b);
    }
  }

  /** The log is append-only and the state stays valid: whatever events the
      screen goes through, the earlier log is a prefix of the later one. */
  lemma {:induction false} RunAppendOnly(s: ChatState, evs: seq<Event>)
    requires ValidState(s)
    ensures Run(s, evs).Some? ==>
      ValidState(Run(s, evs).value) && s.messages <= Run(s, evs).value.messages
    decreases |evs|
  {
    if evs != [] {
      var e := evs[0];
      match Apply(s, e)
      case None =>
      case Some(t) =>
        match e {
          case Type(text) => StepsPreserveValid(s, "", "", text);
          case Press(id, ts) => StepsPreserveValid(s, id, ts, "");
          case Reply(id, ts) => StepsPreserveValid(s, id, ts, "");
        }
        assert s.messages <= t.messages;
        RunAppendOnly(t, evs[1..]);
    }
  }

  /** One user turn: typing a draft, then pressing send. */
  datatype Turn = Turn(text: string, id: string, timestamp: string)

  function TurnEvents(turns: seq<Turn>): (evs: seq<Event>)
    ensures |evs| == 2 * |turns|
  {
    if turns == [] then []
    else [Type(turns[0].text), Press(turns[0].id, turns[0].timestamp)] + TurnEvents(turns[1..])
  }

  function ReplyEvents(replies: seq<(string, string)>): (evs: seq<Event>)
    ensures |evs| == |replies|
  {
    if replies == [] then [] else [Reply(replies[0].0, replies[0].1)] + ReplyEvents(replies[1..])
  }

  /** A turn the screen accepts: a draft that fits and is not blank. */
  predicate Sendable(t: Turn) {
    |t.text| <= MaxDraftLength && !IsBlank(t.text)
  }

  /** The state after one turn, when the turn is accepted. */
  function AfterTurn(s: ChatState, tn: Turn): ChatState
    requires |tn.text| <= MaxDraftLength
  {
    SendStep(EditStep(s, tn.text), tn.id, tn.timestamp)
  }

  /** One accepted turn appends one message, schedules one reply, clears
      the draft and raises the typing indicator. */
  lemma AfterSendableTurn(s: ChatState, tn: Turn)
    requires Sendable(tn)
    ensures var t := AfterTurn(s, tn);
      |t.messages| == |s.messages| + 1 && t.pending == s.pending + 1 && t.isTyping && t.draft == []
  {
    assert !IsBlank(EditStep(s, tn.text).draft);
  }

  /** The first turn of a trace of turns: type the draft, send it, then
      carry on with the remaining turns. */
  lemma RunTurn(s: ChatState, turns: seq<Turn>)
    requires turns != [] && |turns[0].text| <= MaxDraftLength
    ensures Run(s, TurnEvents(turns)) == Run(AfterTurn(s, turns[0]), TurnEvents(turns[1..]))
  {
    var tn := turns[0];
    var evs := TurnEvents(turns);
    assert evs[0] == Type(tn.text);
    assert evs[1..][0] == Press(tn.id, tn.timestamp);
    assert evs[1..][1..] == TurnEvents(turns[1..]);
  }

  /** k non-blank turns grow the log by k, clear the draft, raise the typing
      indicator and schedule k more replies. */
  lemma {:induction false} TurnsAppend(s: ChatState, turns: seq<Turn>)
    requires forall i :: 0 <= i < |turns| ==> Sendable(turns[i])
    ensures Run(s, TurnEvents(turns)).Some?
    ensures var t := Run(s, TurnEvents(turns)).value;
      |t.messages| == |s.messages| + |turns| && t.pending == s.pending + |turns|
      && (turns != [] ==> t.isTyping && t.draft == [])
      && (turns == [] ==> t == s)
    decreases |turns|
  {
    if turns != [] {
      assert Sendable(turns[0]);
      var s2 := AfterTurn(s, turns[0]);
      AfterSendableTurn(s, turns[0]);
      RunTurn(s, turns);
      assert forall i :: 0 <= i < |turns[1..]| ==> Sendable(turns[1..][i]) by {
        forall i | 0 <= i < |turns[1..]| ensures Sendable(turns[1..][i]) {
          assert turns[1..][i] == turns[i + 1];
        }
      }
      TurnsAppend(s2, turns[1..]);
    }
  }

  /** k reply events, with at least k replies scheduled, grow the log by k,
      cancel k scheduled replies and (when k > 0) lower the typing indicator. */
  lemma {:induction false} RepliesAppend(s: ChatState, replies: seq<(string, string)>)
    requires |replies| <= s.pending
    ensures Run(s, ReplyEvents(replies)).Some?
    ensures var t := Run(s, ReplyEvents(replies)).value;
      |t.messages| == |s.messages| + |replies| && t.pending == s.pending - |replies|
      && t.draft == s.draft && (replies != [] ==> !t.isTyping)
      && (replies == [] ==> t == s)
    decreases |replies|
  {
    if replies != [] {
      var s1 := ReplyStep(s, replies[0].0, replies[0].1);
      var evs := ReplyEvents(replies);
      assert evs[1..] == ReplyEvents(replies[1..]);
      assert Run(s, evs) == Run(s1, evs[1..]);
      RepliesAppend(s1, replies[1..]);
    }
  }

  /** k non-blank sends followed by their k replies grow the log by exactly
      2k, leave the same number of replies scheduled as before and (when
      k > 0) end with the typing indicator down and an empty draft. */
  lemma SendsThenReplies(s: ChatState, turns: seq<Turn>, replies: seq<(string, string)>)
    requires forall i :: 0 <= i < |turns| ==> Sendable(turns[i])
    requires |replies| == |turns|
    ensures Run(s, TurnEvents(turns) + ReplyEvents(replies)).Some?
    ensures var t := Run(s, TurnEvents(turns) + ReplyEvents(replies)).value;
      |t.messages| == |s.messages| + 2 * |turns| && t.pending == s.pending
      && (turns != [] ==> !t.isTyping && t.draft == [])
  {
    RunConcat(s, TurnEvents(turns), ReplyEvents(replies));
    TurnsAppend(s, turns);
    RepliesAppend(Run(s, TurnEvents(turns)).value, replies);
  }

  /** The screen keeps one typing flag, not a count: after two sends, the
      first reply already lowers the indicator although the second reply is
      still scheduled. */
  lemma TypingClearedWhileReplyPending(s: ChatState, a: Turn, b: Turn, id: string, timestamp: string)
    requires Sendable(a) && Sendable(b)
    ensures var t := Run(s, TurnEvents([a, b]) + [Reply(id, timestamp)]);
      t.Some? && !t.value.isTyping && t.value.pending == s.pending + 1
  {
    RunConcat(s, TurnEvents([a, b]), [Reply(id, timestamp)]);
    TurnsAppend(s, [a, b]);
  }

  // ---------------------------------------------------------------------
  // Rendering of a message's delivery tick.
  // ---------------------------------------------------------------------

  datatype TickName = Checkmark | CheckmarkDone
  /** `ReadGreen` is "#4CAF50"; `FadedSurface` is the theme's surface colour
      at half opacity. */
  datatype TickColor = ReadGreen | FadedSurface
  datatype Tick = Tick(name: TickName, color: TickColor)

  /** The icon in a message's footer: none for the peer's messages; a double
      tick for `Read` and `Delivered`, a single tick for `Sent`; green only
      for `Read`. */
  function StatusTick(m: Message): (r: Option<Tick>)
    ensures r.Some? <==> m.isMe
    ensures r.Some? ==> (r.value.name == CheckmarkDone <==> m.status != Sent)
    ensures r.Some? ==> (r.value.color == ReadGreen <==> m.status == Read)
  {
    if !m.isMe then None
    else
      var name := if m.status == Read then CheckmarkDone
                  else if m.status == Delivered then CheckmarkDone
                  else Checkmark;
      Some(Tick(name, if m.status == Read then ReadGreen else FadedSurface))
  }

  /** A status that advances along Sent, Delivered, Read never takes a tick
      away: the double tick and the green colour, once shown, stay. */
  function Rank(st: Status): nat {
    match st case Sent => 0 case Delivered => 1 case Read => 2
  }

  lemma TickMonotone(m: Message, st: Status)
    requires m.isMe && Rank(m.status) <= Rank(st)
    ensures StatusTick(m).value.name == CheckmarkDone ==> StatusTick(m.(status := st)).value.name == CheckmarkDone
    ensures StatusTick(m).value.color == ReadGreen ==> StatusTick(m.(status := st)).value.color == ReadGreen
  {
  }

  // ---------------------------------------------------------------------
  // The screen itself.
  // ---------------------------------------------------------------------

  class ChatScreen {
    var messages: seq<Message>
    var newMessage: string
    var isTyping: bool
    /** Replies scheduled and not yet delivered (one timer per send). */
    ghost var pendingReplies: nat

    ghost function State(): ChatState
      reads this
    {
      ChatState(messages, newMessage, isTyping, pendingReplies)
    }

    ghost predicate Valid()
      reads this
    {
      ValidState(State())
    }

    /** Opening the screen: the seeded transcript, an empty draft, no
        typing indicator, nothing scheduled. */
    constructor ()
      ensures Valid() && State() == Initial()
    {
      var s := Initial();
      messages, newMessage, isTyping, pendingReplies := s.messages, s.draft, s.isTyping, s.pending;
    }

    /** `onChangeText`: the field replaces the draft. */
    method ChangeText(text: string)
      requires Valid() && |text| <= MaxDraftLength
      modifies this
      ensures Valid() && State() == EditStep(old(State()), text)
    {
      newMessage := text;
    }

    /** `sendMessage` up to the point where it schedules the reply. */
    method SendMessage(id: string, timestamp: string)
      requires Valid()
      modifies this
      ensures Valid() && State() == SendStep(old(State()), id, timestamp)
      ensures old(messages) <= messages
    {
      ghost var s := State();
      StepsPreserveValid(s, id, timestamp, "");
      var text := Trim(newMessage);
      if text == [] {
        return;
      }
      messages := messages + [Message(id, text, timestamp, true, Sent)];
      newMessage := "";
      isTyping := true;
      pendingReplies := pendingReplies + 1;
    }

    /** The scheduled callback of `sendMessage` firing. */
    method DeliverReply(id: string, timestamp: string)
      requires Valid() && pendingReplies > 0
      modifies this
      ensures Valid() && State() == ReplyStep(old(State()), id, timestamp)
      ensures old(messages) <= messages
    {
      StepsPreserveValid(State(), id, timestamp, "");
      isTyping := false;
      messages := messages + [Message(id, ReplyText, timestamp, false, Read)];
      pendingReplies := pendingReplies - 1;
    }

    /** Whether the send button is enabled. */
    method CanSend() returns (enabled: bool)
      ensures enabled <==> !IsBlank(newMessage)
    {
      enabled := SendEnabled(newMessage);
    }
  }
}
