/** The messages hook: the conversation list, the open conversation, and the optimistic send
    protocol. The current user is user 1. Every `Date.now()` the source reads is a parameter:
    the temporary message id, the id of a conversation created on send, and the ISO stamps. */
module MessagesHook {
  import opened Outcomes
  import opened Text
  import opened Lists

  const CurrentUser := 1

  /** A chat message. The embedded `sender` record is display data and is not modelled. */
  datatype Message = Message(
    id: int, senderId: int, receiverId: int, content: string, rideId: Option<int>, createdAt: string)

  /** The other party of a conversation. */
  datatype Peer = Peer(id: int, name: string)

  datatype Conversation = Conversation(
    id: int, user: Peer, lastMessage: Message, unreadCount: int, rideId: Option<int>)

  function MessageId(m: Message): int {
    m.id
  }

  function PeerId(c: Conversation): int {
    c.user.id
  }

  /** `conversations.reduce((total, conv) => total + conv.unreadCount, 0)`, folded from the left. */
  function TotalUnread(s: seq<Conversation>): int {
    if s == [] then 0 else TotalUnread(s[..|s| - 1]) + s[|s| - 1].unreadCount
  }

  predicate CountsNonNegative(s: seq<Conversation>) {
    forall i :: 0 <= i < |s| ==> s[i].unreadCount >= 0
  }

  /** The total splits over a concatenation. */
  lemma {:induction false} TotalUnreadAppend(a: seq<Conversation>, b: seq<Conversation>)
    ensures TotalUnread(a + b) == TotalUnread(a) + TotalUnread(b)
    decreases |b|
  {
    if b == [] {
      assert a + b == a;
    } else {
      assert (a + b)[..|a + b| - 1] == a + b[..|b| - 1];
      TotalUnreadAppend(a, b[..|b| - 1]);
    }
  }

  /** The total is the sum of the counts, whatever the order of the fold: it is the first count
      plus the total of the rest. */
  lemma TotalUnreadCons(c: Conversation, s: seq<Conversation>)
    ensures TotalUnread([c] + s) == c.unreadCount + TotalUnread(s)
  {
    TotalUnreadAppend([c], s);
    assert [c][..0] == [];
  }

  /** Replacing one conversation changes the total by the difference of the two counts. */
  lemma TotalUnreadUpdate(s: seq<Conversation>, i: int, c: Conversation)
    requires 0 <= i < |s|
    ensures TotalUnread(s[i := c]) == TotalUnread(s) - s[i].unreadCount + c.unreadCount
  {
    assert s == s[..i] + [s[i]] + s[i + 1..];
    assert s[i := c] == s[..i] + [c] + s[i + 1..];
    TotalUnreadAppend(s[..i] + [s[i]], s[i + 1..]);
    TotalUnreadAppend(s[..i], [s[i]]);
    TotalUnreadAppend(s[..i] + [c], s[i + 1..]);
    TotalUnreadAppend(s[..i], [c]);
    assert [s[i]][..0] == [] && [c][..0] == [];
  }

  /** `prev.map(conv => conv.user.id === userId ? { ...conv, unreadCount: 0 } : conv)` */
  function MarkRead(s: seq<Conversation>, userId: int): (r: seq<Conversation>)
    ensures |r| == |s|
    ensures forall i :: 0 <= i < |s| && s[i].user.id == userId ==> r[i] == s[i].(unreadCount := 0)
    ensures forall i :: 0 <= i < |s| && s[i].user.id != userId ==> r[i] == s[i]
  {
    if s == [] then [] else [if s[0].user.id == userId then s[0].(unreadCount := 0) else s[0]] + MarkRead(s[1..], userId)
  }

  /** Marking the same conversation read twice is marking it once. */
  lemma MarkReadIdempotent(s: seq<Conversation>, userId: int)
    ensures MarkRead(MarkRead(s, userId), userId) == MarkRead(s, userId)
  {
  }

  /** With non-negative counts, marking a conversation read never raises the total, and the
      total drops by exactly the counts of that user's conversations. */
  lemma {:induction false} MarkReadLowersTotal(s: seq<Conversation>, userId: int)
    requires CountsNonNegative(s)
    ensures TotalUnread(MarkRead(s, userId)) <= TotalUnread(s)
    ensures TotalUnread(MarkRead(s, userId)) == TotalUnread(s) - TotalUnread(UserConversations(s, userId))
  {
    if s != [] {
      var r := MarkRead(s, userId);
      MarkReadLowersTotal(s[1..], userId);
      assert s == [s[0]] + s[1..];
      assert r == [r[0]] + MarkRead(s[1..], userId);
      TotalUnreadCons(s[0], s[1..]);
      TotalUnreadCons(r[0], MarkRead(s[1..], userId));
      if s[0].user.id == userId {
        TotalUnreadCons(s[0], UserConversations(s[1..], userId));
      }
    }
  }

  /** The conversations with that user, in order. */
  function UserConversations(s: seq<Conversation>, userId: int): (r: seq<Conversation>)
    ensures forall i :: 0 <= i < |r| ==> r[i].user.id == userId
  {
    if s == [] then []
    else if s[0].user.id == userId then [s[0]] + UserConversations(s[1..], userId)
    else UserConversations(s[1..], userId)
  }

  /** After marking, the user's conversations count nothing unread. */
  lemma MarkReadClearsUser(s: seq<Conversation>, userId: int)
    ensures TotalUnread(UserConversations(MarkRead(s, userId), userId)) == 0
  {
    var r := MarkRead(s, userId);
    ZeroCountsTotal(UserConversations(r, userId), r, userId);
  }

  /** A list of conversations with the user, taken from a marked list, totals zero. */
  lemma {:induction false} ZeroCountsTotal(u: seq<Conversation>, r: seq<Conversation>, userId: int)
    requires forall i :: 0 <= i < |r| && r[i].user.id == userId ==> r[i].unreadCount == 0
    requires u == UserConversations(r, userId)
    ensures TotalUnread(u) == 0
    decreases |r|
  {
    if r != [] {
      var rest := UserConversations(r[1..], userId);
      ZeroCountsTotal(rest, r[1..], userId);
      if r[0].user.id == userId {
        TotalUnreadCons(r[0], rest);
      }
    }
  }

  /** What `formatMessageTime` shows for a message `diffMs` milliseconds old: a relative label,
      or the locale's date (`toLocaleDateString`, not modelled) once it is a week old. */
  datatype MessageTime = Relative(text: string) | LocaleDate

  const MinuteMs := 60 * 1000
  const HourMs := 60 * MinuteMs
  const DayMs := 24 * HourMs
  const WeekMs := 7 * DayMs

  /** `formatMessageTime`: whole minutes, hours and days are taken by floor division, each from
      the one before. */
  function FormatMessageTime(diffMs: int): (r: MessageTime)
    ensures diffMs < MinuteMs ==> r == Relative("Just now")
    ensures MinuteMs <= diffMs < HourMs ==>
      1 <= diffMs / MinuteMs < 60 && r == Relative(NatToString(diffMs / MinuteMs) + "m ago")
    ensures HourMs <= diffMs < DayMs ==>
      1 <= diffMs / HourMs < 24 && r == Relative(NatToString(diffMs / HourMs) + "h ago")
    ensures DayMs <= diffMs < WeekMs ==>
      1 <= diffMs / DayMs < 7 && r == Relative(NatToString(diffMs / DayMs) + "d ago")
    ensures r == LocaleDate <==> diffMs >= WeekMs
  {
    var diffMins := diffMs / 60000;
    var diffHours := diffMins / 60;
    var diffDays := diffHours / 24;
    assert diffHours == diffMs / 3600000;
    assert diffDays == diffMs / 86400000;
    if diffMins < 1 then Relative("Just now")
    else if diffMins < 60 then Relative(NatToString(diffMins) + "m ago")
    else if diffHours < 24 then Relative(NatToString(diffHours) + "h ago")
    else if diffDays < 7 then Relative(NatToString(diffDays) + "d ago")
    else LocaleDate
  }

  /** A message stamped in the future (a negative difference) shows as "Just now". */
  lemma FutureIsJustNow(diffMs: int)
    requires diffMs < 0
    ensures FormatMessageTime(diffMs) == Relative("Just now")
  {
  }

  /** The number in a minutes label reads back as the whole minutes elapsed. */
  lemma MinutesLabelReadsBack(diffMs: int)
    requires MinuteMs <= diffMs < HourMs
    ensures var t := FormatMessageTime(diffMs).text;
      |t| > 5 && t[|t| - 5..] == "m ago" && AllDigits(t[..|t| - 5]) && ParseNat(t[..|t| - 5]) == diffMs / MinuteMs
  {
    var n := NatToString(diffMs / MinuteMs);
    var t := n + "m ago";
    assert t[..|t| - 5] == n;
    assert t[|t| - 5..] == "m ago";
    ParseNatToString(diffMs / MinuteMs);
  }

  /** The optimistic message: a temporary id, from the current user, the trimmed text. */
  function Optimistic(receiverId: int, content: string, rideId: Option<int>, tempId: int, nowStamp: string)
    : (m: Message)
    ensures m.id == tempId && m.senderId == CurrentUser && m.receiverId == receiverId
    ensures m.rideId == rideId && m.createdAt == nowStamp
    ensures m.content == Trim(content)
  {
    Message(tempId, CurrentUser, receiverId, Trim(content), rideId, nowStamp)
  }

  /** The optimistic message of a non-blank text is non-empty and has no whitespace at either end. */
  lemma OptimisticContentTrimmed(receiverId: int, content: string, rideId: Option<int>, tempId: int, nowStamp: string)
    requires !AllSpace(content)
    ensures var c := Optimistic(receiverId, content, rideId, tempId, nowStamp).content;
      c != [] && !IsSpace(c[0]) && !IsSpace(c[|c| - 1])
  {
    TrimEmptyIffAllSpace(content);
    TrimHasNoOuterSpace(content);
  }

  /** The conversation `sendMessage` creates when the receiver has none yet. */
  function NewConversation(id: int, receiverId: int, message: Message, rideId: Option<int>): Conversation {
    Conversation(id, Peer(receiverId, "User"), message, 0, rideId)
  }

  /** When no earlier message carries the temporary id, replacing it in the list with the
      optimistic message appended just swaps the last entry for the server's message. */
  lemma ReplaceOptimistic(prev: seq<Message>, optimistic: Message, message: Message)
    requires forall i :: 0 <= i < |prev| ==> prev[i].id != optimistic.id
    ensures ReplaceWhere(prev + [optimistic], MessageId, optimistic.id, message) == prev + [message]
  {
    var r := ReplaceWhere(prev + [optimistic], MessageId, optimistic.id, message);
    assert forall i :: 0 <= i < |prev| ==> (prev + [optimistic])[i] == prev[i];
  }

  /** Sending does not change the unread total: an existing conversation keeps its count, and
      a created one starts at zero. */
  lemma SendKeepsTotal(s: seq<Conversation>, receiverId: int, message: Message, newId: int, rideId: Option<int>)
    ensures var i := FindIndex(s, PeerId, receiverId);
      i >= 0 ==> TotalUnread(s[i := s[i].(lastMessage := message)]) == TotalUnread(s)
    ensures TotalUnread([NewConversation(newId, receiverId, message, rideId)] + s) == TotalUnread(s)
  {
    var i := FindIndex(s, PeerId, receiverId);
    if i >= 0 {
      TotalUnreadUpdate(s, i, s[i].(lastMessage := message));
    }
    TotalUnreadCons(NewConversation(newId, receiverId, message, rideId), s);
  }

  class Messages {
    var conversations: seq<Conversation>
    var currentConversation: seq<Message>
    var loading: bool
    var error: Option<string>

    constructor ()
      ensures conversations == [] && currentConversation == [] && !loading && error == None
    {
      conversations := [];
      currentConversation := [];
      loading := false;
      error := None;
    }

    /** `getTotalUnreadCount` */
    function TotalUnreadCount(): int
      reads this
    {
      TotalUnread(conversations)
    }

    /** `getConversations`: the fetched list (`[]` for a null body), or the two demo
        conversations when the call fails; the error is never set. `stamp30m` and `stamp2h` are
        the ISO times thirty minutes and two hours ago. */
    method GetConversations(response: Outcome<Option<seq<Conversation>>>, stamp30m: string, stamp2h: string)
      modifies this`conversations, this`loading, this`error
      ensures !loading && error == None
      ensures response.Success? ==>
        conversations == (if response.value.Some? then response.value.value else [])
      ensures response.Failure? ==> conversations == MockConversations(stamp30m, stamp2h)
    {
      loading := true;
      error := None;
      match response {
        case Success(data) =>
          conversations := if data.Some? then data.value else [];
        case Failure(_) =>
          conversations := MockConversations(stamp30m, stamp2h);
      }
      loading := false;
    }

    /** `getConversationWithUser`: the fetched messages, or four demo messages alternating
        between that user and the current user. `stamps` are the ISO times two hours, ninety,
        sixty and thirty minutes ago. */
    method GetConversationWithUser(userId: int, response: Outcome<Option<seq<Message>>>,
                                   stamps: (string, string, string, string))
      modifies this`currentConversation, this`loading, this`error
      ensures !loading && error == None
      ensures response.Success? ==>
        currentConversation == (if response.value.Some? then response.value.value else [])
      ensures response.Failure? ==> currentConversation == MockMessages(userId, stamps)
    {
      loading := true;
      error := None;
      match response {
        case Success(data) =>
          currentConversation := if data.Some? then data.value else [];
        case Failure(_) =>
          currentConversation := MockMessages(userId, stamps);
      }
      loading := false;
    }

    /** `sendMessage`. A blank text changes nothing. Otherwise the optimistic message is
        appended; on success every message with the temporary id becomes the server's message,
        and the first conversation with the receiver gets it as its last message, or a new
        conversation with it is put first. On failure the optimistic message stays and the
        conversations are untouched. */
    method SendMessage(receiverId: int, content: string, rideId: Option<int>, tempId: int,
                       nowStamp: string, newConversationId: int, response: Outcome<Message>)
      modifies this`currentConversation, this`conversations
      ensures AllSpace(content) ==>
        currentConversation == old(currentConversation) && conversations == old(conversations)
      ensures !AllSpace(content) && response.Failure? ==>
        currentConversation == old(currentConversation) + [Optimistic(receiverId, content, rideId, tempId, nowStamp)] &&
        conversations == old(conversations)
      ensures !AllSpace(content) && response.Success? ==>
        currentConversation == ReplaceWhere(old(currentConversation) + [Optimistic(receiverId, content, rideId, tempId, nowStamp)],
                                            MessageId, tempId, response.value)
      ensures !AllSpace(content) && response.Success? ==>
        var i := FindIndex(old(conversations), PeerId, receiverId);
        (i >= 0 ==> conversations == old(conversations)[i := old(conversations)[i].(lastMessage := response.value)]) &&
        (i == -1 ==> conversations == [NewConversation(newConversationId, receiverId, response.value, rideId)] + old(conversations))
    {
      TrimEmptyIffAllSpace(content);
      if Trim(content) == [] {
        return;
      }
      var optimisticMessage := Optimistic(receiverId, content, rideId, tempId, nowStamp);
      currentConversation := currentConversation + [optimisticMessage];
      match response {
        case Success(message) =>
          currentConversation := ReplaceWhere(currentConversation, MessageId, optimisticMessage.id, message);
          var existing := FindIndex(conversations, PeerId, receiverId);
          if existing >= 0 {
            var updated := conversations;
            updated := updated[existing := updated[existing].(lastMessage := message)];
            conversations := updated;
          } else {
            conversations := [NewConversation(newConversationId, receiverId, message, rideId)] + conversations;
          }
        case Failure(_) =>
      }
    }

    /** `markConversationAsRead` */
    method MarkConversationAsRead(userId: int)
      modifies this`conversations
      ensures conversations == MarkRead(old(conversations), userId)
      ensures CountsNonNegative(old(conversations)) ==> TotalUnreadCount() <= old(TotalUnreadCount())
    {
      if CountsNonNegative(conversations) {
        MarkReadLowersTotal(conversations, userId);
      }
      conversations := MarkRead(conversations, userId);
    }
  }

  /** The two demo conversations: with John Doe (user 2, two unread, ride 1) and with Jane Smith
      (user 3, none unread, ride 2). */
  function MockConversations(stamp30m: string, stamp2h: string): (r: seq<Conversation>)
    ensures |r| == 2 && TotalUnread(r) == 2
  {
    var r := [
      Conversation(1, Peer(2, "John Doe"),
        Message(1, 2, 1, "Hey! Are you ready for the ride tomorrow?", None, stamp30m), 2, Some(1)),
      Conversation(2, Peer(3, "Jane Smith"),
        Message(2, 1, 3, "Thanks for the ride yesterday!", None, stamp2h), 0, Some(2))];
    assert r[..1][..0] == [];
    assert r[..|r| - 1] == r[..1];
    assert TotalUnread(r[..1]) == 2;
    r
  }

  /** The four demo messages with that user, alternating sender, ids 1 to 4. */
  function MockMessages(userId: int, stamps: (string, string, string, string)): (r: seq<Message>)
    ensures |r| == 4
    ensures forall i :: 0 <= i < 4 ==> r[i].id == i + 1
    ensures forall i :: 0 <= i < 4 ==> (r[i].senderId == userId && r[i].receiverId == CurrentUser) ||
                                       (r[i].senderId == CurrentUser && r[i].receiverId == userId)
  {
    [Message(1, userId, CurrentUser, "Hi! I saw your ride request. What time should we meet?", None, stamps.0),
     Message(2, CurrentUser, userId, "Great! How about 8:00 AM at the main entrance?", None, stamps.1),
     Message(3, userId, CurrentUser, "Perfect! See you then. I'll be driving a white Tesla Model 3.", None, stamps.2),
     Message(4, CurrentUser, userId, "Sounds good! Looking forward to it.", None, stamps.3)]
  }
}
