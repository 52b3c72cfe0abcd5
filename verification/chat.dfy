/** The direct-chat page: sending a message in the open conversation and searching the
    contact list by name. */
module Chat {
  import opened Options
  import opened JsString
  import opened Seqs

  datatype ChatUser = ChatUser(
    id: int,
    name: string,
    role: string,
    isOnline: bool,
    lastMessage: Option<string>,
    timestamp: Option<string>,
    unread: Option<int>)

  datatype Message = Message(id: int, sender: string, content: string, timestamp: string, isOwn: bool)

  /** The open conversation and the text in the message box. */
  datatype Conversation = Conversation(messages: seq<Message>, input: string)

  const Self := "You"

  /** `handleSendMessage()`: a blank input changes nothing; otherwise the input, as typed,
      is appended as the viewer's own message numbered one past the current length, every
      earlier message stays where it was, and the box is cleared. `clock` is the formatted
      time of sending. */
  function SendMessage(c: Conversation, clock: string): (r: Conversation)
    ensures IsBlank(c.input) ==> r == c
    ensures !IsBlank(c.input) ==>
      && r.input == ""
      && |r.messages| == |c.messages| + 1
      && r.messages[..|c.messages|] == c.messages
      && r.messages[|c.messages|] == Message(|c.messages| + 1, Self, c.input, clock, true)
  {
    if IsBlank(c.input) then c
    else
      var message := Message(|c.messages| + 1, Self, c.input, clock, true);
      Conversation(c.messages + [message], "")
  }

  /** Message `i` (from zero) carries id `i + 1`. */
  predicate NumberedInOrder(messages: seq<Message>) {
    forall i :: 0 <= i < |messages| ==> messages[i].id == i + 1
  }

  /** Sending keeps the messages numbered 1, 2, 3, ... in list order. */
  lemma SendKeepsNumbering(c: Conversation, clock: string)
    requires NumberedInOrder(c.messages)
    ensures NumberedInOrder(SendMessage(c, clock).messages)
  {
    var r := SendMessage(c, clock);
    if !IsBlank(c.input) {
      forall i | 0 <= i < |r.messages| ensures r.messages[i].id == i + 1 {
        if i < |c.messages| {
          assert r.messages[i] == r.messages[..|c.messages|][i];
        }
      }
    }
  }

  /** The contact-list search: the user's lower-cased name includes the lower-cased query. */
  predicate NameMatches(u: ChatUser, query: string) {
    Includes(ToLower(u.name), ToLower(query))
  }

  /** `filteredUsers`: the users whose name matches the query, in list order, each matching
      entry as often as it occurs in the list. */
  function FilterUsers(users: seq<ChatUser>, query: string): (r: seq<ChatUser>)
    ensures IsSubsequence(r, users)
    ensures forall u :: u in r <==> u in users && NameMatches(u, query)
    ensures forall u :: multiset(r)[u] == if NameMatches(u, query) then multiset(users)[u] else 0
  {
    Filter(users, u => NameMatches(u, query))
  }

  /** An empty query lists every user. */
  lemma EmptyQueryListsAll(users: seq<ChatUser>)
    ensures FilterUsers(users, "") == users
  {
    forall i | 0 <= i < |users| ensures NameMatches(users[i], "") {
      IncludesEmpty(ToLower(users[i].name));
    }
    FilterKeepsAll(users, u => NameMatches(u, ""));
  }

  /** The search ignores the case of the query: the lower-cased query lists the same users
      as the query as typed. */
  lemma QueryCaseIgnored(users: seq<ChatUser>, query: string)
    ensures FilterUsers(users, ToLower(query)) == FilterUsers(users, query)
  {
    ToLowerIdempotent(query);
    FilterSamePredicate(users, u => NameMatches(u, ToLower(query)), u => NameMatches(u, query));
  }
}
