/**
 * The messages screen: the search over the built-in conversations, where a
 * conversation may or may not name the service it is about.
 */
module Messages {
  import opened Wrappers
  import Seqs
  import Text

  datatype Message = Message(
    id: string,
    senderName: string,
    senderAvatar: string,
    lastMessage: string,
    timestamp: string,
    unreadCount: nat,
    isOnline: bool,
    serviceTitle: Option<string>)

  const MockMessages: seq<Message> := [
    Message("1", "Sarah Johnson", "\U{1F469}",
      "Hi! I can start the cleaning service tomorrow at 10 AM. Is that okay?",
      "2 min ago", 2, true, Some("House Cleaning")),
    Message("2", "Mike Wilson", "\U{1F468}",
      "The plumbing issue has been fixed. Please confirm if everything is working properly.",
      "1 hour ago", 0, false, Some("Plumbing Repair")),
    Message("3", "David Brown", "\U{1F468}",
      "Thank you for the great service! I'll definitely book again.",
      "3 hours ago", 0, true, Some("Electrical Work")),
    Message("4", "Emma Davis", "\U{1F469}",
      "Can you provide a quote for painting my living room?",
      "1 day ago", 1, false, Some("Painting Service"))
  ]

  /**
   * The optional-chained title test: an absent title yields `undefined`,
   * which the filter reads as false.
   */
  predicate TitleMatches(title: Option<string>, query: string) {
    match title
    case None => false
    case Some(t) => Text.Matches(t, query)
  }

  predicate MessageMatches(m: Message, query: string) {
    Text.Matches(m.senderName, query) || TitleMatches(m.serviceTitle, query)
  }

  function MatchesQuery(query: string): Message -> bool {
    (m: Message) => MessageMatches(m, query)
  }

  /** `filteredMessages`: the matching conversations, in their original order. */
  function Filtered(query: string): (r: seq<Message>)
    ensures forall i :: 0 <= i < |r| ==> MessageMatches(r[i], query) && r[i] in MockMessages
    ensures forall i :: 0 <= i < |MockMessages| && MessageMatches(MockMessages[i], query) ==> MockMessages[i] in r
    ensures Seqs.IsSubsequence(r, MockMessages)
  {
    Seqs.Filter(MockMessages, MatchesQuery(query))
  }

  /** A listed conversation is shown exactly when its sender or its service title matches. */
  lemma ShownIff(m: Message, query: string)
    requires m in MockMessages
    ensures m in Filtered(query) <==>
      (Text.Matches(m.senderName, query) || (m.serviceTitle.Some? && Text.Matches(m.serviceTitle.value, query)))
  {
    var i :| 0 <= i < |MockMessages| && MockMessages[i] == m;
    if m in Filtered(query) {
      var j :| 0 <= j < |Filtered(query)| && Filtered(query)[j] == m;
    }
  }

  /** Without a service title, only the sender's name can make a conversation match. */
  lemma UntitledMatchesOnName(m: Message, query: string)
    requires m.serviceTitle == None
    ensures MatchesQuery(query)(m) <==> Text.Matches(m.senderName, query)
  {
  }

  /** An empty query shows every conversation, in order. */
  lemma EmptyQueryKeepsAll()
    ensures Filtered("") == MockMessages
  {
    forall m | m in MockMessages
      ensures MatchesQuery("")(m)
    {
      Text.EmptyQueryMatches(m.senderName);
    }
    Seqs.FilterKeepsAll(MockMessages, MatchesQuery(""));
  }
}
