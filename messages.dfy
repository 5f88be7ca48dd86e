/**
 * The buyer–vendor messages page: a list of conversations, the selected one,
 * the draft being typed and the conversation search box.
 */
module Messages {
  import opened Wrappers
  import opened Seqs
  import opened Text

  datatype Sender = Vendor | Buyer

  datatype Message = Message(id: int, content: string, sender: Sender, timestamp: string, read: bool)

  datatype Conversation = Conversation(
    id: int,
    company: string,
    avatar: string,
    lastMessage: string,
    timestamp: string,
    unread: int,
    messages: seq<Message>)

  /** The ids of a conversation's messages, in order. */
  function MessageIds(msgs: seq<Message>): (ids: seq<int>)
    ensures |ids| == |msgs| && forall i :: 0 <= i < |msgs| ==> ids[i] == msgs[i].id
  {
    seq(|msgs|, i requires 0 <= i < |msgs| => msgs[i].id)
  }

  /** No two messages of the list share an id. */
  predicate UniqueIds(msgs: seq<Message>) {
    forall i, j :: 0 <= i < j < |msgs| ==> msgs[i].id != msgs[j].id
  }

  // ---------------------------------------------------------------------------
  // Selecting a conversation marks it read
  // ---------------------------------------------------------------------------

  /** `messages.map(msg => ({ ...msg, read: true }))`. */
  function MarkAllRead(msgs: seq<Message>): (r: seq<Message>)
    ensures |r| == |msgs|
    ensures forall i :: 0 <= i < |r| ==> r[i].read
    ensures forall i :: 0 <= i < |r| ==>
      && r[i].id == msgs[i].id && r[i].content == msgs[i].content
      && r[i].sender == msgs[i].sender && r[i].timestamp == msgs[i].timestamp
    decreases |msgs|
  {
    if msgs == [] then [] else [msgs[0].(read := true)] + MarkAllRead(msgs[1..])
  }

  /** The selected conversation after reading: no unread count, every message read. */
  function MarkRead(c: Conversation): (r: Conversation)
    ensures r.unread == 0 && forall k :: 0 <= k < |r.messages| ==> r.messages[k].read
    ensures MessageIds(r.messages) == MessageIds(c.messages)
    ensures r.(unread := c.unread, messages := c.messages) == c
  {
    var ms := MarkAllRead(c.messages);
    assert forall k :: 0 <= k < |ms| ==> MessageIds(ms)[k] == MessageIds(c.messages)[k];
    c.(unread := 0, messages := ms)
  }

  /** The `conversations.map` of `handleSelectConversation`. */
  function MarkConversationRead(convs: seq<Conversation>, id: int): (r: seq<Conversation>)
    ensures |r| == |convs|
    ensures forall i :: 0 <= i < |r| ==> r[i] == if convs[i].id == id then MarkRead(convs[i]) else convs[i]
    decreases |convs|
  {
    if convs == [] then []
    else [if convs[0].id == id then MarkRead(convs[0]) else convs[0]] + MarkConversationRead(convs[1..], id)
  }

  /** What selecting conversation `id` does to each row, stated field by field. */
  lemma MarkConversationReadEffect(convs: seq<Conversation>, id: int, i: int)
    requires 0 <= i < |convs|
    ensures |MarkConversationRead(convs, id)| == |convs|
    ensures var c, c' := convs[i], MarkConversationRead(convs, id)[i];
      if c.id == id then
        && c'.unread == 0
        && (forall k :: 0 <= k < |c'.messages| ==> c'.messages[k].read)
        && MessageIds(c'.messages) == MessageIds(c.messages)
        && c'.id == c.id && c'.company == c.company && c'.avatar == c.avatar
        && c'.lastMessage == c.lastMessage && c'.timestamp == c.timestamp
      else c' == c
  {
  }

  /** Selecting twice is selecting once. */
  lemma {:induction false} MarkConversationReadIdempotent(convs: seq<Conversation>, id: int)
    ensures MarkConversationRead(MarkConversationRead(convs, id), id) == MarkConversationRead(convs, id)
  {
    var once := MarkConversationRead(convs, id);
    forall i | 0 <= i < |convs|
      ensures MarkConversationRead(once, id)[i] == once[i]
    {
      if convs[i].id == id {
        var ms := MarkAllRead(convs[i].messages);
        assert MarkAllRead(ms) == ms by {
          assert forall k :: 0 <= k < |ms| ==> MarkAllRead(ms)[k] == ms[k];
        }
      }
    }
  }

  // ---------------------------------------------------------------------------
  // The id of a new message
  // ---------------------------------------------------------------------------

  /** The largest element of a non-empty list. */
  function Max(ids: seq<int>): (m: int)
    requires ids != []
    ensures forall i :: 0 <= i < |ids| ==> ids[i] <= m
    ensures exists i :: 0 <= i < |ids| && ids[i] == m
    decreases |ids|
  {
    if |ids| == 1 then ids[0]
    else
      var rest := Max(ids[1..]);
      assert forall i :: 1 <= i < |ids| ==> ids[i] == ids[1..][i - 1];
      if ids[0] >= rest then ids[0] else rest
  }

  /**
   * The id given to a new message: one more than the largest id present, and
   * 1 in a conversation that has no messages yet (see `NextIdAsWritten` for what
   * the page itself computes there).
   */
  function NextId(ids: seq<int>): (r: int)
    ensures forall i :: 0 <= i < |ids| ==> ids[i] < r
    ensures ids != [] ==> exists i :: 0 <= i < |ids| && r == ids[i] + 1
    ensures ids == [] ==> r == 1
  {
    if ids == [] then 1 else Max(ids) + 1
  }

  /** The JavaScript numbers `Math.max(...ids) + 1` can produce from integer ids. */
  datatype JsNumber = Finite(n: int) | NegativeInfinity

  /**
   * `Math.max(...xs)`: `-Infinity` exactly when every argument is (in particular
   * for no arguments), otherwise the largest finite argument.
   */
  function JsMax(xs: seq<JsNumber>): (m: JsNumber)
    ensures m.NegativeInfinity? <==> forall i :: 0 <= i < |xs| ==> xs[i].NegativeInfinity?
    ensures m.Finite? ==> m in xs
    ensures m.Finite? ==> forall i :: 0 <= i < |xs| && xs[i].Finite? ==> xs[i].n <= m.n
    decreases |xs|
  {
    if xs == [] then NegativeInfinity
    else
      var rest := JsMax(xs[1..]);
      assert forall i :: 1 <= i < |xs| ==> xs[i] == xs[1..][i - 1];
      match (xs[0], rest)
      case (NegativeInfinity, _) => rest
      case (_, NegativeInfinity) => xs[0]
      case (Finite(a), Finite(b)) => if a >= b then xs[0] else rest
  }

  function JsPlusOne(x: JsNumber): JsNumber {
    match x
    case Finite(n) => Finite(n + 1)
    case NegativeInfinity => NegativeInfinity
  }

  /**
   * `Math.max(...conv.messages.map(m => m.id)) + 1` exactly as the page
   * computes it: `-Infinity` when there are no finite ids, otherwise a number
   * above every finite id.
   */
  function NextIdAsWritten(ids: seq<JsNumber>): (r: JsNumber)
    ensures r.NegativeInfinity? <==> forall i :: 0 <= i < |ids| ==> ids[i].NegativeInfinity?
    ensures r.Finite? ==> forall i :: 0 <= i < |ids| && ids[i].Finite? ==> ids[i].n < r.n
  {
    JsPlusOne(JsMax(ids))
  }

  function AsJsNumbers(ids: seq<int>): (r: seq<JsNumber>)
    ensures |r| == |ids| && forall i :: 0 <= i < |ids| ==> r[i] == Finite(ids[i])
  {
    seq(|ids|, i requires 0 <= i < |ids| => Finite(ids[i]))
  }

  /** On a conversation that has messages, the page's computation and `NextId` agree. */
  lemma {:induction false} NextIdAsWrittenAgrees(ids: seq<int>)
    requires ids != []
    ensures NextIdAsWritten(AsJsNumbers(ids)) == Finite(NextId(ids))
    decreases |ids|
  {
    JsMaxOfFinite(ids);
  }

  lemma {:induction false} JsMaxOfFinite(ids: seq<int>)
    requires ids != []
    ensures JsMax(AsJsNumbers(ids)) == Finite(Max(ids))
    decreases |ids|
  {
    if |ids| > 1 {
      JsMaxOfFinite(ids[1..]);
      assert AsJsNumbers(ids)[1..] == AsJsNumbers(ids[1..]);
    }
  }

  /**
   * In a conversation without messages the page's id is `-Infinity`, and a
   * second message sent there gets `-Infinity` again: the two ids coincide.
   */
  lemma EmptyConversationIdsCollide()
    ensures NextIdAsWritten([]) == NegativeInfinity
    ensures NextIdAsWritten([NextIdAsWritten([])]) == NextIdAsWritten([])
  {
  }

  // ---------------------------------------------------------------------------
  // Sending a message
  // ---------------------------------------------------------------------------

  /** The conversation after the vendor sends `draft` at time `now`. */
  function AppendVendorMessage(c: Conversation, draft: string, now: string): (r: Conversation)
    ensures |r.messages| == |c.messages| + 1
    ensures r.messages[..|c.messages|] == c.messages
    ensures r.messages[|c.messages|] == Message(NextId(MessageIds(c.messages)), draft, Vendor, now, true)
  {
    var m := Message(NextId(MessageIds(c.messages)), draft, Vendor, now, true);
    c.(lastMessage := draft, timestamp := "Just now", messages := c.messages + [m])
  }

  /** The new message's id exceeds every earlier id, so ids stay unique. */
  lemma AppendKeepsIdsUnique(c: Conversation, draft: string, now: string)
    requires UniqueIds(c.messages)
    ensures UniqueIds(AppendVendorMessage(c, draft, now).messages)
    ensures forall k :: 0 <= k < |c.messages| ==>
      c.messages[k].id < AppendVendorMessage(c, draft, now).messages[|c.messages|].id
  {
  }

  /** The `conversations.map` of `handleSendMessage`. */
  function SendToConversation(convs: seq<Conversation>, id: int, draft: string, now: string): (r: seq<Conversation>)
    ensures |r| == |convs|
    ensures forall i :: 0 <= i < |r| ==>
      r[i] == if convs[i].id == id then AppendVendorMessage(convs[i], draft, now) else convs[i]
    decreases |convs|
  {
    if convs == [] then []
    else
      [if convs[0].id == id then AppendVendorMessage(convs[0], draft, now) else convs[0]]
      + SendToConversation(convs[1..], id, draft, now)
  }

  /** What sending does to each row, stated field by field. */
  lemma SendEffect(convs: seq<Conversation>, id: int, draft: string, now: string, i: int)
    requires 0 <= i < |convs|
    ensures |SendToConversation(convs, id, draft, now)| == |convs|
    ensures var c, c' := convs[i], SendToConversation(convs, id, draft, now)[i];
      if c.id == id then
        && c'.messages == c.messages + [Message(NextId(MessageIds(c.messages)), draft, Vendor, now, true)]
        && c'.lastMessage == draft && c'.timestamp == "Just now"
        && c'.unread == c.unread && c'.id == c.id && c'.company == c.company && c'.avatar == c.avatar
      else c' == c
  {
  }

  /** `conversations.find(c => c.id === id) || null`. */
  function FindById(convs: seq<Conversation>, id: int): (r: Option<Conversation>)
    ensures r.None? <==> forall i :: 0 <= i < |convs| ==> convs[i].id != id
    ensures r.Some? ==> r.value.id == id
    decreases |convs|
  {
    if convs == [] then None
    else if convs[0].id == id then Some(convs[0])
    else
      var r := FindById(convs[1..], id);
      assert forall i :: 1 <= i < |convs| ==> convs[i] == convs[1..][i - 1];
      r
  }

  /** What `find` finds is the first row with the id. */
  lemma {:induction false} FindByIdFirst(convs: seq<Conversation>, id: int)
    requires FindById(convs, id).Some?
    ensures exists i :: 0 <= i < |convs| && convs[i] == FindById(convs, id).value
                     && forall k :: 0 <= k < i ==> convs[k].id != id
    decreases |convs|
  {
    if convs[0].id != id {
      FindByIdFirst(convs[1..], id);
      var i :| 0 <= i < |convs[1..]| && convs[1..][i] == FindById(convs, id).value
               && forall k :: 0 <= k < i ==> convs[1..][k].id != id;
      assert convs[i + 1] == FindById(convs, id).value;
      assert forall k :: 0 <= k < i + 1 ==> convs[k].id != id by {
        forall k | 0 <= k < i + 1 ensures convs[k].id != id {
          if k > 0 { assert convs[k] == convs[1..][k - 1]; }
        }
      }
    }
  }

  /** After a send, the new selection is the first conversation with the id, updated. */
  lemma {:induction false} FindAfterSend(convs: seq<Conversation>, id: int, draft: string, now: string)
    requires FindById(convs, id).Some?
    ensures FindById(SendToConversation(convs, id, draft, now), id)
         == Some(AppendVendorMessage(FindById(convs, id).value, draft, now))
    decreases |convs|
  {
    if convs[0].id != id {
      FindAfterSend(convs[1..], id, draft, now);
    }
  }

  // ---------------------------------------------------------------------------
  // The conversation search
  // ---------------------------------------------------------------------------

  predicate CompanyMatches(c: Conversation, query: string) {
    Includes(Lower(c.company), Lower(query))
  }

  /** `filteredConversations`. */
  function FilterConversations(convs: seq<Conversation>, query: string): (r: seq<Conversation>)
    ensures Subsequence(r, convs)
    ensures forall i :: 0 <= i < |r| ==> CompanyMatches(r[i], query)
    ensures forall c :: multiset(r)[c] == if CompanyMatches(c, query) then multiset(convs)[c] else 0
  {
    Filter(c => CompanyMatches(c, query), convs)
  }

  /** An empty search shows every conversation. */
  lemma EmptySearchShowsAll(convs: seq<Conversation>)
    ensures FilterConversations(convs, "") == convs
  {
    assert forall i :: 0 <= i < |convs| ==> CompanyMatches(convs[i], "");
    FilterKeepsAll(c => CompanyMatches(c, ""), convs);
  }

  // ---------------------------------------------------------------------------
  // The page's state and handlers
  // ---------------------------------------------------------------------------

  class MessagesPage {
    var conversations: seq<Conversation>
    var selected: Option<Conversation>
    var newMessage: string
    var searchQuery: string

    /** The selected conversation, if any, is one of the page's rows (by id). */
    predicate Valid()
      reads this
    {
      selected.Some? ==> FindById(conversations, selected.value.id).Some?
    }

    /** `selectedConversation` starts as `conversations[0]`, absent when there is none. */
    constructor (initial: seq<Conversation>)
      ensures Valid()
      ensures conversations == initial
      ensures selected == if initial == [] then None else Some(initial[0])
      ensures newMessage == "" && searchQuery == ""
    {
      conversations := initial;
      selected := if initial == [] then None else Some(initial[0]);
      newMessage := "";
      searchQuery := "";
    }

    /**
     * `handleSelectConversation`: marks the conversation read and selects it (as passed in).
     * The list only offers rows of `filteredConversations`, hence of `conversations`.
     */
    method SelectConversation(c: Conversation)
      requires Valid() && c in conversations
      modifies this
      ensures Valid()
      ensures conversations == MarkConversationRead(old(conversations), c.id)
      ensures selected == Some(c)
      ensures newMessage == old(newMessage) && searchQuery == old(searchQuery)
    {
      var updated := MarkConversationRead(conversations, c.id);
      ghost var i :| 0 <= i < |conversations| && conversations[i] == c;
      assert updated[i].id == c.id;
      conversations := updated;
      selected := Some(c);
    }

    /** The draft's `onChange`. */
    method SetNewMessage(value: string)
      requires Valid()
      modifies this`newMessage
      ensures Valid()
      ensures newMessage == value
    {
      newMessage := value;
    }

    /** The search box's `onChange`. */
    method SetSearchQuery(value: string)
      requires Valid()
      modifies this`searchQuery
      ensures Valid()
      ensures searchQuery == value
    {
      searchQuery := value;
    }

    /** `if (!newMessage.trim() || !selectedConversation) return;`, negated. */
    predicate CanSend()
      reads this
    {
      Trim(newMessage) != "" && selected.Some?
    }

    /** `handleSendMessage`; `now` stands for `new Date().toISOString()`. */
    method SendMessage(now: string)
      requires Valid()
      modifies this`conversations, this`selected, this`newMessage
      ensures Valid()
      ensures !old(CanSend()) ==>
        && conversations == old(conversations) && selected == old(selected)
        && newMessage == old(newMessage)
      ensures old(CanSend()) ==>
        && conversations == SendToConversation(old(conversations), old(selected).value.id, old(newMessage), now)
        && selected == FindById(conversations, old(selected).value.id)
        && newMessage == ""
      ensures old(CanSend()) ==>
        selected == Some(AppendVendorMessage(FindById(old(conversations), old(selected).value.id).value,
                                             old(newMessage), now))
    {
      if !CanSend() {
        return;
      }
      var id := selected.value.id;
      var updated := SendToConversation(conversations, id, newMessage, now);
      FindAfterSend(conversations, id, newMessage, now);
      var sel := FindById(updated, id);
      assert sel.Some? && sel.value.id == id;
      conversations := updated;
      selected := sel;
      newMessage := "";
    }

    /** The conversations shown in the list. */
    function Filtered(): (r: seq<Conversation>)
      reads this
      ensures Subsequence(r, conversations)
      ensures forall i :: 0 <= i < |r| ==> CompanyMatches(r[i], searchQuery)
    {
      FilterConversations(conversations, searchQuery)
    }
  }
}
