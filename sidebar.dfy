/**
 * The sidebar's conversation list (src/components/layout/Sidebar.tsx): a list
 * of id/title entries, a new-chat action whose id is derived from the list
 * length, rename by id, delete by id, and the bookkeeping of the entry being
 * renamed.
 */
module Sidebar {
  import opened Wrappers

  datatype Conversation = Conversation(id: string, title: string)

  // ---------------------------------------------------------------------------
  // Decimal numerals (`String(n)` on a non-negative integer)
  // ---------------------------------------------------------------------------

  predicate IsDigit(c: char)
  {
    '0' <= c <= '9'
  }

  function DigitChar(d: nat): (c: char)
    requires d < 10
    ensures IsDigit(c)
  {
    (('0' as int) + d) as char
  }

  /** The decimal numeral of `n`, without leading zeros. */
  function DecimalString(n: nat): (s: string)
    ensures s != []
    ensures forall i :: 0 <= i < |s| ==> IsDigit(s[i])
    ensures s[0] == '0' ==> n == 0
    decreases n
  {
    if n < 10 then [DigitChar(n)] else DecimalString(n / 10) + [DigitChar(n % 10)]
  }

  /** The number a string of digits denotes. */
  function DecimalValue(s: string): nat
    requires forall i :: 0 <= i < |s| ==> IsDigit(s[i])
  {
    if s == [] then 0
    else
      assert IsDigit(s[|s| - 1]);
      DecimalValue(s[..|s| - 1]) * 10 + ((s[|s| - 1] as int) - ('0' as int))
  }

  lemma {:induction false} DecimalRoundTrip(n: nat)
    ensures DecimalValue(DecimalString(n)) == n
    decreases n
  {
    var s := DecimalString(n);
    if n >= 10 {
      DecimalRoundTrip(n / 10);
      assert s[..|s| - 1] == DecimalString(n / 10);
    }
  }

  /** Different lengths give different ids. */
  lemma DecimalStringInjective(m: nat, n: nat)
    ensures DecimalString(m) == DecimalString(n) ==> m == n
  {
    DecimalRoundTrip(m);
    DecimalRoundTrip(n);
  }

  // ---------------------------------------------------------------------------
  // The list operations
  // ---------------------------------------------------------------------------

  /** The list the sidebar starts with. */
  function InitialConversations(): (r: seq<Conversation>)
    ensures |r| == 3
    ensures forall i :: 0 <= i < |r| ==> r[i].id == DecimalString(i + 1)
  {
    [Conversation("1", "New Chat 1"), Conversation("2", "Flowise AI"), Conversation("3", "SolidJS Help")]
  }

  lemma InitialIds()
    ensures |InitialConversations()| == 3
    ensures InitialConversations()[0].id == "1" && InitialConversations()[1].id == "2" && InitialConversations()[2].id == "3"
  {
  }

  /** The entry `handleNewChat` adds to a list of `count` entries. */
  function NewChatEntry(count: nat): (c: Conversation)
    ensures c.id == DecimalString(count + 1)
    ensures c.title == "New Chat " + c.id
  {
    var id := DecimalString(count + 1);
    Conversation(id, "New Chat " + id)
  }

  /** `[{ id: newId, title: 'New Chat ' + newId }, ...conversations]`. */
  function WithNewChat(convs: seq<Conversation>): (r: seq<Conversation>)
    ensures |r| == |convs| + 1
    ensures r[0] == NewChatEntry(|convs|)
    ensures r[1..] == convs
  {
    [NewChatEntry(|convs|)] + convs
  }

  /** The new id is a function of the length alone: lists of equal length get the same new id. */
  lemma NewChatIdDependsOnLengthOnly(a: seq<Conversation>, b: seq<Conversation>)
    ensures WithNewChat(a)[0].id == WithNewChat(b)[0].id <==> |a| == |b|
  {
    DecimalStringInjective(|a| + 1, |b| + 1);
  }

  /**
   * The new id is not checked against the list: after deleting the first
   * entry of the initial list, a new chat gets the id "3", which the list
   * still holds.
   */
  lemma NewChatIdCanRepeat()
    ensures var after := Without(InitialConversations(), "1");
      |after| == 2 && after[1].id == "3" && WithNewChat(after)[0].id == "3"
  {
    assert DecimalString(3) == "3";
  }

  /** `conversations.map(conv => conv.id === id ? { ...conv, title } : conv)`. */
  function Renamed(convs: seq<Conversation>, id: string, title: string): (r: seq<Conversation>)
    ensures |r| == |convs|
    ensures forall i :: 0 <= i < |r| ==> r[i].id == convs[i].id
    ensures forall i :: 0 <= i < |r| ==> r[i].title == (if convs[i].id == id then title else convs[i].title)
  {
    if convs == [] then []
    else [if convs[0].id == id then convs[0].(title := title) else convs[0]] + Renamed(convs[1..], id, title)
  }

  /** How many entries carry the id. */
  function Count(convs: seq<Conversation>, id: string): nat
  {
    if convs == [] then 0 else (if convs[0].id == id then 1 else 0) + Count(convs[1..], id)
  }

  /** `conversations.filter(conv => conv.id !== id)`. */
  function Without(convs: seq<Conversation>, id: string): (r: seq<Conversation>)
    ensures |r| + Count(convs, id) == |convs|
    ensures forall c :: c in r <==> c in convs && c.id != id
  {
    if convs == [] then []
    else if convs[0].id == id then Without(convs[1..], id)
    else [convs[0]] + Without(convs[1..], id)
  }

  /**
   * Deleting works piece by piece: the entries of a concatenation that
   * survive are the survivors of each part, in the same order.
   */
  lemma {:induction false} WithoutSplits(a: seq<Conversation>, b: seq<Conversation>, id: string)
    ensures Without(a + b, id) == Without(a, id) + Without(b, id)
  {
    if a == [] {
      assert a + b == b;
    } else {
      var ab := a + b;
      assert ab[0] == a[0] && ab[1..] == a[1..] + b;
      WithoutSplits(a[1..], b, id);
      if a[0].id == id {
        assert Without(ab, id) == Without(a[1..] + b, id);
      } else {
        assert Without(ab, id) == [a[0]] + Without(a[1..] + b, id);
        assert [a[0]] + (Without(a[1..], id) + Without(b, id)) == ([a[0]] + Without(a[1..], id)) + Without(b, id);
      }
    }
  }

  /** A list with no entry of that id is left as it is. */
  lemma {:induction false} WithoutAbsent(convs: seq<Conversation>, id: string)
    requires forall i :: 0 <= i < |convs| ==> convs[i].id != id
    ensures Without(convs, id) == convs
  {
    if convs != [] {
      WithoutAbsent(convs[1..], id);
    }
  }

  // ---------------------------------------------------------------------------
  // The sidebar's state
  // ---------------------------------------------------------------------------

  class SidebarState {
    var conversations: seq<Conversation>
    /** The id of the entry being renamed (`null` when none). */
    var editingId: Option<string>
    var editTitle: string

    constructor ()
      ensures conversations == InitialConversations()
      ensures editingId == None && editTitle == ""
    {
      conversations := InitialConversations();
      editingId := None;
      editTitle := "";
    }

    /** `handleNewChat`. */
    method HandleNewChat()
      modifies this`conversations
      ensures conversations == WithNewChat(old(conversations))
    {
      var newId := DecimalString(|conversations| + 1);
      conversations := [Conversation(newId, "New Chat " + newId)] + conversations;
    }

    /** `startEditing(id, currentTitle)`: the list itself is not touched. */
    method StartEditing(id: string, currentTitle: string)
      modifies this`editingId, this`editTitle
      ensures editingId == Some(id) && editTitle == currentTitle
    {
      editingId := Some(id);
      editTitle := currentTitle;
    }

    /** `saveEdit(id)`: every entry with the id takes the edited title, then editing ends. */
    method SaveEdit(id: string)
      modifies this`conversations, this`editingId, this`editTitle
      ensures conversations == Renamed(old(conversations), id, old(editTitle))
      ensures editingId == None && editTitle == ""
    {
      conversations := Renamed(conversations, id, editTitle);
      editingId := None;
      editTitle := "";
    }

    /** `deleteConversation(id)`: the edit state is left as it is. */
    method DeleteConversation(id: string)
      modifies this`conversations
      ensures conversations == Without(old(conversations), id)
    {
      conversations := Without(conversations, id);
    }
  }
}
