/**
 * The rename controller of the chat-history panel
 * (src/components/ChatHistoryPanel.tsx): which conversation is being renamed,
 * the title typed so far, and the callbacks the panel fires at its owner.
 */
module HistoryPanel {
  import opened Wrappers
  import Messages

  /** A saved conversation as the panel lists it. */
  datatype Conversation = Conversation(id: string, title: string, chatflowid: string,
                                       chatHistory: seq<Messages.Message>, createdAt: string, updatedAt: string)

  /** A call of one of the panel's callbacks. */
  datatype Callback =
    | EditChatTitle(conversationId: string, newTitle: string)
    | SelectChat(conversationId: string)

  // ---------------------------------------------------------------------------
  // `String.prototype.trim`
  // ---------------------------------------------------------------------------

  /** ECMAScript WhiteSpace and LineTerminator code points: what `trim` removes. */
  predicate IsJsWhitespace(c: char)
  {
    var n := c as int;
    // TAB, LF, VT, FF, CR
    (0x09 <= n <= 0x0D) ||
    // SPACE, NO-BREAK SPACE, OGHAM SPACE MARK
    n == 0x20 || n == 0xA0 || n == 0x1680 ||
    // EN QUAD .. HAIR SPACE, LINE SEPARATOR, PARAGRAPH SEPARATOR
    (0x2000 <= n <= 0x200A) || n == 0x2028 || n == 0x2029 ||
    // NARROW NO-BREAK SPACE, MEDIUM MATHEMATICAL SPACE, IDEOGRAPHIC SPACE, BYTE ORDER MARK
    n == 0x202F || n == 0x205F || n == 0x3000 || n == 0xFEFF
  }

  /** Every character of `s` is one `trim` removes. */
  predicate AllWhitespace(s: string)
  {
    forall i :: 0 <= i < |s| ==> IsJsWhitespace(s[i])
  }

  /** `s` without its leading whitespace. */
  function TrimStart(s: string): (r: string)
    ensures |r| <= |s| && r == s[|s| - |r|..]
    ensures forall i :: 0 <= i < |s| - |r| ==> IsJsWhitespace(s[i])
    ensures r != [] ==> !IsJsWhitespace(r[0])
  {
    if s != [] && IsJsWhitespace(s[0]) then TrimStart(s[1..]) else s
  }

  /** `s` without its trailing whitespace. */
  function TrimEnd(s: string): (r: string)
    ensures |r| <= |s| && r == s[..|r|]
    ensures forall i :: |r| <= i < |s| ==> IsJsWhitespace(s[i])
    ensures r != [] ==> !IsJsWhitespace(r[|r| - 1])
  {
    if s != [] && IsJsWhitespace(s[|s| - 1]) then TrimEnd(s[..|s| - 1]) else s
  }

  /** `s.trim()`: a stretch of `s` that neither starts nor ends with whitespace. */
  function Trim(s: string): (r: string)
    ensures |r| <= |s|
    ensures r != [] ==> !IsJsWhitespace(r[0]) && !IsJsWhitespace(r[|r| - 1])
  {
    TrimEnd(TrimStart(s))
  }

  /** A string trims to nothing exactly when it is all whitespace. */
  lemma TrimBlank(s: string)
    ensures Trim(s) == "" <==> AllWhitespace(s)
  {
    var t := TrimStart(s);
    if Trim(s) == "" {
      assert t == [];
      forall i | 0 <= i < |s| ensures IsJsWhitespace(s[i]) {
      }
    }
  }

  /** Leading whitespace in front of a string that does not start with any is skipped. */
  lemma {:induction false} TrimStartSkips(p: string, x: string)
    requires AllWhitespace(p)
    requires x == [] || !IsJsWhitespace(x[0])
    ensures TrimStart(p + x) == x
    decreases |p|
  {
    if p == [] {
      assert p + x == x;
    } else {
      assert (p + x)[0] == p[0];
      assert (p + x)[1..] == p[1..] + x;
      TrimStartSkips(p[1..], x);
    }
  }

  /** Trailing whitespace behind a string that does not end with any is dropped. */
  lemma {:induction false} TrimEndSkips(x: string, q: string)
    requires AllWhitespace(q)
    requires x == [] || !IsJsWhitespace(x[|x| - 1])
    ensures TrimEnd(x + q) == x
    decreases |q|
  {
    if q == [] {
      assert x + q == x;
    } else {
      assert (x + q)[|x + q| - 1] == q[|q| - 1];
      assert (x + q)[..|x + q| - 1] == x + q[..|q| - 1];
      TrimEndSkips(x, q[..|q| - 1]);
    }
  }

  /**
   * `trim` is exactly "drop the whitespace at both ends": whatever sits
   * between a whitespace prefix and a whitespace suffix, and itself neither
   * starts nor ends with whitespace, is what comes back.
   */
  lemma TrimCharacterised(p: string, m: string, q: string)
    requires AllWhitespace(p) && AllWhitespace(q)
    requires m == [] || (!IsJsWhitespace(m[0]) && !IsJsWhitespace(m[|m| - 1]))
    ensures Trim(p + m + q) == m
  {
    if m == [] {
      assert p + m + q == p + q;
      TrimBlank(p + q);
    } else {
      assert p + m + q == p + (m + q);
      TrimStartSkips(p, m + q);
      TrimEndSkips(m, q);
    }
  }

  /** Trimming twice is trimming once. */
  lemma TrimIdempotent(s: string)
    ensures Trim(Trim(s)) == Trim(s)
  {
    var r := Trim(s);
    if r != [] {
      assert TrimStart(r) == r;
      assert TrimEnd(r) == r;
    }
  }

  /**
   * What saving an edited title does: nothing for a blank title, otherwise
   * the trimmed title is what the owner is told.
   */
  function SavedTitle(editTitle: string): (r: Option<string>)
    ensures r.None? <==> AllWhitespace(editTitle)
    ensures r.Some? ==> r.value == Trim(editTitle) && r.value != ""
  {
    TrimBlank(editTitle);
    if Trim(editTitle) != "" then Some(Trim(editTitle)) else None
  }

  // ---------------------------------------------------------------------------
  // The panel's state
  // ---------------------------------------------------------------------------

  class Panel {
    /** The id of the conversation being renamed (`null` when none). */
    var editingId: Option<string>
    var editTitle: string
    /** The callbacks fired so far, oldest first. */
    var emitted: seq<Callback>

    constructor ()
      ensures editingId == None && editTitle == "" && emitted == []
    {
      editingId := None;
      editTitle := "";
      emitted := [];
    }

    /** `handleEditClick(conversation)`. */
    method HandleEditClick(c: Conversation)
      modifies this`editingId, this`editTitle
      ensures editingId == Some(c.id) && editTitle == c.title
    {
      editingId := Some(c.id);
      editTitle := c.title;
    }

    /** The title input's `onInput`: the typed value becomes the edited title. */
    method HandleTitleInput(value: string)
      modifies this`editTitle
      ensures editTitle == value
    {
      editTitle := value;
    }

    /**
     * `handleSaveEdit(conversationId)`: a blank title changes nothing; any
     * other fires `onEditChatTitle` once with the trimmed title and ends the
     * edit.
     */
    method HandleSaveEdit(conversationId: string)
      modifies this`editingId, this`editTitle, this`emitted
      ensures SavedTitle(old(editTitle)).None? ==>
        editingId == old(editingId) && editTitle == old(editTitle) && emitted == old(emitted)
      ensures SavedTitle(old(editTitle)).Some? ==>
        && emitted == old(emitted) + [EditChatTitle(conversationId, SavedTitle(old(editTitle)).value)]
        && editingId == None && editTitle == ""
    {
      if Trim(editTitle) != "" {
        emitted := emitted + [EditChatTitle(conversationId, Trim(editTitle))];
        editingId := None;
        editTitle := "";
      }
    }

    /** `handleCancelEdit`: ends the edit whatever the state. */
    method HandleCancelEdit()
      modifies this`editingId, this`editTitle
      ensures editingId == None && editTitle == ""
    {
      editingId := None;
      editTitle := "";
    }

    /** A click on a row selects its conversation unless that row is being renamed. */
    method HandleRowClick(conversationId: string)
      modifies this`emitted
      ensures editingId != Some(conversationId) ==> emitted == old(emitted) + [SelectChat(conversationId)]
      ensures editingId == Some(conversationId) ==> emitted == old(emitted)
    {
      if editingId != Some(conversationId) {
        emitted := emitted + [SelectChat(conversationId)];
      }
    }
  }
}
