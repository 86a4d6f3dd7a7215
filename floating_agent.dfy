/**
 * The floating AI assistant: a draggable button that opens a chat panel, the
 * chat's send rule and message rendering, and the preference panel whose
 * categories are toggled in and out of a list.
 */
module FloatingAgent {
  import opened Wrappers
  import opened Strings
  import opened Lists

  // ---------------------------------------------------------------------------
  // Preferences

  datatype EventType = AllTypes | Physical | Virtual
  datatype Language = En | Id

  datatype Preferences = Preferences(categories: seq<string>, eventType: EventType, language: Language)

  const CATEGORIES: seq<string> := ["Music", "Technology", "Sports", "Art", "Hackathon", "Workshop", "Conference"]

  const INITIAL_PREFS := Preferences([], AllTypes, En)

  /** `toggleCategory(cat)`: remove every occurrence when present, append it when absent. */
  function ToggleCategory(categories: seq<string>, cat: string): (r: seq<string>)
    ensures cat !in categories ==> r == categories + [cat]
  {
    if cat in categories then Filter(categories, (c: string) => c != cat) else categories + [cat]
  }

  /** After a toggle the category is selected exactly when it was not; every other category keeps its state. */
  lemma ToggleFlipsOnlyThatCategory(categories: seq<string>, cat: string, other: string)
    requires other != cat
    ensures cat in ToggleCategory(categories, cat) <==> cat !in categories
    ensures other in ToggleCategory(categories, cat) <==> other in categories
  {
    if cat in categories {
      FilterMembership(categories, (c: string) => c != cat, cat);
      FilterMembership(categories, (c: string) => c != cat, other);
    }
  }

  /** Toggling an unselected category twice restores the list. */
  lemma ToggleTwiceRestores(categories: seq<string>, cat: string)
    requires cat !in categories
    ensures ToggleCategory(ToggleCategory(categories, cat), cat) == categories
  {
    var p := (c: string) => c != cat;
    FilterAppend(categories, [cat], p);
    FilterKeepsAll(categories, p);
    assert Filter([cat], p) == [];
  }

  ghost predicate NoDuplicates(s: seq<string>) {
    forall i, j :: 0 <= i < j < |s| ==> s[i] != s[j]
  }

  lemma {:induction false} FilterKeepsNoDuplicates(s: seq<string>, p: string -> bool)
    requires NoDuplicates(s)
    ensures NoDuplicates(Filter(s, p))
    decreases |s|
  {
    if s != [] {
      FilterKeepsNoDuplicates(s[1..], p);
      FilterMembership(s[1..], p, s[0]);
      assert s[0] !in s[1..] by {
        forall k | 0 <= k < |s[1..]| ensures s[1..][k] != s[0] { assert s[1..][k] == s[k + 1]; }
      }
    }
  }

  /** The list starts empty and only ever changes by toggles, so no category is ever listed twice. */
  lemma ToggleKeepsNoDuplicates(categories: seq<string>, cat: string)
    requires NoDuplicates(categories)
    ensures NoDuplicates(ToggleCategory(categories, cat))
  {
    if cat in categories {
      FilterKeepsNoDuplicates(categories, (c: string) => c != cat);
    }
  }

  // ---------------------------------------------------------------------------
  // Messages

  /** A part of a chat message: its `type` and, for a text part, its text. */
  datatype Part = Part(kind: string, text: string)

  /** A chat message: its role and its parts, or (`parts` absent) a plain `content`. */
  datatype ChatMessage = ChatMessage(id: string, role: string, parts: Option<seq<Part>>, content: Option<string>)

  const WELCOME_MESSAGE := ChatMessage("welcome", "assistant",
    Some([Part("text", "Hey! I'm your Flox AI assistant. I can tell you about events, ticket availability, revenue stats, and how the platform works. What's on your mind?")]),
    None)

  predicate IsText(p: Part) { p.kind == "text" }

  /** The texts of the text parts, joined with nothing between them. */
  function JoinTexts(parts: seq<Part>): string
    decreases |parts|
  {
    if parts == [] then "" else (if IsText(parts[0]) then parts[0].text else "") + JoinTexts(parts[1..])
  }

  /** `getMessageText(msg)` */
  function MessageText(msg: ChatMessage): string {
    if msg.parts.Some? then JoinTexts(msg.parts.value) else msg.content.GetOr("")
  }

  lemma {:induction false} JoinTextsAppend(a: seq<Part>, b: seq<Part>)
    ensures JoinTexts(a + b) == JoinTexts(a) + JoinTexts(b)
    decreases |a|
  {
    if a == [] {
      assert a + b == b;
    } else {
      JoinTextsAppend(a[1..], b);
      assert (a + b)[1..] == a[1..] + b;
    }
  }

  /** Only text parts contribute, in their order: dropping the other parts changes nothing. */
  lemma {:induction false} JoinTextsIgnoresOthers(parts: seq<Part>)
    ensures JoinTexts(parts) == JoinTexts(Filter(parts, IsText))
    decreases |parts|
  {
    if parts != [] {
      JoinTextsIgnoresOthers(parts[1..]);
      if IsText(parts[0]) {
        assert Filter(parts, IsText) == [parts[0]] + Filter(parts[1..], IsText);
        JoinTextsAppend([parts[0]], Filter(parts[1..], IsText));
      }
    }
  }

  /** A message with parts is rendered from them alone; one without shows its content, or nothing. */
  lemma MessageTextCases(msg: ChatMessage, p: Part)
    ensures msg.parts.Some? ==> MessageText(msg) == JoinTexts(msg.parts.value)
    ensures msg.parts.None? ==> MessageText(msg) == msg.content.GetOr("")
    ensures MessageText(ChatMessage(msg.id, msg.role, Some([p]), msg.content)) == (if IsText(p) then p.text else "")
    ensures MessageText(ChatMessage(msg.id, msg.role, Some([]), msg.content)) == ""
  {
    var t := if IsText(p) then p.text else "";
    assert [p][1..] == [];
    assert JoinTexts([p]) == t + JoinTexts([]);
    assert t + "" == t;
  }

  /** The list the panel renders: the welcome message, then the chat's messages. */
  function AllMessages(messages: seq<ChatMessage>): (r: seq<ChatMessage>)
    ensures |r| == |messages| + 1 && r[0] == WELCOME_MESSAGE && r[1..] == messages
  {
    [WELCOME_MESSAGE] + messages
  }

  /** The suggestion chips show only before the first message, while nothing is loading. */
  predicate ShowsSuggestions(messages: seq<ChatMessage>, isLoading: bool) {
    |AllMessages(messages)| == 1 && !isLoading
  }

  lemma SuggestionsOnlyBeforeFirstMessage(messages: seq<ChatMessage>, isLoading: bool)
    ensures ShowsSuggestions(messages, isLoading) <==> messages == [] && !isLoading
  {
  }

  /** `status === "streaming" || status === "submitted"` */
  predicate IsLoading(status: string) { status == "streaming" || status == "submitted" }

  /** What `handleSend(text)` would send: the chip's text as it is, or else the trimmed input; `None` when it sends nothing. */
  function SendContent(text: Option<string>, localInput: string, isLoading: bool): (r: Option<string>)
    ensures r.Some? ==> r.value != "" && !isLoading
    ensures text.Some? && text.value != "" && !isLoading ==> r == text
    ensures text.None? && !isLoading && Trim(localInput) != "" ==> r == Some(Trim(localInput))
    ensures isLoading || (text.None? && Trim(localInput) == "") || text == Some("") ==> r.None?
  {
    var content := text.GetOr(Trim(localInput));
    if content == "" || isLoading then None else Some(content)
  }

  /** The send button is disabled exactly when pressing it would send nothing. */
  lemma SendButtonMatchesGuard(localInput: string, isLoading: bool)
    ensures (Trim(localInput) == "" || isLoading) <==> SendContent(None, localInput, isLoading).None?
  {
  }

  // ---------------------------------------------------------------------------
  // Dragging the button

  datatype Point = Point(x: int, y: int)

  /** Where the press happened and where the button was then. */
  datatype DragStart = DragStart(mx: int, my: int, px: int, py: int)

  datatype Drag = Drag(pos: Point, isDragging: bool, dragMoved: bool, start: DragStart, isOpen: bool)

  function Abs(n: int): nat { if n < 0 then -n else n }

  /** The cursor is farther than 3 pixels from the press on one axis. */
  predicate Far(start: DragStart, p: Point) {
    Abs(p.x - start.mx) > 3 || Abs(p.y - start.my) > 3
  }

  /** `onMouseDown` / `onTouchStart` at cursor position `p`. */
  function Press(d: Drag, p: Point): Drag {
    d.(isDragging := true, dragMoved := false, start := DragStart(p.x, p.y, d.pos.x, d.pos.y))
  }

  /** A `mousemove` / `touchmove` at cursor position `p`: ignored unless dragging. */
  function Move(d: Drag, p: Point): Drag {
    if !d.isDragging then d
    else
      var dx := p.x - d.start.mx;
      var dy := p.y - d.start.my;
      d.(dragMoved := d.dragMoved || Far(d.start, p), pos := Point(d.start.px + dx, d.start.py + dy))
  }

  /** `mouseup` / `touchend` */
  function Release(d: Drag): Drag { d.(isDragging := false) }

  /** The button's `onClick`: the panel toggles only if the last press did not move. */
  function Click(d: Drag): Drag { if d.dragMoved then d else d.(isOpen := !d.isOpen) }

  function Moves(d: Drag, pts: seq<Point>): Drag
    decreases |pts|
  {
    if pts == [] then d else Moves(Move(d, pts[0]), pts[1..])
  }

  /**
   * While dragging, the moves keep the press and the panel; the button
   * follows the cursor's displacement from the press, and the drag counts as
   * moved once some point was farther than 3 pixels away.
   */
  lemma {:induction false} MovesFollowCursor(d: Drag, pts: seq<Point>)
    requires d.isDragging
    ensures var r := Moves(d, pts);
      && r.isDragging && r.start == d.start && r.isOpen == d.isOpen
      && (r.dragMoved <==> d.dragMoved || exists k :: 0 <= k < |pts| && Far(d.start, pts[k]))
      && (pts != [] ==> r.pos == Point(d.start.px + pts[|pts| - 1].x - d.start.mx, d.start.py + pts[|pts| - 1].y - d.start.my))
      && (pts == [] ==> r.pos == d.pos)
    decreases |pts|
  {
    if pts != [] {
      var d1 := Move(d, pts[0]);
      MovesFollowCursor(d1, pts[1..]);
      if pts[1..] != [] {
        assert pts[1..][|pts[1..]| - 1] == pts[|pts| - 1];
      }
      if d1.dragMoved || exists k :: 0 <= k < |pts[1..]| && Far(d.start, pts[1..][k]) {
        if !d1.dragMoved {
          var k :| 0 <= k < |pts[1..]| && Far(d.start, pts[1..][k]);
          assert Far(d.start, pts[k + 1]);
        }
      }
      if exists k :: 0 <= k < |pts| && Far(d.start, pts[k]) {
        var k :| 0 <= k < |pts| && Far(d.start, pts[k]);
        if k > 0 {
          assert pts[1..][k - 1] == pts[k];
        }
      }
    }
  }

  /**
   * A press, any moves, a release and the click that follows: the panel
   * toggles exactly when no point of the drag strayed more than 3 pixels
   * from the press.
   */
  lemma ClickAfterDrag(d: Drag, p: Point, pts: seq<Point>)
    ensures var r := Click(Release(Moves(Press(d, p), pts)));
      r.isOpen == (if exists k :: 0 <= k < |pts| && Far(DragStart(p.x, p.y, d.pos.x, d.pos.y), pts[k]) then d.isOpen else !d.isOpen)
      && !r.isDragging
  {
    MovesFollowCursor(Press(d, p), pts);
  }

  // ---------------------------------------------------------------------------
  // The component

  datatype Tab = Chat | PrefsTab

  class AgentWidget {
    var activeTab: Tab
    var localInput: string
    var prefs: Preferences
    var drag: Drag
    /** The texts handed to `sendMessage`, in order. */
    var sent: seq<string>

    constructor ()
      ensures activeTab == Chat && localInput == "" && prefs == INITIAL_PREFS && sent == []
      ensures drag == Drag(Point(0, 0), false, false, DragStart(0, 0, 0, 0), false)
      ensures NoDuplicates(prefs.categories)
    {
      activeTab, localInput, prefs, sent := Chat, "", INITIAL_PREFS, [];
      drag := Drag(Point(0, 0), false, false, DragStart(0, 0, 0, 0), false);
    }

    method SelectTab(tab: Tab)
      modifies this
      ensures activeTab == tab && localInput == old(localInput) && prefs == old(prefs) && drag == old(drag) && sent == old(sent)
    {
      activeTab := tab;
    }

    /** The input's `onChange`. */
    method Type(text: string)
      modifies this
      ensures localInput == text && activeTab == old(activeTab) && prefs == old(prefs) && drag == old(drag) && sent == old(sent)
    {
      localInput := text;
    }

    /** `handleSend(text)`: a suggestion chip passes its text, Enter and the send button pass none. */
    method HandleSend(text: Option<string>, isLoading: bool)
      modifies this
      ensures SendContent(text, old(localInput), isLoading).None? ==> localInput == old(localInput) && sent == old(sent)
      ensures SendContent(text, old(localInput), isLoading).Some? ==>
        localInput == "" && sent == old(sent) + [SendContent(text, old(localInput), isLoading).value]
      ensures activeTab == old(activeTab) && prefs == old(prefs) && drag == old(drag)
    {
      var content := if text.Some? then text.value else Trim(localInput);
      if content == "" || isLoading {
        return;
      }
      sent := sent + [content];
      localInput := "";
    }

    method ToggleCategoryButton(cat: string)
      modifies this
      ensures prefs == old(prefs).(categories := ToggleCategory(old(prefs).categories, cat))
      ensures NoDuplicates(old(prefs.categories)) ==> NoDuplicates(prefs.categories)
      ensures activeTab == old(activeTab) && localInput == old(localInput) && drag == old(drag) && sent == old(sent)
    {
      if NoDuplicates(prefs.categories) {
        ToggleKeepsNoDuplicates(prefs.categories, cat);
      }
      prefs := prefs.(categories := ToggleCategory(prefs.categories, cat));
    }

    method SetEventType(t: EventType)
      modifies this
      ensures prefs == old(prefs).(eventType := t)
      ensures activeTab == old(activeTab) && localInput == old(localInput) && drag == old(drag) && sent == old(sent)
    {
      prefs := prefs.(eventType := t);
    }

    method SetLanguage(l: Language)
      modifies this
      ensures prefs == old(prefs).(language := l)
      ensures activeTab == old(activeTab) && localInput == old(localInput) && drag == old(drag) && sent == old(sent)
    {
      prefs := prefs.(language := l);
    }

    method PressAt(p: Point)
      modifies this
      ensures drag == Press(old(drag), p)
      ensures activeTab == old(activeTab) && localInput == old(localInput) && prefs == old(prefs) && sent == old(sent)
    {
      drag := drag.(isDragging := true, dragMoved := false, start := DragStart(p.x, p.y, drag.pos.x, drag.pos.y));
    }

    method MoveTo(p: Point)
      modifies this
      ensures drag == Move(old(drag), p)
      ensures activeTab == old(activeTab) && localInput == old(localInput) && prefs == old(prefs) && sent == old(sent)
    {
      if !drag.isDragging {
        return;
      }
      var dx := p.x - drag.start.mx;
      var dy := p.y - drag.start.my;
      if Abs(dx) > 3 || Abs(dy) > 3 {
        drag := drag.(dragMoved := true);
      }
      drag := drag.(pos := Point(drag.start.px + dx, drag.start.py + dy));
    }

    method ReleaseButton()
      modifies this
      ensures drag == Release(old(drag))
      ensures activeTab == old(activeTab) && localInput == old(localInput) && prefs == old(prefs) && sent == old(sent)
    {
      drag := drag.(isDragging := false);
    }

    /** The floating button's click. */
    method ClickButton()
      modifies this
      ensures drag == Click(old(drag))
      ensures activeTab == old(activeTab) && localInput == old(localInput) && prefs == old(prefs) && sent == old(sent)
    {
      if !drag.dragMoved {
        drag := drag.(isOpen := !drag.isOpen);
      }
    }

    /** The panel's close button. */
    method ClosePanel()
      modifies this
      ensures drag == old(drag).(isOpen := false)
      ensures activeTab == old(activeTab) && localInput == old(localInput) && prefs == old(prefs) && sent == old(sent)
    {
      drag := drag.(isOpen := false);
    }
  }
}
