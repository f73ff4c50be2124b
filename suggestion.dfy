/**
 * The suggestion ("slash command") plugin of the rich-input editor:
 * the plugin state transition run on every transaction, the classification
 * of a state change into hook calls, the post-transaction hook, the
 * trigger-tail matching on the text before the cursor, and the JSON
 * projection of a document's top-level children.
 *
 * Transactions are abstracted to the facts the plugin reads from them.
 */
module Suggestion {
  import opened Common

  // ---------------------------------------------------------------------------
  // Plugin state
  // ---------------------------------------------------------------------------

  /** The value of the `match` field (named `matched` here, since `match` is a Dafny keyword):
      `{}` while idle, `{text, cursorPosition}` once a trigger was seen. */
  datatype Match = EmptyMatch | Matched(text: string, cursorPosition: int)

  datatype PluginState = PluginState(active: bool, matched: Match)

  /** `{active: false, match: {}}`, also the initial state. */
  const Inactive := PluginState(false, EmptyMatch)

  /** Meta value the editor tags its own mark transactions with. */
  const EnterStage := "enter"
  const ExitStage := "exit"

  /** A transaction step; for a `ReplaceStep` the text of its inserted slice. */
  datatype Step = ReplaceStep(sliceText: string) | OtherStep

  /** The node just before the cursor, if any, and whether it carries the suggestion mark. */
  datatype NodeBefore = NoNodeBefore | NodeBefore(hasSuggestionMark: bool)

  /** What `apply` reads from a transaction. */
  datatype Transaction = Transaction(
    meta: Option<PluginState>,   // the plugin's own meta, if set
    selectionEmpty: bool,        // the selection is a cursor
    stage: Option<string>,       // the 'suggestion-stage' meta
    docChanged: bool,
    textBeforeCursor: string,    // text of the cursor's parent from its start to the cursor
    steps: seq<Step>,
    cursorPos: int,
    cursorBetweenNodes: bool,    // the cursor's text offset is 0
    nodeBefore: NodeBefore)

  // ---------------------------------------------------------------------------
  // The trigger regular expression `.*\c([^ ]*)$`
  // ---------------------------------------------------------------------------

  /** Characters that `.` does not match in a JavaScript regular expression. */
  predicate LineTerminator(ch: char)
  {
    ch == '\n' || ch == '\r' || ch == '\U{2028}' || ch == '\U{2029}'
  }

  predicate NoSpace(t: string)
  {
    forall k :: 0 <= k < |t| ==> t[k] != ' '
  }

  /** `\c([^ ]*)$` matches with the trigger character at position p. */
  predicate TriggerAt(text: string, c: char, p: nat)
  {
    p < |text| && text[p] == c && NoSpace(text[p + 1..])
  }

  /** Where a greedy `.*` started at s stops: the first line terminator at or after s. */
  function SegmentEnd(text: string, s: nat): (e: nat)
    requires s <= |text|
    ensures s <= e <= |text|
    ensures forall k :: s <= k < e ==> !LineTerminator(text[k])
    ensures e < |text| ==> LineTerminator(text[e])
    decreases |text| - s
  {
    if s == |text| || LineTerminator(text[s]) then s else SegmentEnd(text, s + 1)
  }

  /** Backtracking of the greedy `.*`: tries trigger positions hi-1, hi-2, ..., s. */
  function Backtrack(text: string, c: char, s: nat, hi: nat): (r: Option<nat>)
    requires s <= hi <= |text|
    ensures r.Some? ==> s <= r.value < hi && TriggerAt(text, c, r.value)
    ensures r.Some? ==> forall q :: r.value < q < hi ==> !TriggerAt(text, c, q)
    ensures r.None? ==> forall q :: s <= q < hi ==> !TriggerAt(text, c, q)
    decreases hi - s
  {
    if hi == s then None
    else if TriggerAt(text, c, hi - 1) then Some(hi - 1)
    else Backtrack(text, c, s, hi - 1)
  }

  /** One match attempt starting at s: `.*` covers text[s..p) and the trigger sits at p. */
  function MatchFrom(text: string, c: char, s: nat): Option<nat>
    requires s <= |text|
  {
    var e := SegmentEnd(text, s);
    Backtrack(text, c, s, if e < |text| then e + 1 else |text|)
  }

  /** The regular-expression search: the leftmost start position that matches. */
  function Search(text: string, c: char, s: nat): (r: Option<nat>)
    requires s <= |text|
    ensures r.Some? ==> TriggerAt(text, c, r.value)
    ensures r.None? ==> forall p :: s <= p ==> !TriggerAt(text, c, p)
    decreases |text| - s
  {
    match MatchFrom(text, c, s)
    case Some(p) => Some(p)
    case None => if s == |text| then None else Search(text, c, s + 1)
  }

  /** The first capture group of `text.match(/.*\c([^ ]*)$/)`, or None when it does not match. */
  function TriggerTail(text: string, c: char): (r: Option<string>)
    ensures r.Some? ==> NoSpace(r.value)
    ensures r.Some? ==> exists p :: TriggerAt(text, c, p) && r.value == text[p + 1..]
    ensures r.None? <==> forall p :: !TriggerAt(text, c, p)
  {
    match Search(text, c, 0)
    case Some(p) => Some(text[p + 1..])
    case None => None
  }

  /** Index of the last occurrence of c in s, or -1. */
  function LastIndexOf(s: string, c: char): (i: int)
    ensures -1 <= i < |s|
    ensures i >= 0 ==> s[i] == c && forall k :: i < k < |s| ==> s[k] != c
    ensures i == -1 ==> c !in s
  {
    if s == [] then -1
    else if s[|s| - 1] == c then |s| - 1
    else LastIndexOf(s[..|s| - 1], c)
  }

  /** On text without line terminators the regular expression captures exactly
      the text after the LAST trigger character, and matches only when that
      tail holds no space. */
  lemma TriggerTailIsTextAfterLastTrigger(text: string, c: char)
    requires forall k :: 0 <= k < |text| ==> !LineTerminator(text[k])
    ensures var i := LastIndexOf(text, c);
      TriggerTail(text, c) == if i >= 0 && NoSpace(text[i + 1..]) then Some(text[i + 1..]) else None
  {
    var i := LastIndexOf(text, c);
    if i >= 0 && NoSpace(text[i + 1..]) {
      assert TriggerAt(text, c, i);
      assert SegmentEnd(text, 0) == |text|;
      var r := Backtrack(text, c, 0, |text|);
      assert r.Some?;
      assert r.value == i;
      assert Search(text, c, 0) == Some(i);
    } else {
      forall p: nat ensures !TriggerAt(text, c, p) {
        if i >= 0 && p < |text| && text[p] == c {
          var k :| 0 <= k < |text[i + 1..]| && text[i + 1..][k] == ' ';
          assert p <= i;
          assert text[p + 1..][i - p + k] == ' ';
        }
      }
    }
  }

  // ---------------------------------------------------------------------------
  // state.apply
  // ---------------------------------------------------------------------------

  /** The plugin state after a transaction, given the state before it and the
      trigger character c. */
  function Apply(tr: Transaction, prev: PluginState, c: char): (next: PluginState)
    // the plugin's own meta always wins, verbatim
    ensures tr.meta.Some? ==> next == tr.meta.value
    // a non-empty selection always resets the plugin
    ensures tr.meta.None? && !tr.selectionEmpty ==> next == Inactive
    // from the idle state the plugin activates exactly when all the trigger conditions hold
    ensures tr.meta.None? && tr.selectionEmpty && !prev.active ==>
      (next.active <==>
        && tr.stage != Some(ExitStage)
        && tr.docChanged
        && |tr.textBeforeCursor| > 0
        && tr.textBeforeCursor[|tr.textBeforeCursor| - 1] == c
        && (|tr.textBeforeCursor| == 1 || tr.textBeforeCursor[|tr.textBeforeCursor| - 2] == ' ')
        && tr.steps == [ReplaceStep([c])])
    ensures tr.meta.None? && tr.selectionEmpty && !prev.active ==>
      next == Inactive || next == PluginState(true, Matched("", tr.cursorPos))
    // while active: the editor's own 'enter' transaction leaves the state alone
    ensures tr.meta.None? && tr.selectionEmpty && prev.active && tr.stage == Some(EnterStage) ==> next == prev
    // while active: with the cursor between nodes, a node before it that lacks the suggestion mark
    // (text pasted into a fresh node) resets the plugin
    ensures (tr.meta.None? && tr.selectionEmpty && prev.active && tr.stage != Some(EnterStage)
             && tr.cursorBetweenNodes && !(tr.nodeBefore.NodeBefore? && tr.nodeBefore.hasSuggestionMark)) ==>
      next == Inactive
    // otherwise, while active, the plugin stays active exactly when the trigger expression matches
    ensures (tr.meta.None? && tr.selectionEmpty && prev.active && tr.stage != Some(EnterStage)
             && (!tr.cursorBetweenNodes || (tr.nodeBefore.NodeBefore? && tr.nodeBefore.hasSuggestionMark))) ==>
      (next.active <==> exists p :: TriggerAt(tr.textBeforeCursor, c, p))
    // while active, any other transaction either deactivates or re-matches with a space-free text
    ensures tr.meta.None? && tr.selectionEmpty && prev.active && tr.stage != Some(EnterStage) ==>
      next == Inactive || (next.active && next.matched.Matched? && NoSpace(next.matched.text) && next.matched.cursorPosition == tr.cursorPos)
  {
    var text := tr.textBeforeCursor;
    if tr.meta.Some? then tr.meta.value
    else if !tr.selectionEmpty then Inactive
    else if !prev.active then
      if tr.stage == Some(ExitStage) then Inactive
      else if !tr.docChanged then Inactive
      else if |text| == 0 then Inactive
      else if text[|text| - 1] != c then Inactive
      else if |text| >= 2 && text[|text| - 2] != ' ' then Inactive
      else if |tr.steps| != 1 then Inactive
      else if !tr.steps[0].ReplaceStep? then Inactive
      else if tr.steps[0].sliceText != [c] then Inactive
      else PluginState(true, Matched("", tr.cursorPos))
    else
      if tr.stage == Some(EnterStage) then prev
      else if tr.cursorBetweenNodes && (tr.nodeBefore.NoNodeBefore? || !tr.nodeBefore.hasSuggestionMark) then Inactive
      else match TriggerTail(text, c)
        case None => Inactive
        case Some(tail) => PluginState(true, Matched(tail, tr.cursorPos))
  }

  /** While active, on an ordinary transaction over a single line of text, the
      match text is the text after the last trigger character, and the plugin
      deactivates exactly when that text contains a space. This covers the usual
      case of a cursor at the end of the marked suggestion node as well as a
      cursor inside a text node. */
  lemma ActiveMatchIsTextAfterLastTrigger(tr: Transaction, prev: PluginState, c: char)
    requires tr.meta.None? && tr.selectionEmpty && prev.active && tr.stage != Some(EnterStage)
    requires !tr.cursorBetweenNodes || (tr.nodeBefore.NodeBefore? && tr.nodeBefore.hasSuggestionMark)
    requires forall k :: 0 <= k < |tr.textBeforeCursor| ==> !LineTerminator(tr.textBeforeCursor[k])
    ensures var text := tr.textBeforeCursor;
      var i := LastIndexOf(text, c);
      Apply(tr, prev, c) ==
        if i >= 0 && NoSpace(text[i + 1..]) then PluginState(true, Matched(text[i + 1..], tr.cursorPos))
        else Inactive
  {
    TriggerTailIsTextAfterLastTrigger(tr.textBeforeCursor, c);
  }

  /** Typing "m" after "hello /i": the cursor sits at the end of the marked
      suggestion node, and the match text becomes "im". */
  lemma TypingIntoSuggestionNode(prev: PluginState, pos: int)
    requires prev.active
    ensures var tr := Transaction(None, true, None, true, "hello /im", [ReplaceStep("m")], pos, true, NodeBefore(true));
      Apply(tr, prev, '/') == PluginState(true, Matched("im", pos))
  {
    var tr := Transaction(None, true, None, true, "hello /im", [ReplaceStep("m")], pos, true, NodeBefore(true));
    ActiveMatchIsTextAfterLastTrigger(tr, prev, '/');
    assert LastIndexOf("hello /im", '/') == 6;
    assert "hello /im"[7..] == "im";
  }

  /** The transactions the hooks dispatch do not feed back: the 'exit'-tagged
      mark removal keeps an idle plugin idle, and the 'enter'-tagged mark
      addition keeps an active plugin exactly as it is. */
  lemma HookTransactionsAreQuiet(tr: Transaction, s: PluginState, c: char)
    requires tr.meta.None? && tr.selectionEmpty
    ensures tr.stage == Some(ExitStage) && s == Inactive ==>
      Apply(tr, s, c) == Inactive && UpdateEffects(s, Apply(tr, s, c)) == []
    ensures tr.stage == Some(EnterStage) && s.active ==>
      Apply(tr, s, c) == s && UpdateEffects(s, Apply(tr, s, c)) == []
  {
  }

  // ---------------------------------------------------------------------------
  // view.update
  // ---------------------------------------------------------------------------

  /** `match.cursorPosition` and `match.text`, undefined for `{}`. */
  function CursorOf(m: Match): Option<int>
  {
    if m.Matched? then Some(m.cursorPosition) else None
  }

  function TextOf(m: Match): Option<string>
  {
    if m.Matched? then Some(m.text) else None
  }

  /** The four flags computed from the states before and after a transaction. */
  datatype Transition = Transition(moved: bool, started: bool, stopped: bool, changed: bool)

  function Classify(prev: PluginState, next: PluginState): (t: Transition)
    ensures !(t.started && t.stopped)
    ensures t.changed ==> !t.started && !t.stopped
    ensures t.started || t.stopped <==> prev.active != next.active
    ensures t.moved ==> prev.active && next.active
  {
    var moved := prev.active && next.active && CursorOf(prev.matched) != CursorOf(next.matched);
    var started := !prev.active && next.active;
    var stopped := prev.active && !next.active;
    var changed := !started && !stopped && TextOf(prev.matched) != TextOf(next.matched);
    Transition(moved, started, stopped, changed)
  }

  /** What the update hook does, in order. */
  datatype Effect =
    | RemoveAllSuggestionMarks
    | OnExit(exitMatch: Match)
    | OnChange(changeMatch: Match)
    | AddSuggestionMarkToPreviousCharacter
    | OnEnter(enterMatch: Match)

  function UpdateEffects(prev: PluginState, next: PluginState): (effects: seq<Effect>)
    // at most one of the three reactions happens
    ensures effects == [] || effects == [RemoveAllSuggestionMarks, OnExit(prev.matched)]
      || effects == [OnChange(next.matched)] || effects == [AddSuggestionMarkToPreviousCharacter, OnEnter(next.matched)]
    // stopping: the marks are removed before onExit sees the previous match
    ensures effects == [RemoveAllSuggestionMarks, OnExit(prev.matched)] <==> prev.active && !next.active
    ensures effects == [AddSuggestionMarkToPreviousCharacter, OnEnter(next.matched)] <==> !prev.active && next.active
    ensures effects == [OnChange(next.matched)] <==> prev.active == next.active && TextOf(prev.matched) != TextOf(next.matched)
  {
    var t := Classify(prev, next);
    (if t.stopped then [RemoveAllSuggestionMarks, OnExit(prev.matched)] else [])
    + (if t.changed then [OnChange(next.matched)] else [])
    + (if t.started then [AddSuggestionMarkToPreviousCharacter, OnEnter(next.matched)] else [])
  }

  // ---------------------------------------------------------------------------
  // appendTransaction
  // ---------------------------------------------------------------------------

  /** `undefined`, `false`, or a new transaction that clears the stored marks. */
  datatype Appended = Undefined | NoTransaction | ClearStoredMarks

  /** Given the 'suggestion-stage' meta of each transaction just applied. */
  function AppendTransaction(stages: seq<Option<string>>): (r: Appended)
    ensures r == ClearStoredMarks <==> |stages| == 1 && stages[0] == Some(ExitStage)
    ensures r == Undefined <==> |stages| != 1
  {
    if |stages| != 1 then Undefined
    else if stages[0] != Some(ExitStage) then NoTransaction
    else ClearStoredMarks
  }

  // ---------------------------------------------------------------------------
  // getContentJSON
  // ---------------------------------------------------------------------------

  datatype Mark = Mark(typeName: string, attrs: map<string, string>)

  /** A top-level child of the document: its type name, its text (text nodes only) and its marks. */
  datatype Node = Node(typeName: string, text: Option<string>, marks: seq<Mark>)

  /** `{name, attrs?}`: the `attrs` key is present only when the mark has attributes. */
  datatype MarkJson = MarkJson(name: string, attrs: Option<map<string, string>>)

  /** `{name, text, marks?}`: the `marks` key is present only when the node has marks. */
  datatype NodeJson = NodeJson(name: string, text: Option<string>, marks: Option<seq<MarkJson>>)

  function MarkToJson(m: Mark): (j: MarkJson)
    ensures j.name == m.typeName
    ensures j.attrs.Some? <==> |m.attrs| > 0
  {
    MarkJson(m.typeName, if |m.attrs| > 0 then Some(m.attrs) else None)
  }

  function MarksToJson(ms: seq<Mark>): (js: seq<MarkJson>)
    ensures |js| == |ms|
    ensures forall i :: 0 <= i < |ms| ==> js[i] == MarkToJson(ms[i])
  {
    if ms == [] then [] else [MarkToJson(ms[0])] + MarksToJson(ms[1..])
  }

  function NodeToJson(n: Node): (j: NodeJson)
    ensures j.name == n.typeName && j.text == n.text
    ensures j.marks.Some? <==> |n.marks| > 0
  {
    NodeJson(n.typeName, n.text, if |n.marks| > 0 then Some(MarksToJson(n.marks)) else None)
  }

  /** One entry per child, in order. */
  function ContentJson(children: seq<Node>): (r: seq<NodeJson>)
    ensures |r| == |children|
    ensures forall i :: 0 <= i < |r| ==> r[i].name == children[i].typeName && r[i].text == children[i].text
    ensures forall i :: 0 <= i < |r| ==> (r[i].marks.Some? <==> |children[i].marks| > 0)
  {
    if children == [] then [] else [NodeToJson(children[0])] + ContentJson(children[1..])
  }

  /** Reading the projection back: a missing key stands for an empty list or map. */
  function MarkFromJson(j: MarkJson): Mark
  {
    Mark(j.name, if j.attrs.Some? then j.attrs.value else map[])
  }

  function MarksFromJson(js: seq<MarkJson>): seq<Mark>
  {
    if js == [] then [] else [MarkFromJson(js[0])] + MarksFromJson(js[1..])
  }

  function NodeFromJson(j: NodeJson): Node
  {
    Node(j.name, j.text, if j.marks.Some? then MarksFromJson(j.marks.value) else [])
  }

  function ContentFromJson(js: seq<NodeJson>): seq<Node>
  {
    if js == [] then [] else [NodeFromJson(js[0])] + ContentFromJson(js[1..])
  }

  lemma {:induction false} MarksRoundTrip(ms: seq<Mark>)
    ensures MarksFromJson(MarksToJson(ms)) == ms
  {
    if ms != [] {
      MarksRoundTrip(ms[1..]);
      assert MarkFromJson(MarkToJson(ms[0])) == ms[0];
    }
  }

  /** Dropping absent keys loses nothing: the JSON projection determines the children. */
  lemma {:induction false} ContentJsonRoundTrip(children: seq<Node>)
    ensures ContentFromJson(ContentJson(children)) == children
  {
    if children != [] {
      MarksRoundTrip(children[0].marks);
      ContentJsonRoundTrip(children[1..]);
    }
  }
}
