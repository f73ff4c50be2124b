/**
 * The text brick's slash-command behaviour. Typing "/" into an empty brick
 * opens a list of brick types; while it is open, the arrow keys, Enter and
 * Escape drive the list instead of the editor. With the list closed, Enter
 * on text such as "/img" turns the brick into that type. The divider type
 * "d" also gets a fresh text brick after it.
 *
 * Every call the brick makes (into the core API, into its base class, into
 * the list, into the DOM event) is appended to an action log. Work that the
 * source defers to a timer is queued and runs when FireTimer is called.
 */
module TextBrick {
  import opened Common

  const DividerTag := "d"
  const CommandsHint := "Type '/' for commands"

  /** Calls the brick makes, in order. */
  datatype Action =
    | TurnBrickInto(brickId: string, newTag: string)    // core API
    | AddBrickAfterBrickId(brickId: string, tag: string) // core API
    | BaseTopKeyPressed                                   // delegated to the base text brick
    | BaseBottomKeyPressed
    | BaseEnterKeyPressed
    | BaseTextChange
    | SuppressKeyEvent                                    // preventDefault + stopPropagation
    | SignalUp                                            // `up$.next()` to the open list
    | SignalDown
    | SignalEnter
    | BlurEditor
    | OpenBricksList
    | CloseBricksList
    | FocusEditor

  /** Work deferred with `setTimeout`. */
  datatype Timer = HideListTimer | FocusEditorTimer

  /** The core-API calls for turning brick id into newTag: a divider is
      followed by a new text brick after it. */
  function TurnIntoCalls(id: string, newTag: string): (calls: seq<Action>)
    ensures 1 <= |calls| <= 2 && calls[0] == TurnBrickInto(id, newTag)
    ensures |calls| == 2 <==> newTag == DividerTag
    ensures |calls| == 2 ==> calls[1] == AddBrickAfterBrickId(id, TextTag)
  {
    [TurnBrickInto(id, newTag)] + if newTag == DividerTag then [AddBrickAfterBrickId(id, TextTag)] else []
  }

  /** The text is a command: "/" followed by a registered brick tag. */
  function IsTag(text: string, registeredTags: set<string>): (b: bool)
    ensures b <==> exists tag :: tag in registeredTags && text == "/" + tag
  {
    if |text| > 0 && text[0] == '/' then
      assert text == "/" + text[1..];
      text[1..] in registeredTags
    else false
  }

  class TextBrickComponent {
    const id: string
    /** Tags the brick registry knows. */
    const registeredTags: set<string>
    /** The brick's current text. */
    var text: string
    /** The bricks list is open (the modal reference is set). */
    var listOpen: bool
    var placeholder: Option<string>
    var log: seq<Action>
    var timers: seq<Timer>

    constructor(id: string, registeredTags: set<string>, text: string)
      ensures this.id == id && this.registeredTags == registeredTags && this.text == text
      ensures !listOpen && placeholder == None && log == [] && timers == []
    {
      this.id := id;
      this.registeredTags := registeredTags;
      this.text := text;
      listOpen := false;
      placeholder := None;
      log := [];
      timers := [];
    }

    method OnBlur()
      modifies this`placeholder
      ensures placeholder == None
    {
      placeholder := None;
    }

    method OnFocus()
      modifies this`placeholder
      ensures placeholder == Some(CommandsHint)
    {
      placeholder := Some(CommandsHint);
    }

    /** Closes the list if it is open; afterwards it is closed either way. */
    method HideBricksList()
      modifies this`listOpen, this`log
      ensures !listOpen
      ensures log == old(log) + if old(listOpen) then [CloseBricksList] else []
    {
      if listOpen {
        log := log + [CloseBricksList];
        listOpen := false;
      }
    }

    /** The list reports the tag the user picked; an empty value is ignored. */
    method SelectedTag(newTag: string)
      modifies this`listOpen, this`log
      ensures newTag == "" ==> listOpen == old(listOpen) && log == old(log)
      ensures newTag != "" ==>
        !listOpen && log == old(log) + (if old(listOpen) then [CloseBricksList] else []) + TurnIntoCalls(id, newTag)
    {
      if newTag != "" {
        HideBricksList();
        log := log + TurnIntoCalls(id, newTag);
      }
    }

    method TopKeyPressed()
      modifies this`log
      ensures log == old(log) + if listOpen then [SuppressKeyEvent, SignalUp] else [BaseTopKeyPressed]
    {
      if listOpen {
        log := log + [SuppressKeyEvent, SignalUp];
      } else {
        log := log + [BaseTopKeyPressed];
      }
    }

    method BottomKeyPressed()
      modifies this`log
      ensures log == old(log) + if listOpen then [SuppressKeyEvent, SignalDown] else [BaseBottomKeyPressed]
    {
      if listOpen {
        log := log + [SuppressKeyEvent, SignalDown];
      } else {
        log := log + [BaseBottomKeyPressed];
      }
    }

    method EnterKeyPressed()
      modifies this`log, this`timers
      ensures listOpen ==> log == old(log) + [SignalEnter] && timers == old(timers) + [HideListTimer]
      ensures !listOpen && IsTag(text, registeredTags) ==>
        log == old(log) + TurnIntoCalls(id, text[1..]) && timers == old(timers)
      ensures !listOpen && !IsTag(text, registeredTags) ==>
        log == old(log) + [BaseEnterKeyPressed] && timers == old(timers)
    {
      if listOpen {
        log := log + [SignalEnter];
        timers := timers + [HideListTimer];
      } else if IsTag(text, registeredTags) {
        var newTag := text[1..];
        log := log + TurnIntoCalls(id, newTag);
      } else {
        log := log + [BaseEnterKeyPressed];
      }
    }

    /** Closes an open list; with the list closed nothing happens. */
    method EscapeKeyPressed()
      modifies this`listOpen, this`log
      ensures !listOpen
      ensures log == old(log) + if old(listOpen) then [SuppressKeyEvent, CloseBricksList] else []
    {
      if listOpen {
        log := log + [SuppressKeyEvent];
        HideBricksList();
      }
    }

    /** The editor's text became newText. */
    method OnTextChange(newText: string)
      modifies this`text, this`listOpen, this`log, this`timers
      ensures text == newText
      ensures old(listOpen) && newText == "" ==>
        !listOpen && log == old(log) + [BaseTextChange, CloseBricksList] && timers == old(timers)
      ensures !old(listOpen) && newText == "/" ==>
        listOpen && log == old(log) + [BaseTextChange, BlurEditor, OpenBricksList]
        && timers == old(timers) + [FocusEditorTimer]
      ensures !(old(listOpen) && newText == "") && !(!old(listOpen) && newText == "/") ==>
        listOpen == old(listOpen) && log == old(log) + [BaseTextChange] && timers == old(timers)
    {
      text := newText;
      log := log + [BaseTextChange];
      if listOpen {
        if |text| == 0 {
          HideBricksList();
        }
      } else if |text| == 1 && text[0] == '/' {
        assert text == "/";
        log := log + [BlurEditor, OpenBricksList];
        listOpen := true;
        timers := timers + [FocusEditorTimer];
      }
    }

    /** The k-th pending timer runs; timers have different delays, so any may run first. */
    method FireTimer(k: nat)
      modifies this`listOpen, this`log, this`timers
      ensures k >= |old(timers)| ==> listOpen == old(listOpen) && log == old(log) && timers == old(timers)
      ensures k < |old(timers)| ==> timers == old(timers)[..k] + old(timers)[k + 1..]
      ensures k < |old(timers)| && old(timers)[k] == HideListTimer ==>
        !listOpen && log == old(log) + if old(listOpen) then [CloseBricksList] else []
      ensures k < |old(timers)| && old(timers)[k] == FocusEditorTimer ==>
        listOpen == old(listOpen) && log == old(log) + [FocusEditor]
    {
      if k < |timers| {
        var t := timers[k];
        timers := timers[..k] + timers[k + 1..];
        match t
        case HideListTimer => HideBricksList();
        case FocusEditorTimer => log := log + [FocusEditor];
      }
    }
  }
}
