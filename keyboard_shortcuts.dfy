/** Keyboard shortcuts: a keydown event is tried against a list of shortcuts
    in order, and the first one that is eligible for the focused element and
    matches the event's key and modifiers fires; at most one fires. The save
    and copy shortcuts gate their own actions. */
module KeyboardShortcuts {
  import opened Seqs
  import opened Text

  /** What a shortcut does once it fires. */
  datatype ShortcutAction = Save | Escape | CopyCode | Navigate(path: string) | ShowHelp

  /** A shortcut; an omitted modifier flag reads as false. */
  datatype Shortcut = Shortcut(key: string, ctrl: bool, alt: bool, shift: bool, description: string, action: ShortcutAction)

  /** The element the event was dispatched to. */
  datatype Target = Target(tagName: string, isContentEditable: bool)

  datatype KeyEvent = KeyEvent(key: string, ctrlKey: bool, metaKey: bool, altKey: bool, shiftKey: bool, target: Target)

  /** What the caller's callbacks do, as far as the model can see it. */
  datatype Effect = SaveCalled | EscapeCalled | ClipboardWritten(text: string) | Toast(title: string) | NavigatedTo(path: string)

  /** The state the actions read: the `enabled` flag of the save shortcut and
      the text the copy shortcut would copy. */
  datatype Environment = Environment(saveEnabled: bool, copyText: string)

  /** Typing in an input, a textarea or an editable element. */
  predicate IsInput(t: Target)
  {
    t.tagName == "INPUT" || t.tagName == "TEXTAREA" || t.isContentEditable
  }

  /** While typing, only an Escape shortcut is considered. */
  predicate Eligible(e: KeyEvent, s: Shortcut)
  {
    !IsInput(e.target) || ToLower(s.key) == "escape"
  }

  /** With `ctrl` set, either Control or Meta must be down; without it,
      both must be up. */
  predicate CtrlMatch(e: KeyEvent, s: Shortcut)
  {
    if s.ctrl then e.ctrlKey || e.metaKey else !e.ctrlKey && !e.metaKey
  }

  predicate Matches(e: KeyEvent, s: Shortcut)
  {
    CtrlMatch(e, s) && (e.altKey == s.alt) && (e.shiftKey == s.shift) && ToLower(e.key) == ToLower(s.key)
  }

  predicate Fires(e: KeyEvent, s: Shortcut)
  {
    Eligible(e, s) && Matches(e, s)
  }

  /** The position of the shortcut that fires for `e`, if any: the first
      eligible full match. */
  function FirstMatch(e: KeyEvent, shortcuts: seq<Shortcut>): (r: Option<nat>)
    ensures r.None? <==> forall j :: 0 <= j < |shortcuts| ==> !Fires(e, shortcuts[j])
    ensures r.Some? ==> r.value < |shortcuts| && Fires(e, shortcuts[r.value]) &&
                          forall j :: 0 <= j < r.value ==> !Fires(e, shortcuts[j])
  {
    if shortcuts == [] then None
    else if Fires(e, shortcuts[0]) then Some(0)
    else
      match FirstMatch(e, shortcuts[1..])
      case None => None
      case Some(i) => Some(i + 1)
  }

  /** The effects of an action: save only when enabled, copy only a
      non-empty text. */
  function ActionEffects(a: ShortcutAction, env: Environment): (r: seq<Effect>)
    ensures a == Save ==> (r == [SaveCalled] <==> env.saveEnabled) && (r == [] <==> !env.saveEnabled)
    ensures a == CopyCode ==> (r == [] <==> env.copyText == "")
    ensures a == CopyCode && env.copyText != "" ==> ClipboardWritten(env.copyText) in r
  {
    match a
    case Save => if env.saveEnabled then [SaveCalled] else []
    case Escape => [EscapeCalled]
    case CopyCode => if env.copyText != "" then [ClipboardWritten(env.copyText), Toast("Copied to clipboard")] else []
    case Navigate(path) => [NavigatedTo(path)]
    case ShowHelp => [Toast("Keyboard Shortcuts")]
  }

  /** handleKeyDown: the shortcuts are tried in order, an ineligible one is
      skipped, and the loop stops at the first match after running its
      action. `fired` is the matched position; the event's default is
      prevented exactly when it is present. */
  method HandleKeyDown(e: KeyEvent, shortcuts: seq<Shortcut>, env: Environment)
    returns (fired: Option<nat>, effects: seq<Effect>)
    ensures fired == FirstMatch(e, shortcuts)
    ensures fired.None? ==> effects == []
    ensures fired.Some? ==> effects == ActionEffects(shortcuts[fired.value].action, env)
  {
    var isInput := IsInput(e.target);
    fired, effects := None, [];
    for i := 0 to |shortcuts|
      invariant fired.None? && effects == []
      invariant forall j :: 0 <= j < i ==> !Fires(e, shortcuts[j])
    {
      var shortcut := shortcuts[i];
      if isInput && ToLower(shortcut.key) != "escape" {
        continue;
      }
      var ctrlMatch := if shortcut.ctrl then e.ctrlKey || e.metaKey else !e.ctrlKey && !e.metaKey;
      var altMatch := if shortcut.alt then e.altKey else !e.altKey;
      var shiftMatch := if shortcut.shift then e.shiftKey else !e.shiftKey;
      var keyMatch := ToLower(e.key) == ToLower(shortcut.key);
      if ctrlMatch && altMatch && shiftMatch && keyMatch {
        fired := Some(i);
        effects := ActionEffects(shortcut.action, env);
        FirstMatchAt(e, shortcuts, i);
        return;
      }
    }
  }

  /** The first eligible match is exactly the position the function
      returns. */
  lemma FirstMatchAt(e: KeyEvent, shortcuts: seq<Shortcut>, i: nat)
    ensures FirstMatch(e, shortcuts) == Some(i) <==>
              i < |shortcuts| && Fires(e, shortcuts[i]) && forall j :: 0 <= j < i ==> !Fires(e, shortcuts[j])
  {
  }

  /** While typing, what fires is an Escape shortcut. */
  lemma TypingOnlyEscape(e: KeyEvent, shortcuts: seq<Shortcut>)
    requires IsInput(e.target)
    ensures FirstMatch(e, shortcuts).Some? ==> ToLower(shortcuts[FirstMatch(e, shortcuts).value].key) == "escape"
  {
  }

  /** The letter case of the pressed key and of the shortcut's key is
      irrelevant. */
  lemma KeyCaseIgnored(e: KeyEvent, s: Shortcut)
    ensures Fires(e, s) <==> Fires(e.(key := ToLower(e.key)), s.(key := ToLower(s.key)))
  {
    ToLowerIdempotent(e.key);
    ToLowerIdempotent(s.key);
  }

  /** A shortcut with modifiers never fires on the bare key, and a shortcut
      without them never fires while one is held. */
  lemma ModifiersExact(e: KeyEvent, s: Shortcut)
    requires Fires(e, s)
    ensures s.ctrl <==> e.ctrlKey || e.metaKey
    ensures s.alt == e.altKey && s.shift == e.shiftKey
  {
  }

  // ---------------------------------------------------------------------
  // The registered shortcut lists

  function SaveShortcut(): Shortcut
  {
    Shortcut("s", true, false, false, "Save", Save)
  }

  function EscapeShortcut(): Shortcut
  {
    Shortcut("Escape", false, false, false, "Close", Escape)
  }

  function CopyShortcut(): Shortcut
  {
    Shortcut("c", true, false, true, "Copy code", CopyCode)
  }

  function GlobalShortcuts(): (r: seq<Shortcut>)
    ensures |r| == 6
  {
    [ Shortcut("g", true, false, false, "Go to Generator", Navigate("/generator")),
      Shortcut("m", true, false, false, "Go to Mapper", Navigate("/mapper")),
      Shortcut("d", true, false, true, "Go to Dashboard", Navigate("/")),
      Shortcut("s", true, false, true, "Go to Settings", Navigate("/settings")),
      Shortcut("e", true, false, false, "Go to Explorer", Navigate("/explorer")),
      Shortcut("/", true, false, false, "Show shortcuts help", ShowHelp) ]
  }

  /** Ctrl+S outside an input. */
  function CtrlS(meta: bool): KeyEvent
  {
    KeyEvent("S", !meta, meta, false, false, Target("DIV", false))
  }

  /** The save shortcut answers Ctrl+S or Cmd+S in either case, but calls
      the save callback only while enabled; inside an input it does not
      fire at all. */
  lemma SaveGated(env: Environment, meta: bool)
    ensures FirstMatch(CtrlS(meta), [SaveShortcut()]) == Some(0)
    ensures ActionEffects(SaveShortcut().action, env) == [SaveCalled] <==> env.saveEnabled
    ensures FirstMatch(CtrlS(meta).(target := Target("INPUT", false)), [SaveShortcut()]).None?
  {
    assert ToLower("S") == "s";
    assert ToLower("s") == "s";
    assert ToLower("s") != "escape";
  }

  /** Ctrl+Shift+C fires the copy shortcut, which copies nothing when the
      text is empty. */
  lemma CopyGated(env: Environment)
    ensures FirstMatch(KeyEvent("c", true, false, false, true, Target("PRE", false)), [CopyShortcut()]) == Some(0)
    ensures ActionEffects(CopyShortcut().action, env) == [] <==> env.copyText == ""
  {
    assert ToLower("c") == "c";
  }

  /** Escape still fires while typing in a text field. */
  lemma EscapeWhileTyping()
    ensures FirstMatch(KeyEvent("Escape", false, false, false, false, Target("TEXTAREA", false)), [EscapeShortcut()]) == Some(0)
  {
    assert ToLower("Escape") == "escape";
  }

  /** No two global shortcuts can match the same event: their keys differ,
      so the first-match rule never has to choose between them. */
  lemma GlobalShortcutsDisjoint(e: KeyEvent, i: nat, j: nat)
    requires i < j < 6
    ensures !(Matches(e, GlobalShortcuts()[i]) && Matches(e, GlobalShortcuts()[j]))
  {
    var keys := ["g", "m", "d", "s", "e", "/"];
    assert forall k :: 0 <= k < 6 ==> GlobalShortcuts()[k].key == keys[k];
    assert forall k :: 0 <= k < 6 ==> ToLower(keys[k]) == keys[k];
    assert keys[i] != keys[j];
  }
}
