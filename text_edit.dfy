/** The index arithmetic of Keyboard._AddText: how one text (or the backspace
    sentinel) is spliced into a text buffer around its selection. */
module TextEdit {
  import opened KeyConfigs

  function Min(a: int, b: int): int { if a < b then a else b }

  function Max(a: int, b: int): int { if a < b then b else a }

  /** The two values _AddText writes back: the new text and the raw caret. */
  datatype Edit = Edit(text: string, caret: int)

  /** The selection ends must lie within the text, as `Substring` demands. */
  predicate SelectionInText(text: string, anchor: int, focus: int)
  {
    0 <= Min(anchor, focus) && Max(anchor, focus) <= |text|
  }

  /** _AddText written as the source computes it, with `Max(.., 0)` guards and all.
      Its contract states the same computation case by case. */
  function AddText(text: string, anchor: int, focus: int, pText: string): (e: Edit)
    requires SelectionInText(text, anchor, focus)
    ensures var lo, hi := Min(anchor, focus), Max(anchor, focus);
      && (pText != BackspaceText ==>
            e.text == text[..lo] + pText + text[hi..] && e.caret == lo + 1)
      && (pText == BackspaceText && lo < hi ==>
            e.text == text[..lo] + text[hi..] && e.caret == lo)
      && (pText == BackspaceText && lo == hi && 0 < lo ==>
            e.text == text[..lo - 1] + text[lo..] &&
            e.caret == if lo == |text| then lo else lo - 1)
      && (pText == BackspaceText && lo == hi == 0 ==>
            e.text == text && e.caret == 0)
    ensures 0 <= e.caret
  {
    var isBackspace := pText == BackspaceText;
    var inserted := if isBackspace then "" else pText;
    var caretStart := Min(anchor, focus);
    var caretEnd := Max(anchor, focus);
    // The source calls this flag `isSelection`; it holds when the selection is empty.
    var collapsed := caretStart == caretEnd;
    var newText := text[..Max(caretStart - (if isBackspace && collapsed then 1 else 0), 0)]
                   + inserted + text[caretEnd..];
    var caret :=
      if isBackspace then Max(if caretStart > |newText| || !collapsed then caretStart else caretStart - 1, 0)
      else caretStart + 1;
    Edit(newText, caret)
  }

  /** Typing one character and then pressing backspace at the caret the first
      edit left removes the selection and nothing else. The caret lands on the
      selection start, except at the end of the text, where it stays one past it. */
  lemma BackspaceUndoesTyping(text: string, anchor: int, focus: int, c: char)
    requires SelectionInText(text, anchor, focus)
    requires [c] != BackspaceText
    ensures var lo, hi := Min(anchor, focus), Max(anchor, focus);
      var typed := AddText(text, anchor, focus, [c]);
      && typed.caret == lo + 1 <= |typed.text|
      && SelectionInText(typed.text, typed.caret, typed.caret)
      && AddText(typed.text, typed.caret, typed.caret, BackspaceText).text == text[..lo] + text[hi..]
      && AddText(typed.text, typed.caret, typed.caret, BackspaceText).caret == if hi == |text| then lo + 1 else lo
  {
  }

  /** The length of the text after an edit: the selection is replaced by the
      inserted text, or by nothing, and a collapsed backspace removes one
      character when there is one before the caret. */
  lemma EditLength(text: string, anchor: int, focus: int, pText: string)
    requires SelectionInText(text, anchor, focus)
    ensures var lo, hi := Min(anchor, focus), Max(anchor, focus);
      |AddText(text, anchor, focus, pText).text| ==
        if pText != BackspaceText then |text| - (hi - lo) + |pText|
        else if lo < hi then |text| - (hi - lo)
        else if lo > 0 then |text| - 1
        else |text|
  {
  }
}
