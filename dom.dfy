/**
 * The part of a text-entry element (`<input>` or `<textarea>`) the content
 * scripts touch: its tag, its `type`, its `value`, its caret
 * (`selectionStart`, null for input types without a selection) and the
 * synthetic `input` events dispatched on it.
 */
module Dom {
  import opened Wrappers

  class InputElement {
    const tagName: string
    const fieldType: string
    var value: string
    var selectionStart: Option<nat>
    var inputEvents: nat

    ghost predicate Valid()
      reads this
    {
      selectionStart.Some? ==> selectionStart.value <= |value|
    }

    constructor (tagName: string, fieldType: string, value: string, selectionStart: Option<nat>)
      requires selectionStart.Some? ==> selectionStart.value <= |value|
      ensures Valid()
      ensures this.tagName == tagName && this.fieldType == fieldType
      ensures this.value == value && this.selectionStart == selectionStart && inputEvents == 0
    {
      this.tagName := tagName;
      this.fieldType := fieldType;
      this.value := value;
      this.selectionStart := selectionStart;
      inputEvents := 0;
    }

    /** Assigning `value`: when it changes, the caret moves to the end of the new text. */
    method SetValue(v: string)
      requires Valid()
      modifies this`value, this`selectionStart
      ensures Valid()
      ensures value == v
      ensures selectionStart == if old(selectionStart).Some? && v != old(value) then Some(|v|) else old(selectionStart)
    {
      if selectionStart.Some? && v != value {
        selectionStart := Some(|v|);
      }
      value := v;
    }

    /**
     * `setSelectionRange(p, p)`: places the caret; on a type without a
     * selection it throws (`ok` is false) and nothing changes.
     */
    method SetSelectionRange(p: nat) returns (ok: bool)
      requires p <= |value|
      modifies this`selectionStart
      ensures Valid()
      ensures ok == old(selectionStart).Some?
      ensures selectionStart == if ok then Some(p) else old(selectionStart)
    {
      ok := selectionStart.Some?;
      if ok {
        selectionStart := Some(p);
      }
    }

    /** `dispatchEvent(new Event('input', { bubbles: true }))`. */
    method DispatchInput()
      modifies this`inputEvents
      ensures inputEvents == old(inputEvents) + 1
    {
      inputEvents := inputEvents + 1;
    }
  }
}
