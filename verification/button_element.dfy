/** The push button of src/form/ButtonElement.h: a short CENTER invokes its
    callback with its own label; it never enters edit mode. */
module ButtonWidget {
  import opened Common

  /** getHeight. */
  const ELEMENT_HEIGHT: int := 12

  class ButtonElement {
    const labelText: string
    /** Whether a callback is set (an empty std::function is not called). */
    const hasCallback: bool
    var isSelected: bool

    constructor(labelText: string, hasCallback: bool)
      ensures this.labelText == labelText && this.hasCallback == hasCallback
      ensures !isSelected
    {
      this.labelText := labelText;
      this.hasCallback := hasCallback;
      isSelected := false;
    }

    /** handleInput: whether the event is consumed, and the label passed
        to the callback when it is called. */
    function HandleInput(e: Event): (r: (bool, Option<string>))
      ensures r.0 <==> IsShort(e, CENTER)
      ensures r.1.Some? <==> r.0 && hasCallback
      ensures r.1.Some? ==> r.1.value == labelText
    {
      if e.action == ShortClick && e.buttonName == CENTER then
        (true, if hasCallback then Some(labelText) else None)
      else (false, None)
    }

    /** canEdit and getEditing are constantly false. */
    function CanEdit(): bool { false }

    function GetEditing(): bool { false }

    /** setEditing is a no-op. */
    method SetEditing(editing: bool)
    {
    }

    method SetSelected(select: bool)
      modifies this`isSelected
      ensures isSelected == select
    {
      isSelected := select;
    }
  }
}
