// The signature editor (src/components/SignatureBox.jsx): one draggable,
// styleable box. Its React state is the fields of a class; the mouse
// handlers, the editor-panel controls and the two callbacks are methods.
// Calls to onUpdate, onDragEnd and onDelete are recorded in the fields
// `updates`, `dragEnds` and `deletes`, so that what the owner receives is
// part of the state.
module SignatureBox {
  import opened Common
  import opened Coercion
  import opened Annotations

  /** The choices offered by the Font Family, Font Weight and Font Style selects. */
  const FontFamilies: seq<string> :=
    ["Arial", "Georgia", "Courier New", "Times New Roman", "Verdana", "Cursive", "Monospace",
     "Lucida Console", "Fantasy"]
  const FontWeights: seq<string> := ["normal", "bold", "bolder", "lighter"]
  const FontStyles: seq<string> := ["normal", "italic", "oblique"]

  /** The initial background highlight, eight-digit hex with transparency. */
  const InitialBgColor := "#00ff0055"

  /** The props for the nine fields; `None` is a prop left undefined. */
  datatype Props = Props(
    x: Option<int>,
    y: Option<int>,
    text: Option<string>,
    fontSize: Option<int>,
    fontWeight: Option<string>,
    fontStyle: Option<string>,
    underline: Option<bool>,
    fontFamily: Option<string>,
    color: Option<string>)

  /** Which of the three callback props are functions. */
  datatype Callbacks = Callbacks(onUpdate: bool, onDelete: bool, onDragEnd: bool)

  /** The props a page spreads from one of its records (`{...sig}`). */
  function PropsOf(s: Signature): Props {
    Props(Some(s.x), Some(s.y), Some(s.text), Some(s.fontSize), Some(s.fontWeight), Some(s.fontStyle),
          Some(s.underline), Some(s.fontFamily), Some(s.color))
  }

  /** The state's starting values: each prop `|| default`. */
  function InitialSnapshot(p: Props): (r: Snapshot)
    ensures r.x != 0 && r.y != 0 && r.fontSize != 0
    ensures r.text != "" && r.fontWeight != "" && r.fontStyle != "" && r.fontFamily != "" && r.color != ""
    ensures p.x.Some? && p.x.value != 0 ==> r.x == p.x.value
    ensures p.x.None? || p.x.value == 0 ==> r.x == 100
    ensures p.y.Some? && p.y.value != 0 ==> r.y == p.y.value
    ensures p.y.None? || p.y.value == 0 ==> r.y == 100
    ensures p.text.Some? && p.text.value != "" ==> r.text == p.text.value
    ensures p.text.None? || p.text.value == "" ==> r.text == "Signature"
    ensures p.fontSize.Some? && p.fontSize.value != 0 ==> r.fontSize == p.fontSize.value
    ensures p.fontSize.None? || p.fontSize.value == 0 ==> r.fontSize == 20
    ensures p.fontWeight.Some? && p.fontWeight.value != "" ==> r.fontWeight == p.fontWeight.value
    ensures p.fontWeight.None? || p.fontWeight.value == "" ==> r.fontWeight == "normal"
    ensures p.fontStyle.Some? && p.fontStyle.value != "" ==> r.fontStyle == p.fontStyle.value
    ensures p.fontStyle.None? || p.fontStyle.value == "" ==> r.fontStyle == "normal"
    ensures r.underline <==> p.underline == Some(true)
    ensures p.fontFamily.Some? && p.fontFamily.value != "" ==> r.fontFamily == p.fontFamily.value
    ensures p.fontFamily.None? || p.fontFamily.value == "" ==> r.fontFamily == "Arial"
    ensures p.color.Some? && p.color.value != "" ==> r.color == p.color.value
    ensures p.color.None? || p.color.value == "" ==> r.color == "#000000"
  {
    Snapshot(NumberOr(p.x, 100), NumberOr(p.y, 100), StringOr(p.text, "Signature"), NumberOr(p.fontSize, 20),
             StringOr(p.fontWeight, "normal"), StringOr(p.fontStyle, "normal"), BoolOrFalse(p.underline),
             StringOr(p.fontFamily, "Arial"), StringOr(p.color, "#000000"))
  }

  /** A record has no falsy number or string among its nine fields. */
  predicate NoFalsyField(s: Signature) {
    s.x != 0 && s.y != 0 && s.fontSize != 0 && s.text != "" && s.fontWeight != "" &&
    s.fontStyle != "" && s.fontFamily != "" && s.color != ""
  }

  /** A box mounted from a record with no falsy field starts with exactly that record's nine fields. */
  lemma MountedFromRecord(s: Signature)
    requires NoFalsyField(s)
    ensures InitialSnapshot(PropsOf(s)) == FieldsOf(s)
  {
  }

  /** An explicit 0 for x, y or fontSize is falsy, so the box starts from the default instead. */
  lemma ZeroReplaced(s: Signature)
    ensures s.x == 0 ==> InitialSnapshot(PropsOf(s)).x == 100
    ensures s.y == 0 ==> InitialSnapshot(PropsOf(s)).y == 100
    ensures s.fontSize == 0 ==> InitialSnapshot(PropsOf(s)).fontSize == 20
    ensures s.text == "" ==> InitialSnapshot(PropsOf(s)).text == "Signature"
  {
  }

  /** With every prop undefined the box starts at (100, 100) showing "Signature" in 20px Arial black. */
  lemma DefaultsWithoutProps()
    ensures InitialSnapshot(Props(None, None, None, None, None, None, None, None, None)) ==
            Snapshot(100, 100, "Signature", 20, "normal", "normal", false, "Arial", "#000000")
  {
  }

  class State {
    const callbacks: Callbacks
    var x: int
    var y: int
    var text: string
    var fontSize: int
    var fontWeight: string
    var fontStyle: string
    var underline: bool
    var fontFamily: string
    var color: string
    var textShadow: bool
    var bgColor: string
    var dragging: bool
    var offsetX: int
    var offsetY: int
    var showEditor: bool
    /** Every object passed to onUpdate, oldest first. */
    var updates: seq<Snapshot>
    var dragEnds: nat
    var deletes: nat

    /** The nine persisted fields; textShadow and bgColor are not among them. */
    function Current(): Snapshot
      reads this
    {
      Snapshot(x, y, text, fontSize, fontWeight, fontStyle, underline, fontFamily, color)
    }

    /** The owner has always been told the current values of the nine fields. */
    ghost predicate Valid()
      reads this
    {
      if callbacks.onUpdate then |updates| > 0 && updates[|updates| - 1] == Current() else updates == []
    }

    /** Mounting: the state starts from the props, and the update effect reports it once. */
    constructor (props: Props, callbacks: Callbacks)
      ensures Valid() && this.callbacks == callbacks
      ensures Current() == InitialSnapshot(props)
      ensures updates == if callbacks.onUpdate then [InitialSnapshot(props)] else []
      ensures !showEditor && !dragging && !textShadow && bgColor == InitialBgColor
      ensures offsetX == 0 && offsetY == 0 && dragEnds == 0 && deletes == 0
    {
      this.callbacks := callbacks;
      var init := InitialSnapshot(props);
      x, y, text, fontSize := init.x, init.y, init.text, init.fontSize;
      fontWeight, fontStyle, underline := init.fontWeight, init.fontStyle, init.underline;
      fontFamily, color := init.fontFamily, init.color;
      textShadow, bgColor := false, InitialBgColor;
      dragging, offsetX, offsetY, showEditor := false, 0, 0, false;
      updates := if callbacks.onUpdate then [init] else [];
      dragEnds, deletes := 0, 0;
    }

    /** The update effect after a render: it fires when one of the nine fields changed. */
    method Notify(before: Snapshot)
      requires callbacks.onUpdate ==> |updates| > 0 && updates[|updates| - 1] == before
      requires !callbacks.onUpdate ==> updates == []
      modifies this`updates
      ensures Valid()
      ensures updates == if callbacks.onUpdate && Current() != before then old(updates) + [Current()]
                         else old(updates)
    {
      if callbacks.onUpdate && Current() != before {
        updates := updates + [Current()];
      }
    }

    /** toggleEditor: a click on the box opens or closes the editor panel. */
    method ToggleEditor()
      requires Valid()
      modifies this`showEditor
      ensures Valid() && showEditor == !old(showEditor)
    {
      showEditor := !showEditor;
    }

    /** The Close button. */
    method CloseEditor()
      requires Valid()
      modifies this`showEditor
      ensures Valid() && !showEditor
    {
      showEditor := false;
    }

    /** handleMouseDown: remember where in the box it was grabbed, start dragging. */
    method HandleMouseDown(clientX: int, clientY: int)
      requires Valid()
      modifies this`offsetX, this`offsetY, this`dragging
      ensures Valid() && offsetX == clientX - x && offsetY == clientY - y && dragging
    {
      offsetX, offsetY := clientX - x, clientY - y;
      dragging := true;
    }

    /** handleMouseMove: while dragging, the box keeps the grabbed point under the cursor. */
    method HandleMouseMove(clientX: int, clientY: int)
      requires Valid()
      modifies this`x, this`y, this`updates
      ensures Valid()
      ensures !dragging ==> x == old(x) && y == old(y) && updates == old(updates)
      ensures dragging ==> x == clientX - offsetX && y == clientY - offsetY
      ensures dragging ==> updates == if callbacks.onUpdate && Current() != old(Current())
                                      then old(updates) + [Current()] else old(updates)
    {
      if !dragging {
        return;
      }
      var before := Current();
      x, y := clientX - offsetX, clientY - offsetY;
      Notify(before);
    }

    /** handleMouseUp: stop dragging; call onDragEnd if it is a function. */
    method HandleMouseUp()
      requires Valid()
      modifies this`dragging, this`dragEnds
      ensures Valid() && !dragging
      ensures dragEnds == old(dragEnds) + if callbacks.onDragEnd then 1 else 0
    {
      dragging := false;
      if callbacks.onDragEnd {
        dragEnds := dragEnds + 1;
      }
    }

    method SetText(value: string)
      requires Valid()
      modifies this`text, this`updates
      ensures Valid() && text == value
      ensures updates == if callbacks.onUpdate && Current() != old(Current())
                         then old(updates) + [Current()] else old(updates)
    {
      var before := Current();
      text := value;
      Notify(before);
    }

    /** The Font Size input, after Number(value). */
    method SetFontSize(value: int)
      requires Valid()
      modifies this`fontSize, this`updates
      ensures Valid() && fontSize == value
      ensures updates == if callbacks.onUpdate && Current() != old(Current())
                         then old(updates) + [Current()] else old(updates)
    {
      var before := Current();
      fontSize := value;
      Notify(before);
    }

    /** The Font Family select: one of its nine options. */
    method SelectFontFamily(value: string)
      requires Valid() && value in FontFamilies
      modifies this`fontFamily, this`updates
      ensures Valid() && fontFamily == value
      ensures updates == if callbacks.onUpdate && Current() != old(Current())
                         then old(updates) + [Current()] else old(updates)
    {
      var before := Current();
      fontFamily := value;
      Notify(before);
    }

    /** The Font Weight select: one of its four options. */
    method SelectFontWeight(value: string)
      requires Valid() && value in FontWeights
      modifies this`fontWeight, this`updates
      ensures Valid() && fontWeight == value
      ensures updates == if callbacks.onUpdate && Current() != old(Current())
                         then old(updates) + [Current()] else old(updates)
    {
      var before := Current();
      fontWeight := value;
      Notify(before);
    }

    /** The Font Style select: one of its three options. */
    method SelectFontStyle(value: string)
      requires Valid() && value in FontStyles
      modifies this`fontStyle, this`updates
      ensures Valid() && fontStyle == value
      ensures updates == if callbacks.onUpdate && Current() != old(Current())
                         then old(updates) + [Current()] else old(updates)
    {
      var before := Current();
      fontStyle := value;
      Notify(before);
    }

    method SetUnderline(checked: bool)
      requires Valid()
      modifies this`underline, this`updates
      ensures Valid() && underline == checked
      ensures updates == if callbacks.onUpdate && Current() != old(Current())
                         then old(updates) + [Current()] else old(updates)
    {
      var before := Current();
      underline := checked;
      Notify(before);
    }

    method SetColor(value: string)
      requires Valid()
      modifies this`color, this`updates
      ensures Valid() && color == value
      ensures updates == if callbacks.onUpdate && Current() != old(Current())
                         then old(updates) + [Current()] else old(updates)
    {
      var before := Current();
      color := value;
      Notify(before);
    }

    /** The Text Shadow checkbox: display only, never reported to the owner. */
    method SetTextShadow(checked: bool)
      requires Valid()
      modifies this`textShadow
      ensures Valid() && textShadow == checked && Current() == old(Current())
    {
      textShadow := checked;
    }

    /** The Background color input: display only, never reported to the owner. */
    method SetBgColor(value: string)
      requires Valid()
      modifies this`bgColor
      ensures Valid() && bgColor == value && Current() == old(Current())
    {
      bgColor := value;
    }

    /** The Delete button: `onDelete?.()`. The box's own state is untouched. */
    method Delete()
      requires Valid()
      modifies this`deletes
      ensures Valid() && deletes == old(deletes) + if callbacks.onDelete then 1 else 0
    {
      if callbacks.onDelete {
        deletes := deletes + 1;
      }
    }
  }

  /** Grabbing the box and moving the cursor moves the box by the cursor's displacement. */
  method DragFollowsCursor(box: State, downX: int, downY: int, moveX: int, moveY: int)
    requires box.Valid()
    modifies box
    ensures box.Valid() && box.dragging
    ensures box.x == old(box.x) + (moveX - downX) && box.y == old(box.y) + (moveY - downY)
    ensures box.Current() == old(box.Current()).(x := old(box.x) + (moveX - downX), y := old(box.y) + (moveY - downY))
  {
    box.HandleMouseDown(downX, downY);
    box.HandleMouseMove(moveX, moveY);
  }

  /** Moving back to where the box was grabbed restores its position and tells the owner nothing new. */
  method DragBackRestores(box: State, downX: int, downY: int)
    requires box.Valid()
    modifies box
    ensures box.Valid() && box.dragging
    ensures box.Current() == old(box.Current()) && box.updates == old(box.updates)
  {
    box.HandleMouseDown(downX, downY);
    box.HandleMouseMove(downX, downY);
  }

  /** Toggling the editor twice leaves it as it was. */
  method ToggleTwice(box: State)
    requires box.Valid()
    modifies box
    ensures box.Valid() && box.showEditor == old(box.showEditor)
  {
    box.ToggleEditor();
    box.ToggleEditor();
  }
}
