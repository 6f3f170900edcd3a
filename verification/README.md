# MinUI input and widget core, modelled in Dafny

MinUI is a small user-interface library for Arduino-class boards with a
monochrome display and five push buttons (UP, DOWN, LEFT, RIGHT, CENTER).
This project models its input pipeline and the state machines of its
widgets:

- the gesture engine `ButtonManager` (`button_manager.dfy`). It samples
  every configured pin once per tick and advances a per-pin timing record.
  Each press becomes SHORT_CLICK, DOUBLE_CLICK or LONG_PRESS, and at most one
  event per tick is kept: the last one raised in key order;
- the form navigator `FormView` (`form_view.dfy`) and its four widgets
  (`text_input.dfy`, `list_element.dfy`, `check_box.dfy`,
  `button_element.dfy`). The ping-pong label scroll shared by the list and
  the checkbox is in `ping_pong.dfy`;
- the hierarchical menu: `MenuItem` (`menu_item.dfy`), the `MenuBuilder`
  factories (`menu_builder.dfy`) and `MenuListView` (`menu_list_view.dfy`),
  with its submenu stack and the back-and-forth scroll of the selected label;
- the scrolling text viewer `TextDisplay` (`text_display.dfy`). It is a
  fixed-capacity line buffer that drops its oldest line when full;
- the status-bar elements `StatusTime` (`status_time.dfy`) and
  `StatusBattery` (`status_battery.dfy`).

`common.dfy` holds the shared event record and the C/Arduino arithmetic
the code relies on:

- the 32-bit `unsigned long` clock, where `now - since` wraps around;
- `uint16_t` conversion;
- C's truncating `/` and `%`;
- `constrain`;
- `String::substring`, whose bounds are swapped and clipped.

Inputs from the hardware become parameters:

- `millis()` is a `now: Millis` argument;
- `digitalRead` is a `pressed: Pin -> bool` function;
- callbacks and menu actions become returned values: the label passed to a
  button callback, or an opaque `ActionId` for a menu action.

Objects whose fields the C++ code updates in place are Dafny classes with
`modifies` frames. The decision logic they follow is stated as functions
(`Buttons.Step`, `MenuList.LabelStep`, `PingPong.Step`, `Clock.Tick`, ...)
that the methods are proved against, with lemmas about those functions.

## Model

| member | source | states |
|---|---|---|
| Common.Elapsed | src/button/ButtonManager.cpp:30 | `now - since` on a 32-bit unsigned clock: the plain difference, or the difference plus 2^32 when the clock has wrapped |
| Common.U16 | src/display/TextDisplay.h:127 | conversion to uint16_t: always below 2^16, and the identity on values that already fit |
| Common.CRem | src/status/StatusTime.h:43-44 | C's `%`: dividend = truncated quotient * divisor + remainder, and the remainder takes the dividend's sign |
| Common.Constrain | src/status/StatusBattery.cpp:166 | Arduino constrain: the result lies in [low, high]; it is x when x is in range, else the bound x passed |
| Common.Substring | src/form/ListElement.h:92 | String::substring: for in-order bounds inside the string it is exactly the slice, past the end it is the tail, and it is never longer than the string |
| Common.PadTo | src/display/TextDisplay.h:182-186 | padding with spaces: the length is max(length, n), the original is a prefix, and the rest are spaces |
| Buttons.PressEdge | src/button/ButtonManager.cpp:23-28 | a press edge records the press time, arms waitingForRelease, clears longPressReported and raises nothing; a held tick keeps the press time |
| Buttons.LongPressWhileHeld | src/button/ButtonManager.cpp:30-35 | while held, LONG_PRESS is raised iff none was reported yet and more than 800 ms have passed; it then marks it reported and cancels the click sequence, otherwise nothing changes |
| Buttons.FirstClickArmsWindow | src/button/ButtonManager.cpp:37-45 | releasing a press shorter than 300 ms with no click counted records click 1, its time, and a pending click, raising nothing |
| Buttons.SecondClickInWindow | src/button/ButtonManager.cpp:46-50 | a second short click within 400 ms of the first raises DOUBLE_CLICK and clears the count and the pending flag |
| Buttons.WindowExpiry | src/button/ButtonManager.cpp:54-60 | when the 400 ms window expires the pending click becomes SHORT_CLICK only if exactly one click was counted; the sequence is reset either way |
| Buttons.LateSecondClickIsLost | src/button/ButtonManager.cpp:40-60 | a second short click released more than 400 ms after the first raises no event at all and discards the sequence |
| Buttons.LongReleaseChangesOnlyWaiting | src/button/ButtonManager.cpp:37-40 | releasing a long (>= 300 ms) or already-reported press only clears waitingForRelease |
| Buttons.Step | src/button/ButtonManager.cpp:20-61 | the decision function for one button and one tick: the new timing record and the action raised; its behaviour is stated by the lemmas above |
| Buttons.Run | src/button/ButtonManager.cpp:13-63 | one action per sampled tick |
| Buttons.RunStepwise | src/button/ButtonManager.cpp:20-61 | entry i of a run is the action Step raises on tick i from the timing record the first i ticks leave behind |
| Buttons.HeldRunLongPressAtMostOnce | src/button/ButtonManager.cpp:30-35 | over any run of held ticks at most one LONG_PRESS is raised, and none when the current hold already reported one |
| Buttons.HeldButtonScenario | src/button/ButtonManager.cpp:23-35 | a button held from 0 ms and sampled at 400, 800, 900 and 1300 ms raises exactly one LONG_PRESS, at 900 ms |
| Buttons.DoubleClickScenario | src/button/ButtonManager.cpp:37-60 | press/release at 0/150 and 300/350 ms gives one DOUBLE_CLICK and no SHORT_CLICK |
| Buttons.ShortClickScenario | src/button/ButtonManager.cpp:54-60 | a lone short click is reported as SHORT_CLICK only once its 400 ms window has passed |
| Buttons.LateSecondClickScenario | src/button/ButtonManager.cpp:40-60 | two short clicks 450 ms apart produce no event at all |
| Buttons.Sweep | src/button/ButtonManager.cpp:15-62 | one tick of update over the first k buttons in key order: each record advanced by Step and the last raised event kept; its behaviour is stated by the lemmas below |
| Buttons.SweepEvent | src/button/ButtonManager.cpp:17-62 | each button of the sweep replaces the kept event with its own action when it raises one, and keeps the previous event otherwise |
| Buttons.LastIsLastRaised | src/button/ButtonManager.cpp:15-62 | the overwrite-as-you-go result is NO_ACTION iff nothing was raised, and otherwise equals a raised event after which nothing else is raised |
| Buttons.SweepKeepsLast | src/button/ButtonManager.cpp:15-62 | the event update keeps after k buttons is the last raised event among the first k |
| Buttons.LastWins | src/button/ButtonManager.cpp:15-62 | a tick keeps NO_ACTION iff no button raised an action; otherwise it keeps the action, name and pin of the last button in key order that raised one |
| Buttons.MainButtonsKeyOrdered | src/main.cpp:15-20 | the board's five-button configuration is listed in the order std::map visits it |
| Buttons.StepButton | src/button/ButtonManager.cpp:20-61 | the field-by-field update of one timing record and the action raised agree with the decision function Step |
| Buttons.ButtonManager.constructor | src/button/ButtonManager.cpp:3-4 | keeps the configuration, with no timing records and NO_ACTION kept |
| Buttons.ButtonManager.Begin | src/button/ButtonManager.cpp:6-11 | every configured pin gets a fresh timing record; other records and the kept event are unchanged |
| Buttons.ButtonManager.Update | src/button/ButtonManager.cpp:13-63 | the new records and kept event are exactly the sweep of Step over the buttons in key order (hence LastWins) |
| Buttons.ButtonManager.GetAction | src/button/ButtonManager.cpp:65-69 | returns the kept event and leaves NO_ACTION behind, records unchanged |
| PingPong.Step | src/form/ListElement.h:65-81 | one scroll step: the offset stays in [0, maxOffset]; passing an end clamps there and reverses, otherwise it advances in the current direction |
| PingPong.IterateInRange | src/form/ListElement.h:65-81 | every state reached after at least one step has its offset in [0, maxOffset] |
| PingPong.Rightward | src/form/ListElement.h:65-73 | moving right from k, the scroll reaches maxOffset after maxOffset - k steps |
| PingPong.Leftward | src/form/ListElement.h:74-78 | moving left from k, the scroll reaches 0 after k steps |
| PingPong.FullCycle | src/form/CheckBoxElement.h:73-87 | from the start the offset reaches maxOffset after maxOffset steps and is back at the start after 2 * maxOffset + 2 steps |
| TextInput.NextSet | src/form/TextInputElement.h:136-141 | a double UP moves to the next of the four character sets, cyclically |
| TextInput.PrevSet | src/form/TextInputElement.h:142-147 | a double DOWN moves to the previous character set, cyclically |
| TextInput.SetRotationInverse | src/form/TextInputElement.h:136-147 | rotating forward then back (or back then forward) returns the same set, and four forward rotations are the identity |
| TextInput.IndexOf | src/form/TextInputElement.h:248 | std::find: the first position holding the character, or the length when absent |
| TextInput.SymbolsDistinct | src/form/TextInputElement.h:43-45 | the 24 symbols are pairwise distinct |
| TextInput.IndexOfSymbol | src/form/TextInputElement.h:248 | finding the k-th symbol yields k |
| TextInput.FirstChar | src/form/TextInputElement.h:215-227 | the character written on a set change belongs to the new set |
| TextInput.CycleWraps | src/form/TextInputElement.h:230-283 | both cycles wrap: z to a, Z to A, 9 to 0, @ to '.', and the reverse |
| TextInput.SymbolCycle | src/form/TextInputElement.h:246-250 | on the symbol list, forward and reverse cycling move to the next and previous symbol, wrapping at the ends |
| TextInput.SymbolCycleInverse | src/form/TextInputElement.h:246-278 | on a symbol, the two cycles stay among the symbols and undo each other |
| TextInput.CycleForward | src/form/TextInputElement.h:230-255 | for letters and digits, the next character code while below the set's last character ('z', 'Z', '9'), else the set's first; for symbols, the next in the list, and the first after the last one or for a character not in the list |
| TextInput.CycleBackward | src/form/TextInputElement.h:258-283 | for letters and digits, the previous character code while above the set's first character ('a', 'A', '0'), else the set's last; for symbols, the previous in the list, and the last before the first one or for a character not in the list |
| TextInput.CycleInverse | src/form/TextInputElement.h:230-283 | within the active set, cycling stays in the set and the forward and reverse cycles are inverses |
| TextInput.SymbolsNotAlphanumeric | src/form/TextInputElement.h:43-45 | no symbol is a space, a letter or a digit, so the set tests of updateCharSetByCursor never overlap |
| TextInput.CharSetFor | src/form/TextInputElement.h:286-300 | an upper-case letter selects upper case, a digit digits and a symbol symbols; a lower-case letter or a space selects lower case; a character of no set keeps the current one |
| TextInput.Padded | src/form/TextInputElement.h:206-212 | after padding the cursor is on a character, the old value is a prefix, and the added characters are spaces |
| TextInput.AdjustStart | src/form/TextInputElement.h:65-71 | the window start moves just far enough that the cursor is visible, does not move when it already is, and stays non-negative |
| TextInput.TextInputElement.constructor | src/form/TextInputElement.h:49-51 | label and value as given, cursor and window at 0, lower case, not editing or selected |
| TextInput.TextInputElement.Draw | src/form/TextInputElement.h:53-95 | the window start becomes AdjustStart's and the shown text is the substring of the value at the window |
| TextInput.TextInputElement.SetSelected | src/form/TextInputElement.h:196 | sets the selected flag |
| TextInput.TextInputElement.SetEditing | src/form/TextInputElement.h:182-193 | entering edit mode appends 'a' when the cursor is past the end and selects lower case, leaving the cursor on a character; leaving it only clears the flag |
| TextInput.TextInputElement.EnsureCursorInValue | src/form/TextInputElement.h:206-212 | the value becomes Padded of the old value |
| TextInput.TextInputElement.SetCharToStartOfCharSet | src/form/TextInputElement.h:215-227 | on the padded value, the character at the cursor becomes the first of the current set |
| TextInput.TextInputElement.CycleCharAtCursor | src/form/TextInputElement.h:230-255 | on the padded value, the character at the cursor is replaced by its forward cycle in the current set |
| TextInput.TextInputElement.CycleCharAtCursorReverse | src/form/TextInputElement.h:258-283 | the same with the reverse cycle |
| TextInput.TextInputElement.UpdateCharSetByCursor | src/form/TextInputElement.h:286-300 | the set becomes that of the character under the cursor, unchanged past the end |
| TextInput.TextInputElement.HandleInput | src/form/TextInputElement.h:97-170 | consumed iff editing and a short or double click of one of the five buttons; nothing changes otherwise. Per event it states the cursor move, the set change, the character cycle, deletion at the cursor (double LEFT), insertion of a space (double RIGHT) and leaving edit mode (CENTER) |
| ListWidget.Markers | src/form/ListElement.h:95-127 | outside edit mode the markers are < and >; while editing, a bar replaces '<' exactly at the first option and '>' exactly at the last |
| ListWidget.ListElement.constructor | src/form/ListElement.h:33-38 | the default index is kept only when it names an option, else 0; not editing or selected, scroll at the start |
| ListWidget.ListElement.SelectedValue | src/form/ListElement.h:214-220 | the empty string for no options, else the selected option |
| ListWidget.ListElement.ScrollStep | src/form/ListElement.h:61-87 | while selected or editing with a value too long, a ping-pong step is taken every 200 ms, keeping the offset in range; otherwise the scroll resets |
| ListWidget.ListElement.Draw | src/form/ListElement.h:40-133 | the scroll step as above; the shown text is the Arduino substring of the value at the offset when it is too long, and the whole value otherwise; it is exactly maxVisibleChars characters only when the offset is at most the overflow, which an offset left over from a longer option need not be; the markers are Markers' |
| ListWidget.ListElement.SetEditing | src/form/ListElement.h:200-208 | sets the flag, restarts the scroll from the left and its clock from now |
| ListWidget.ListElement.SetSelected | src/form/ListElement.h:210 | sets the selected flag |
| ListWidget.ListElement.HandleInput | src/form/ListElement.h:155-189 | consumed iff editing and a short LEFT/RIGHT that can still move, or a double CENTER; LEFT/RIGHT move the selection by one within the options, a double CENTER leaves edit mode; nothing changes otherwise |
| CheckBox.CheckBoxElement.constructor | src/form/CheckBoxElement.h:36-37 | label and checked state as given, not editing or selected, scroll at the start |
| CheckBox.CheckBoxElement.Draw | src/form/CheckBoxElement.h:66-99 | while selected with a label too long, a ping-pong step every 200 ms and the window at the offset is shown; otherwise the scroll resets and the label is cut to the first characters that fit |
| CheckBox.CheckBoxElement.SetEditing | src/form/CheckBoxElement.h:154-157 | sets the editing flag only |
| CheckBox.CheckBoxElement.SetSelected | src/form/CheckBoxElement.h:160 | sets the selected flag |
| CheckBox.CheckBoxElement.HandleInput | src/form/CheckBoxElement.h:111-142 | consumed iff editing and a short UP/DOWN/CENTER or a double CENTER: UP checks, DOWN clears, CENTER toggles, a double CENTER leaves edit mode; nothing changes otherwise |
| ButtonWidget.ButtonElement.constructor | src/form/ButtonElement.h:21-22 | label and callback as given, not selected |
| ButtonWidget.ButtonElement.HandleInput | src/form/ButtonElement.h:50-61 | consumed iff a short CENTER; the callback is called, with the button's own label, iff consumed and a callback is set |
| ButtonWidget.ButtonElement.SetSelected | src/form/ButtonElement.h:71 | sets the selected flag |
| ButtonWidget.ButtonElement.CanEdit | src/form/ButtonElement.h:65 | a button is never editable (constant false) |
| ButtonWidget.ButtonElement.GetEditing | src/form/ButtonElement.h:67 | a button is never in edit mode (constant false) |
| ButtonWidget.ButtonElement.SetEditing | src/form/ButtonElement.h:69 | a no-op: it modifies nothing |
| Form.Height | src/form/TextInputElement.h:173 | every element kind has a positive height |
| Form.EditingIsEditable | src/form/ButtonElement.h:65-69 | an element in edit mode is of an editable kind |
| Form.HandleElementInput | src/form/FormView.cpp:65 | dispatches to the element's handleInput: the result is the element's Consumes and the callback the element's; an unconsumed event changes nothing, and a consumed one changes the widget as InputTaken says, its own handleInput's effect per kind (cursor moves, character cycling, set switches, delete and insert, check/clear/toggle, list steps, leaving edit mode with the list's scroll restarted) |
| Form.SetElementEditing | src/form/FormView.cpp:78 | editable kinds take the new editing flag; the button is untouched; the widget's new state is EditingSet of its old one |
| Form.EditingSet | src/form/TextInputElement.h:182-193 | setEditing per kind: a text input entering edit mode has a character under the cursor ('a' appended past the end) and lower case, and leaving only clears the flag; a list restarts its scroll from the left with its clock at now (ListElement.h:200-208); a checkbox sets the flag only; a button keeps its state |
| Form.SetElementSelected | src/form/FormView.cpp:49 | the element's selected flag becomes the argument; every other field of the widget, the editing flag included, is unchanged |
| Form.DrawElement | src/form/FormView.cpp:50 | drawing keeps the selected and editing flags; a text input's window start becomes AdjustStart's, a checkbox or list takes its ScrollStepped step, the other fields are unchanged, and a button is untouched |
| Form.NavTarget | src/form/FormView.cpp:70-74 | short UP/DOWN move the focus by one without wrapping; any other event keeps it; the focus stays in range |
| Form.StackAppend | src/form/FormView.cpp:44-52 | the y offset of the next element is that of the previous plus its height and the 5 px spacing |
| Form.FitsShorter | src/form/FormView.cpp:44-53 | if a run of elements fits, every shorter run from the same start fits |
| Form.ViewportStart | src/form/FormView.cpp:32-41 | the viewport starts at or before the focus, the elements from the start to the focus fit, and one more element above would not |
| Form.FocusedIsDrawn | src/form/FormView.cpp:32-53 | when the focused element fits on screen by itself, it is among the elements drawn |
| Form.FormView.constructor | src/form/FormView.cpp:5 | an empty form with focus 0; the offsets and reductions start at 0, a choice of the model (see Left out) |
| Form.FormView.SetOffsetX | src/form/FormView.cpp:88-90 | sets the horizontal offset |
| Form.FormView.SetOffsetY | src/form/FormView.cpp:93-95 | sets the vertical offset |
| Form.FormView.ReduceVisibleWidth | src/form/FormView.cpp:98-100 | sets the width reduction |
| Form.FormView.ReduceVisibleHeight | src/form/FormView.cpp:103-105 | sets the height reduction |
| Form.FormView.AddElement | src/form/FormView.cpp:8-12 | a null element is ignored; any other is appended at the end |
| Form.FormView.Navigate | src/form/FormView.cpp:70-84 | the focus moves to NavTarget; a short CENTER starts editing an editable element, which takes setEditing(true)'s effect (EditingSet), or forwards the event to a button, whose callback result is returned; nothing else changes |
| Form.FormView.HandleInput | src/form/FormView.cpp:60-85 | an empty form ignores input; an editing element that consumes the event keeps the focus and takes the event's effect (InputTaken); otherwise the event navigates as in Navigate, so an unconsumed short CENTER on an editing element calls setEditing(true) again (EditingSet: a list restarts its scroll) |
| Form.FormView.DrawOne | src/form/FormView.cpp:49-50 | marks one element selected or not and draws it: its editing flag is kept and it takes its draw step (DrawnFrom); no other element changes |
| Form.FormView.DrawRun | src/form/FormView.cpp:44-53 | from the start, elements are drawn while they fit; the first one that does not stops the run; each drawn element is selected iff it is the focused one, keeps its editing flag and takes its draw step; every element outside the run is unchanged |
| Form.FormView.Draw | src/form/FormView.cpp:25-54 | the drawn run starts at ViewportStart's index and ends at the first overflow; each drawn element is selected iff focused, keeps its editing flag and takes its draw step; the others are unchanged; the focused one is drawn whenever it fits alone |
| MenuItems.MenuItem.constructor | src/menu/MenuItem.h:20-21 | label and action as given, no children |
| MenuItems.MenuItem.HasSubmenu | src/menu/MenuItem.h:41-43 | an item is a submenu iff its list of children is non-empty |
| MenuItems.MenuItem.SetSubmenu | src/menu/MenuItem.h:31-33 | replaces the children; the item is a submenu iff the list is non-empty |
| MenuItems.MenuItem.AddSubmenuItem | src/menu/MenuItem.h:36-38 | appends one child at the end, which makes the item a submenu |
| MenuItems.MenuItem.Activate | src/menu/MenuItem.h:51-53 | the action is called iff the pointer is set |
| MenuBuilder.CreateItem | src/menu/MenuBuilder.h:12-14 | a fresh leaf with the given label and action |
| MenuBuilder.CreateMenu | src/menu/MenuBuilder.h:17-21 | a fresh item with the given children and no action; it is a submenu iff the children are non-empty |
| MenuList.Enter | src/menu/MenuListView.cpp:200-212 | entering a submenu pushes the current list and shows the children from the top; an item with no children changes nothing |
| MenuList.Back | src/menu/MenuListView.cpp:227-235 | going back pops the most recent list and shows it from the top; with no history nothing changes |
| MenuList.BackUndoesEnter | src/menu/MenuListView.cpp:200-235 | entering a submenu then going back restores the list and history, selection reset |
| MenuList.EnterAllPushes | src/menu/MenuListView.cpp:200-212 | entering N submenus in a row pushes the N lists left behind, in order |
| MenuList.BackPops | src/menu/MenuListView.cpp:227-235 | N backs pop N lists and show the oldest of them |
| MenuList.RoundTrip | src/menu/MenuListView.cpp:200-235 | N submenus entered and N backs return to the original list and history |
| MenuList.ClipLabel | src/menu/MenuListView.cpp:125-133 | a label that fits is drawn whole; when maxChars >= 2 a longer one is cut to maxChars - 2 characters plus "..", exactly maxChars long; below two characters the whole label is followed by ".." |
| MenuList.CharsFor | src/menu/MenuListView.cpp:105-109 | the characters taken while pixels remain: the least count whose width covers the room |
| MenuList.Slice | src/menu/MenuListView.cpp:101-109 | the drawn part of the selected label: the characters from the start index that the room allows, never more |
| MenuList.SliceToWidth | src/menu/MenuListView.cpp:101-109 | the drawing loop builds exactly Slice |
| MenuList.LabelUpdate | src/menu/MenuListView.cpp:53-98 | the label scroll of the selected row for one draw: the reset on a selection change, then LabelStep only when the label is wider than the room |
| MenuList.LabelStep | src/menu/MenuListView.cpp:63-98 | a pause ends after 1500 ms; otherwise every scrollSpeed ms the offset moves by scrollStep towards the current end, stays in [0, overflow], and reaching an end starts a pause and reverses |
| MenuList.Reselect | src/menu/MenuListView.cpp:53-61 | a newly selected row restarts the label scroll from the left, not pausing, at now |
| MenuList.FittingLabelStaysPut | src/menu/MenuListView.cpp:53-63 | a newly selected label that fits has offset 0 |
| MenuList.MenuListView.constructor | src/menu/MenuListView.h:22-44 | the default geometry, scroll speed and step, "> " prefix, empty menu and no history |
| MenuList.MenuListView.CanGoBack | src/menu/MenuListView.cpp:238-241 | true iff the history holds a menu to go back to |
| MenuList.MenuListView.SetMenu | src/menu/MenuListView.cpp:168-174 | shows the new menu from the top and forgets the history |
| MenuList.MenuListView.MoveSelectionUp | src/menu/MenuListView.cpp:177-185 | the selection moves up one unless at the top; the window follows so the selection stays visible |
| MenuList.MenuListView.MoveSelectionDown | src/menu/MenuListView.cpp:188-197 | the selection moves down one exactly when it is below the unsigned bound size() - 1 (so an empty menu lets it move), and nothing changes otherwise; the window scrolls by one row exactly when the new selection falls below it |
| MenuList.MenuListView.EnterSubmenu | src/menu/MenuListView.cpp:200-212 | the navigation state becomes Enter of the selected item's children |
| MenuList.MenuListView.NavigateBack | src/menu/MenuListView.cpp:227-235 | the navigation state becomes Back of the old one |
| MenuList.MenuListView.ActivateSelectedItem | src/menu/MenuListView.cpp:214-224 | an action is called iff the selection is in range, the item is a leaf and its action is set, and it is that action |
| MenuList.MenuListView.HandleInput | src/menu/MenuListView.cpp:243-266 | only short clicks act. UP moves up with the window following, DOWN moves down as MoveSelectionDown, RIGHT enters, LEFT goes back. A short CENTER changes nothing and calls the selected item's action iff the selection is in range and the item is a leaf with an action. Any other button changes nothing and calls nothing |
| MenuList.MenuListView.SetMenuListViewHeight | src/menu/MenuListView.h:82-85 | sets the view height |
| MenuList.MenuListView.SetMenuListViewWidth | src/menu/MenuListView.h:91-94 | sets the view width |
| MenuList.MenuListView.SetScrollSpeed | src/menu/MenuListView.h:100-103 | sets the scroll speed |
| MenuList.MenuListView.SetScrollStep | src/menu/MenuListView.h:109-112 | sets the scroll step |
| MenuList.MenuListView.SetSelectedPrefix | src/menu/MenuListView.h:118-121 | sets the selection prefix |
| MenuList.MenuListView.SetOffsetX | src/menu/MenuListView.h:64-67 | sets the horizontal offset |
| MenuList.MenuListView.SetOffsetY | src/menu/MenuListView.h:73-76 | sets the vertical offset |
| MenuList.MenuListView.RowCount | src/menu/MenuListView.cpp:31-35 | the rows drawn are at most the window height and never run past the end of the list |
| MenuList.MenuListView.UpdateLabelScroll | src/menu/MenuListView.cpp:53-98 | the label scroll state becomes LabelUpdate of the old one |
| MenuList.MenuListView.DrawRow | src/menu/MenuListView.cpp:37-134 | the row's text is RowText; only the selected row steps the label scroll |
| MenuList.MenuListView.DrawMenu | src/menu/MenuListView.cpp:11-136 | one row per visible item from the first visible one, each RowText; the label scroll steps exactly when the selected row is in the window |
| TextViewer.DisplayText | src/display/TextDisplay.h:180-188 | a row is exactly charsPerLine characters |
| TextViewer.DisplayTextChars | src/display/TextDisplay.h:180-188 | character i of a row is the line's character at scroll + i, or a space past its end |
| TextViewer.Overhang | src/display/TextDisplay.h:198-199 | how far one line can scroll: its uint16_t length minus the width, or 0 |
| TextViewer.MaxOverhang | src/display/TextDisplay.h:190-207 | the scroll limit fits in a uint16_t |
| TextViewer.MaxOverhangIsMax | src/display/TextDisplay.h:190-207 | the scroll limit bounds every line's overhang and is 0 or attained by one of them |
| TextViewer.MaxOverhangSnoc | src/display/TextDisplay.h:195-204 | one more line raises the limit to the larger of the two |
| TextViewer.TextDisplay.ScrollEnd | src/display/TextDisplay.h:193 | the end of the scanned lines: the end of the window or of the buffer, whichever is first |
| TextViewer.TextDisplay.constructor | src/display/TextDisplay.h:36-46 | an empty buffer of maxLines lines with every counter at 0 |
| TextViewer.TextDisplay.ShiftIn | src/display/TextDisplay.h:68-76 | on a full buffer every line moves up one slot, the oldest is lost and the new one is last |
| TextViewer.TextDisplay.AddLine | src/display/TextDisplay.h:62-86 | below capacity the line is appended; at capacity the oldest is dropped first; the new line is selected and the window shows the last lines |
| TextViewer.TextDisplay.Clear | src/display/TextDisplay.h:88-98 | the held lines are emptied and every counter returns to 0 |
| TextViewer.TextDisplay.ScrollUp | src/display/TextDisplay.h:100-110 | the selection moves up one unless at the top, the window following |
| TextViewer.TextDisplay.ScrollDown | src/display/TextDisplay.h:112-122 | the selection moves down one unless on the last line; the window moves exactly when the new selection falls below it, and then ends at the selection |
| TextViewer.TextDisplay.GetMaxHorizontalScroll | src/display/TextDisplay.h:190-207 | the largest overhang of the lines in the window |
| TextViewer.TextDisplay.ScrollLeft | src/display/TextDisplay.h:124-128 | the scroll grows by step as a uint16_t sum, capped at the limit, which it never exceeds |
| TextViewer.TextDisplay.ScrollRight | src/display/TextDisplay.h:130-140 | the scroll shrinks by step, stopping at 0 |
| TextViewer.TextDisplay.HandleInput | src/display/TextDisplay.h:163-177 | short UP and DOWN move the selection and the window exactly as ScrollUp and ScrollDown; short LEFT/RIGHT scroll by 1 and double by 5; any other event changes nothing |
| TextViewer.TextDisplay.GetDisplayText | src/display/TextDisplay.h:180-188 | the padding loop and cut give exactly DisplayText |
| TextViewer.TextDisplay.DrawRow | src/display/TextDisplay.h:152-157 | one row of draw: the selection marker followed by the line's DisplayText |
| TextViewer.TextDisplay.Draw | src/display/TextDisplay.h:142-161 | one row per visible line from the first visible one, the selected one marked '>' and the others ' ', followed by DisplayText |
| Clock.Tick | src/status/StatusTime.h:52-56 | one minute forward keeps a valid time: minute + 1, or 0 with the hour advanced modulo 24 after minute 59 |
| Clock.TickAdvances | src/status/StatusTime.h:52-56 | a tick moves the minute of the day forward by one, modulo 1440 |
| Clock.TicksAdvance | src/status/StatusTime.h:48-58 | after n ticks the clock shows a valid time n minutes later, modulo a day |
| Clock.WholeDays | src/status/StatusTime.h:48-58 | a whole number of days of ticks brings the clock back to where it started |
| Clock.StatusTime.constructor | src/status/StatusTime.h:15 | the initial time as given, never updated |
| Clock.StatusTime.SetTime | src/status/StatusTime.h:42-45 | hours and minutes taken with C's `%` by 24 and 60; non-negative inputs give a valid time |
| Clock.StatusTime.Due | src/status/StatusTime.h:50 | an update is due when 60000 ms have passed on the wrapping clock, or the clock was never updated |
| Clock.StatusTime.Update | src/status/StatusTime.h:48-58 | when a minute has passed on the wrapping clock, or never updated, the time ticks once and now is remembered; otherwise nothing changes; validity is kept |
| Battery.IconFor | src/status/StatusBattery.cpp:87-97 | the icon for each state: charging overrides, then thresholds above 65, above 30, above 5, else empty, each as an iff |
| Battery.IconMonotone | src/status/StatusBattery.cpp:87-97 | when not charging, a higher level never selects an icon with fewer bars |
| Battery.PercentText | src/status/StatusBattery.cpp:101-107 | the percent text is four characters ending in '%', reads back as the level, and is right-aligned; "100%" at full |
| Battery.StatusBattery.constructor | src/status/StatusBattery.h:20-22 | level 100, not charging, percent shown |
| Battery.StatusBattery.SetLevel | src/status/StatusBattery.cpp:165-167 | the level is clamped into [0, 100] and kept as is when in range |
| Battery.StatusBattery.SetIsCharging | src/status/StatusBattery.cpp:170-172 | sets the charging flag |
| Battery.StatusBattery.SetShowPercent | src/status/StatusBattery.cpp:175-177 | sets the percent switch |
| Battery.StatusBattery.Text | src/status/StatusBattery.cpp:99-137 | text is printed iff the percent switch is on, and it is four characters that read back as the level |
| Battery.StatusBattery.GetWidth | src/status/StatusBattery.cpp:153-158 | the icon width, plus exactly the printed text's width when the percent is shown |
| Battery.StatusBattery.Layout | src/status/StatusBattery.cpp:114-149 | on either side icon and text do not overlap and both fit in GetWidth |

## Left out

- Pixels and drawing are not modelled: display calls, fonts, the
  drawScrollIndicator methods of MenuListView and TextDisplay, the battery
  sprite tables and their pixel loops, and the blinking cursors of the text
  input, list and checkbox. The draw methods are modelled for the state they
  change and the text they print.
- TextDisplay's calculateDisplayParams computes charsPerLine and
  visibleLines from the display size with a floating-point line spacing.
  These two become constructor parameters.
- The StatusBar container, the StatusBarElement base setters, the SH1106G
  display driver and the main.cpp sketch are not part of this model. The
  board's button configuration is modelled as `Buttons.MainButtons`.
- `millis()`, `digitalRead` and `pinMode` are not modelled as calls. The
  first two become parameters; `pinMode` in `begin` is left out.
- StatusTime's default constructor leaves hours and minutes uninitialised,
  so the model takes them as constructor parameters. StatusTime.draw's
  printf output with the blinking colon is left out.
- The getWidth/getHeight constants of StatusTime and StatusBattery are
  constants of the model, not members.
- The MenuListView getters are left out.
- Null pointers are only modelled for FormView.addElement. Menu items are
  never null.
- Characters are single bytes. There is no Unicode handling.
- Common.LongerThan compares a string length with an `int` width converted
  to unsigned. It assumes lengths below 2^31.
- Signed `int` overflow of indices and offsets is not modelled. These are
  unbounded integers here. Unsigned arithmetic wraps where the source uses
  it:
  - the `uint16_t` counters of TextDisplay, modulo 2^16;
  - the `uint8_t` click counter of ButtonManager, modulo 256;
  - the 32-bit `millis()` clock;
  - the `unsigned int` bounds of `String::substring` and the `size() - 1`
    bound of MenuListView.moveSelectionDown, modulo 2^32.
- Form.FormView.constructor: FormView.h declares no offsetX, offsetY,
  reduceWidth or reduceHeight, although FormView.cpp uses them. The model
  declares them and starts them at 0; the source does not say what they
  start at.
- Default arguments are not modelled; every such parameter is explicit:
  - TextDisplay's capacity of 300 lines (`maxLines = 300`, TextDisplay.h:36);
  - `defaultState = false` of CheckBoxElement (CheckBoxElement.h:36);
  - `defaultIndex = 0` of ListElement (ListElement.h:33);
  - `defaultValue = ""` of TextInputElement (TextInputElement.h:49);
  - `action = nullptr` of MenuItem and MenuBuilder::createItem (MenuItem.h:20,
    MenuBuilder.h:12), an absent action being `None`;
  - `step = 1` of TextDisplay.scrollLeft and scrollRight (TextDisplay.h:124,
    TextDisplay.h:130).
- Form.FormView.AddElement requires that the widget is not already in the
  form, so that no widget object is shared between two elements.
- MenuList.MenuListView.SetScrollStep requires a non-negative step. The
  label scroll with a negative step is not modelled.
- ListWidget.ListElement.Draw and CheckBox.CheckBoxElement.Draw state the
  exact slice only for texts shorter than 2^32 characters. Beyond that only
  the general substring result holds.
- TextViewer.TextDisplay.constructor requires a capacity of at least one
  line. With zero lines, addLine writes outside the array in the source.
- Battery.PercentText requires a level in [0, 100]. setLevel's clamp
  guarantees this.
- Destructors and memory ownership (`shared_ptr`, `delete[]`) are left out.
