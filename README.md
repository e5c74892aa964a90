# falltergeist engine core, modelled in Dafny

This project models the bookkeeping core of the falltergeist engine, a
reimplementation of the Fallout 1/2 engine. It covers:

- **The game's state stack** (`Game`, from src/Game/Game.cpp). A stack of
  UI/game states with push, pop, replace and shutdown. Popped states go to a
  deferred-delete list. Two views are derived from the stack: the *visible*
  states, from the topmost fullscreen state up, and the *active* states,
  from the top down to the first modal or fullscreen state. The game also
  holds the lazily loaded global variables (GVARS).
- **The location** (`Location`, from src/State/Location.cpp). It has
  bounds-checked map variables (MVARS). Objects move between per-hexagon
  lists, and an object can be destroyed. It builds the cursor's action-icon
  list and handles the LOOK/ROTATE/TALK actions. When the location is
  entered, it initialises scripts and calls `map_enter_p_proc` in a fixed
  order.
- **The inventory widgets** (`InventoryUI`, from src/UI/ItemsList.cpp and
  src/UI/InventoryItem.cpp). A list shows a scrolling window over a shared
  item vector, with `unsigned int` offset arithmetic. Items are dragged and
  dropped between lists, and between a list and the armor or hand slot.
- **The premade-character screen** (`NewGame`, from src/State/NewGame.cpp).
  It holds three premade dudes and a cyclic selection, and starting the game
  replaces the state stack.
- **Engine objects** (`Objects`, from src/Game/Object.h). This covers the
  `Orientation` value type (reduction modulo 6), the object type tags and
  the declared field defaults of an object.
- **Two scripting-VM opcodes** (`Opcodes`). `obj_item_subtype` (0x80C9) and
  `obj_open` (0x8131) are run against a model of the VM's data stack.

Objects the engine mutates in place are Dafny classes. This applies to
states, the game, the location, objects, hexagons, list widgets and item
widgets, and the shared item vector. Their methods' `modifies` frames name
single fields. A whole object is named only where it has a single mutable
field (the item vector, a hexagon, the VM's data stack) or where the
contract states every field (the state `pushState` pushes).

Calls into the scripting VM are recorded in a `trace` of `ScriptEvent`s, so
that their order can be stated. A state's emitted "activate"/"deactivate"
events are recorded in its `events` log. C++ exceptions and the VM's
`_error` become `Outcome`/`Result` error values.

`unsigned int` arithmetic in the list widget wraps modulo 2^32 explicitly.
`unsigned char` in `Orientation` wraps modulo 256.

Shared helpers:

- `Seqs` holds the "erase the first match, then break" loop (`EraseFirst`,
  specified by `RemoveFirst`) and the reversed traversals.
- `Variables` holds the bounds-checked table behind both GVARS and MVARS.
- `Outcomes` holds the option, result and outcome types.

## Model

| member | source | states |
|---|---|---|
| Objects.OrientationOf | src/Game/Object.h:66-69 | the stored facing is congruent to the given `unsigned char` modulo 6, and always 0..5 |
| Objects.NamedFacings | src/Game/Object.h:61-66 | the default orientation, built from the default argument NS, is the facing 0 |
| Objects.OrientationOfIdempotent | src/Game/Object.h:66-71 | building an orientation from an orientation's value gives it back |
| Objects.OrientationOfPeriodic | src/Game/Object.h:66-69 | values six apart give the same orientation |
| Objects.GameObject.constructor | src/Game/Object.h:214-238 | a new object can walk, light and shoot through; it is not flat, not wall-trans-end and not in render; PID = FID = -1, elevation 0, facings NS, trans DEFAULT, no script, no hexagon, light 0 |
| Seqs.FirstIndex | src/State/Location.cpp:825-832 | the index found is the first occurrence, or the length when there is none |
| Seqs.RemoveFirst | src/State/Location.cpp:825-832 | erasing the first match removes exactly one copy when present (multiset minus one) and changes nothing when absent |
| Seqs.RemoveFirstAt | src/State/Location.cpp:859-866 | the elements before the first match are kept and the rest shift down by one |
| Seqs.EraseFirst | src/UI/ItemsList.cpp:206-214 | the iterator loop that erases the first match and breaks computes `RemoveFirst` |
| Seqs.RemoveFirstAfterAppend | src/UI/ItemsList.cpp:172-175 | appending an item and then erasing its first match restores a list that did not hold it, and otherwise drops the earlier copy |
| Seqs.Reverse | src/Game/Game.cpp:121 | the reversal has the same length, with element k taken from position n-1-k |
| Seqs.LastTrue | src/Game/Game.cpp:242-247 | the index returned is flagged and nothing above it is, or -1 when nothing is flagged |
| Variables.OutOfRangeFails | src/Game/Game.cpp:199-217 | reading or writing a variable fails exactly when the number is at or past the end, and the error names the number |
| Variables.GetAfterSet | src/State/Location.cpp:797-813 | writing then reading a variable yields the value written; every other variable and the table size are unchanged |
| Game.State.Init | src/State/Location.cpp:98-104 | initialising a state marks it initialised; a location (and the new-game screen) becomes fullscreen and modal, the player-options screen modal and not fullscreen; its active flag and events are untouched |
| Game.ViewStart | src/Game/Game.cpp:242-247 | the view starts at the topmost flagged state, or at the bottom when none is flagged |
| Game.ViewStartAt | src/Game/Game.cpp:242-247 | a view starts at k whenever k is flagged (or is the bottom) and nothing above it is |
| Game.LoadedGvarsIdempotent | src/Game/Game.cpp:219-221 | loading GVARS twice is loading once |
| Game.LoadedGvars | src/Game/Game.cpp:219-227 | variables that are already loaded are never replaced, and after loading the array is empty only when the file lists no variables |
| Game.Game.TopState | src/Game/Game.cpp:229-232 | `topState(offset)` is a state of the stack |
| Game.Game.PushState | src/Game/Game.cpp:125-131 | the state goes on top and every state below stays; it is initialised, active and has emitted "activate"; an initialised state keeps its `fullscreen`/`modal`; pushed uninitialised, a location or new-game screen becomes fullscreen and modal and the player-options screen modal only |
| Game.Game.PopState | src/Game/Game.cpp:133-142 | an empty stack is left alone; otherwise exactly the top state leaves, joins the deferred-delete list, becomes inactive and emits "deactivate" |
| Game.Game.PopAll | src/Game/Game.cpp:121 | the loop empties the stack; every state popped is inactive and has emitted "deactivate", and they join the delete list top first |
| Game.Game.Shutdown | src/Game/Game.cpp:117-123 | after shutdown the stack is empty and every former state was popped, top first |
| Game.Game.SetState | src/Game/Game.cpp:144-148 | after `setState(s)` the stack is exactly `[s]`, `s` is initialised and active with `fullscreen`/`modal` as `pushState` leaves them, and every former state was popped, top first |
| Game.Game.SetPlayer | src/Game/Game.cpp:171-174 | the player becomes the given dude |
| Game.Game.FindLocationState | src/Game/Game.cpp:186-197 | the result is the bottom-most location state, or null when there is none |
| Game.Game.VisibleStates | src/Game/Game.cpp:234-254 | empty for an empty stack; otherwise the stack from the topmost fullscreen state (or the bottom) to the top, in order |
| Game.Game.ActiveStates | src/Game/Game.cpp:256-289 | returns, top first, the states down to and including the first modal or fullscreen one; they end active (emitting "activate" only if they were inactive) and every state below ends inactive (emitting "deactivate" only if it was active) |
| Game.Game.ActivateDownToStop | src/Game/Game.cpp:263-277 | the first loop stops at the view's start; everything it collects ends active and nothing below it is touched |
| Game.Game.DeactivateBelow | src/Game/Game.cpp:279-287 | the second loop leaves every state below the view inactive, emitting "deactivate" only for active ones, and touches nothing above |
| Game.Game.InitGvars | src/Game/Game.cpp:219-227 | the variables are copied from the file's list only while the array is empty |
| Game.Game.Gvar | src/Game/Game.cpp:209-217 | after loading, the read fails for a number past the end and otherwise returns that variable |
| Game.Game.SetGvar | src/Game/Game.cpp:199-207 | after loading, the write fails for a number past the end (array unchanged) and otherwise stores exactly that variable |
| Location.CursorIcons | src/State/Location.cpp:270-306 | the list ends with LOOK, INVENTORY, SKILL, CANCEL and has exactly one more icon for USE and one more for ROTATE or TALK; USE is present (once, first) iff the script has `use_p_proc` or the object is a door or a container; ROTATE iff a dude; TALK iff a critter |
| Location.RotatedOrientation | src/State/Location.cpp:911-920 | ROTATE advances the facing by one modulo 6, as the Orientation constructor stores it |
| Location.KeyRotateRight | src/State/Location.cpp:735-739 | the "." key, `orientation() + 1` through `unsigned char` and the Orientation constructor, turns one step on modulo 6 |
| Location.KeyRotateLeft | src/State/Location.cpp:729-734 | the "," key, `orientation() + 5` through `unsigned char` and the Orientation constructor, turns one step back modulo 6 |
| Location.RotateIsKeyRight | src/State/Location.cpp:735-739 | the ROTATE action turns the same way as the "." key |
| Location.KeyLeftUndoesRotate | src/State/Location.cpp:729-734 | the "," key undoes a ROTATE |
| Location.RotateUndoesKeyLeft | src/State/Location.cpp:729-734 | a ROTATE undoes the "," key |
| Location.RotatedTimesAdvance | src/State/Location.cpp:916-918 | n ROTATE actions advance the facing by n modulo 6 |
| Location.FullTurn | src/State/Location.cpp:916-918 | six ROTATE actions return to the start and no fewer do |
| Location.ObjectInitsCover | src/State/Location.cpp:472-478 | the object loop initialises only the objects' scripts, and initialises every object that has one |
| Location.MapEnterHooks | src/State/Location.cpp:490-493 | `map_enter_p_proc` is requested of every object exactly once, last inserted first |
| Location.Location.EnterOrder | src/State/Location.cpp:466-494 | on location enter every initialisation precedes every `map_enter_p_proc`; every scripted object is initialised; the location script is called first, then the player, then the objects in reverse insertion order |
| Location.Location.Think | src/State/Location.cpp:466-494 | the first call drops the enter flag and makes exactly the enter calls; later calls make none |
| Location.Location.InitializeScripts | src/State/Location.cpp:470-482 | initialises the location script, then the objects' scripts in order, then the player's |
| Location.Location.InitializeObjectScripts | src/State/Location.cpp:472-478 | the objects' scripts are initialised in insertion order |
| Location.Location.CallMapEnter | src/State/Location.cpp:484-493 | `map_enter_p_proc` of the location script, then the player, then the objects from the back |
| Location.Location.CallObjectsMapEnter | src/State/Location.cpp:490-493 | the reverse iteration over the objects requests `map_enter_p_proc` last object first |
| Location.Location.Mvar | src/State/Location.cpp:806-813 | a read fails for a number past the end, otherwise returns that variable |
| Location.Location.SetMvar | src/State/Location.cpp:797-804 | a write fails for a number past the end (variables unchanged), otherwise stores exactly that variable |
| Location.Location.OnStateDeactivate | src/State/Location.cpp:116-120 | nothing stays under the cursor and the action-cursor timer is reset |
| Location.Location.MoveObjectToHexagon | src/State/Location.cpp:820-853 | the first occurrence leaves the old hexagon's list (even when old and new are the same), the object is appended to the new one, and it points at the new hexagon |
| Location.Location.DestroyObject | src/State/Location.cpp:855-876 | `destroy_p_proc` is requested; the first occurrence leaves the hexagon's list and the location's objects; the cursor object is cleared only if it was this object |
| Location.Location.HandleAction | src/State/Location.cpp:895-935 | LOOK requests the description; ROTATE turns a dude one step and fails for any other object; TALK calls a critter's `talk_p_proc` and fails otherwise; other icons change nothing |
| InventoryUI.SizeOf | src/UI/InventoryItem.cpp:199-210 | an item is 70x49 in a list, 90x63 in a slot, and the base size while dragged |
| InventoryUI.InventoryItem.Size | src/UI/InventoryItem.cpp:199-210 | only a dragged item's size depends on the widget's own size; a list or slot item has the same size whatever it is |
| InventoryUI.InventoryItem.Pixel | src/UI/InventoryItem.cpp:104-108 | the answer is 0 or 1, and 1 exactly when there is an item and the point is inside its box |
| InventoryUI.InventoryItem.HitBoxByType | src/UI/InventoryItem.cpp:104-108 | an item answers exactly inside 70x49 in a list, 90x63 in a slot, and the widget's own size while dragged |
| InventoryUI.InventoryItem.Texture | src/UI/InventoryItem.cpp:72-93 | no texture exactly when there is no item; otherwise the slot, drag or inventory picture for the type |
| InventoryUI.InventoryItem.PixelShowsTexture | src/UI/InventoryItem.cpp:104-108 | every point the item answers to has a picture to show |
| InventoryUI.InventoryItem.OnMouseDragStart | src/UI/InventoryItem.cpp:124-130 | the current type is remembered and the item becomes a dragged one |
| InventoryUI.InventoryItem.OnMouseDrag | src/UI/InventoryItem.cpp:132-135 | the offset moves by the event's offset |
| InventoryUI.InventoryItem.OnMouseDragStop | src/UI/InventoryItem.cpp:137-148 | the remembered type comes back, the offset is (0, 0), and "itemdragstop" is emitted at the mouse position |
| InventoryUI.InventoryItem.OnArmorDragStop | src/UI/InventoryItem.cpp:150-175 | outside the slot, or not from a list: nothing changes, neither the slot, the player, nor the list's vector or widgets; otherwise the dragged item leaves the list, the previous item joins it, the slot holds the dragged item, and the player wears it only if it is armor |
| InventoryUI.InventoryItem.OnHandDragStop | src/UI/InventoryItem.cpp:177-197 | the same swap as the armor slot, without touching the player; a drop outside the slot changes neither the slot nor the list's vector or widgets |
| InventoryUI.InventoryItem.TakeFromList | src/UI/InventoryItem.cpp:158-169 | the slot's swap with a list: the list keeps its vector, which becomes `SlotSwap` of the old contents, and its window is rebuilt; only the slot's item and the list's widgets change besides |
| InventoryUI.SlotSwap | src/UI/InventoryItem.cpp:161-168 | the swap keeps the list's items as a multiset: minus the dragged item, plus the slot's previous item when there was one |
| InventoryUI.TransferKeepsItems | src/UI/ItemsList.cpp:169-176 | moving an item from one list's vector to another's keeps every item exactly once between them |
| InventoryUI.Window | src/UI/ItemsList.cpp:72-80 | the window holds at most `_slotsNumber` items, the vector's items from the offset onward in order, and is full whenever enough items follow |
| InventoryUI.WindowScrollDown | src/UI/ItemsList.cpp:234-238 | scrolling down drops the window's top item and shows the next item of the vector, if any |
| InventoryUI.ItemsList.CanScrollDown | src/UI/ItemsList.cpp:223-226 | when the sum does not wrap, `canScrollDown` holds exactly when the window is full and more items follow it |
| InventoryUI.ItemsList.CanScrollUp | src/UI/ItemsList.cpp:218-221 | `canScrollUp` holds exactly when scrolling up moves the window towards the start instead of wrapping the offset |
| InventoryUI.DragIndexPicks | src/UI/ItemsList.cpp:118 | a point inside the list picks the slot it lies in; a point just above it converts to a huge unsigned index that picks no slot |
| InventoryUI.DragIndex | src/UI/ItemsList.cpp:118 | the difference is taken as an `unsigned int`: itself when it is non-negative, plus 2^32 when it is negative, then divided by the slot height |
| InventoryUI.ItemsList.Update | src/UI/ItemsList.cpp:72-80 | the `unsigned int` loop rebuilds fresh widgets for exactly the window's items, in order |
| InventoryUI.ItemsList.ScrollUp | src/UI/ItemsList.cpp:228-232 | the offset drops by one (wrapping below 0), by exactly one when `canScrollUp` held, and the window is rebuilt |
| InventoryUI.ItemsList.ScrollDown | src/UI/ItemsList.cpp:234-238 | the offset grows by one (wrapping at 2^32) and the window is rebuilt |
| InventoryUI.ItemsList.AddItem | src/UI/ItemsList.cpp:198-202 | the widget's item is appended to the vector and the window is rebuilt |
| InventoryUI.ItemsList.RemoveItem | src/UI/ItemsList.cpp:204-216 | only the first occurrence of the widget's item leaves the vector (none if absent) and the window is rebuilt |
| InventoryUI.ItemsList.OnMouseDragStart | src/UI/ItemsList.cpp:116-132 | the widget at the computed index is dragged (typed DRAG and centred on the mouse) when the index is below the number of widgets, and only its type and offset change; otherwise nothing is dragged |
| InventoryUI.ItemsList.OnMouseDrag | src/UI/ItemsList.cpp:134-141 | a dragged widget follows the mouse; only its offset changes |
| InventoryUI.ItemsList.OnMouseDragStop | src/UI/ItemsList.cpp:143-157 | a dragged widget is reset to offset (0, 0) and the list's type, its item unchanged, and "itemdragstop" is emitted; without one nothing is emitted |
| InventoryUI.ItemsList.OnItemDragStop | src/UI/ItemsList.cpp:159-191 | a drop outside the list changes nothing: neither vector, neither list's widgets, the slot or the player; from another list the dragged item is appended here and its first occurrence leaves the vector the source holds, and when the two lists share one vector this list keeps the widgets `addItem` built; from a slot the slot's item is appended and the slot is emptied, nothing else of it changing, and an emptied armor slot takes the player's armor off |
| InventoryUI.ItemsList.DropFromList | src/UI/ItemsList.cpp:169-176 | the list-to-list transfer: with separate vectors the item is appended here and its first occurrence leaves the source's; with one shared vector it is appended and then its first occurrence removed, this list showing the window of the vector after the append; the source is rebuilt |
| InventoryUI.ItemsList.DropWithinVector | src/UI/ItemsList.cpp:169-176 | two lists over one vector: the vector ends as `RemoveFirst` of itself plus the item, and a list other than the source keeps the widgets built after the append |
| InventoryUI.ItemsList.DropAcrossVectors | src/UI/ItemsList.cpp:169-176 | two vectors: this one gains the item at its end and the source's loses its first occurrence; both lists show their windows |
| InventoryUI.ItemsList.RemoveDragged | src/UI/ItemsList.cpp:173-174 | the source's `removeItem` then `update`: the first occurrence leaves its vector and it shows the new window |
| InventoryUI.ItemsList.DropFromSlot | src/UI/ItemsList.cpp:178-188 | the slot's item is appended here and the window rebuilt; the slot is emptied and keeps its type, offset and position; the player's armor comes off exactly when an armor item leaves a SLOT-typed widget |
| NewGame.NextSelection | src/State/NewGame.cpp:163-174 | the next selection is one more modulo 3 |
| NewGame.PrevSelection | src/State/NewGame.cpp:176-187 | the previous selection is one less modulo 3 |
| NewGame.SelectionCycle | src/State/NewGame.cpp:163-187 | previous undoes next and next undoes previous; three steps either way return to the start, and fewer do not |
| NewGame.NewGame.Init | src/State/NewGame.cpp:58-128 | the first call makes the screen fullscreen and modal and creates exactly three distinct premade dudes, showing the selected one; later calls change nothing; the screen's active flag and events are never touched |
| NewGame.NewGame.DoNext | src/State/NewGame.cpp:163-174 | the selection advances cyclically, stays in 0..2, and the shown character is the selected one |
| NewGame.NewGame.DoPrev | src/State/NewGame.cpp:176-187 | the selection goes back cyclically, stays in 0..2, and the shown character is the selected one |
| NewGame.NewGame.DoBeginGame | src/State/NewGame.cpp:135-140 | the selected character becomes the player; every former state is popped, top first, and the stack is exactly one new location state, initialised, fullscreen, modal and active |
| Opcodes.SubtypeCode | src/VM/Handlers/Opcode80C9Handler.cpp:51-58 | the code is -1 exactly for null and for non-items; otherwise it is the subclass's place in Armor, Container, Drug, Weapon, Ammo, Misc, Key |
| Opcodes.SubtypeCodesDistinct | src/VM/Handlers/Opcode80C9Handler.cpp:51-57 | distinct item subclasses get distinct codes |
| Opcodes.DataStack.PopObject | src/VM/Handlers/Opcode80C9Handler.cpp:50 | the top value leaves the stack and must hold an object; an empty stack fails |
| Opcodes.Op80C9 | src/VM/Handlers/Opcode80C9Handler.cpp:47-59 | one object is popped and one integer in -1..6 is pushed in its place; the values below are untouched |
| Opcodes.Op8131 | src/VM/Handlers/Opcode8131Handler.cpp:38-59 | one object is popped and nothing is pushed; null is an error; a door or a container ends opened, nothing else of it changing; any other object is an error and opens nothing |

## Left out

- Rendering, layout, sound, the mouse-cursor state stack, SDL event plumbing and wall-clock timing are not modelled. This covers `render`, `pixel` of the list, `playACMSound`, `mouse()->pushState/popState`, `Game::run` and the timer-driven part of `Location::think`.
- Loading resources is not modelled: map, GAM, GCD and BIO files. The GVARS file is the constant `gamGvars`, and the premade dudes carry no loaded statistics.
- The scripting VM is not modelled. That means its interpreter loop, its data stack class and `_error`. `popObject` is modelled as "pop the top value, which must hold an object", with underflow and type errors as failures. `_error` is modelled as stopping the handler. Because `_error` is not part of this model, a null object in `obj_open` reports only its own error; the model does not check whether the code continues past the first `_error`.
- `Object.cpp` and the headers of the door, container and dude classes are not part of this model. A `map_enter_p_proc`, `destroy_p_proc`, `description_p_proc` or `talk_p_proc` request is recorded as made to the object, whatever the object then does without a script. The `opened` and `armorSlot` fields are plain fields of the object.
- `Rect::inRect` is not part of this model. It is taken to be the half-open box.
- InventoryItem.h is not part of this model, so a new item widget is taken to start with `_type` and `_oldType` INVENTORY, at position and offset (0, 0). The constructor at src/UI/InventoryItem.cpp:48-55 sets only the item.
- NewGame.h is not part of this model, so `_selectedCharacter` is taken to start at 0, the combat dude.
- ItemsList.h is not part of this model, so `_slotHeight` is taken to be `unsigned int`. The drag-start subtraction therefore converts to unsigned before the division.
- `_statesForDelete.clear()` at the end of a frame, and the destruction of states and objects, are not modelled. Memory in the model is never freed.
- Location.Location.HandleAction: the USE branch starts the dude's "al" animation and registers a frame handler; the model changes nothing for USE.
- InventoryUI.ItemsList.OnItemDragStop: in a drop of a list onto itself, `addItem` rebuilds the widgets before `draggedItem()` is read again, so the source reads a destroyed widget. The model reads the widget's item as if it were still alive; it does not capture that use-after-free, nor the stale `_draggedItem` left after any rebuild.
- InventoryUI.ItemsList.Update: requires (through `Valid`) that the item vector holds fewer than 2^32 items, where the `unsigned int` index could otherwise wrap. AddItem, RemoveItem, ScrollUp, ScrollDown, OnItemDragStop and the slot handlers carry the same bound.
- Game.State.Init: only the `init()` overrides of the location, the new-game screen and the player-options screen (src/State/PlayerCreateOptions.cpp:54-61) are modelled; for every other kind of state the flags after `init` are left unstated. PushState runs only this `State` part of `init`, so `NewGame.Init`'s creation of the three dudes is not reached through PushState.
- Game.Game.PushState: requires the state not to be on the stack already. The source would hold it in two `unique_ptr`s. Game.Game.SetState has the same requirement, since the state would otherwise sit both in `_statesForDelete` and in `_states`.
- Game.Game.TopState: requires the offset to be within the stack. The source indexes past the end without a check.
- Location.Location.DestroyObject: requires the object to stand on a hexagon, because the source dereferences `hexagon()` without a check.
- NewGame.NewGame.DoNext: requires the screen to be initialised. Before `init`, `_characters.at` throws `out_of_range`, and that exception is not modelled. The same holds for DoPrev and DoBeginGame.
- Location.Location.Think: the player is a parameter (the source asks the game for it). The enter calls are stated against the location's objects and scripts as they were on entry, which the method does not change.
- `Game::init`, `handle`, `think` and `render` of the game are not modelled, and neither are `doEdit`, `doCreate` and `doBack` of the new-game screen. They create renderers, windows and other screens.
- Tile coordinates, the camera, exit grids and `Opcode8119` are not modelled.
