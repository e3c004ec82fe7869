# virst core: binding table, displayed-model slot, tracker connection

A Dafny model of the core of virst, a desktop avatar renderer. The core is the part that
coordinates state between the UI, the render loop and the tracking receiver:

- `Tracker` (`tracker.dfy`, from `src/tracker/mod.rs`) holds the tracking-input vocabulary. It
  has bone axes, input references and their display labels. It also holds the binding kinds with
  the `simple()` defaults, and the per-parameter binding slot (`ParamBinding`) with its add,
  clear and query operations. The map `ParamBindings` and the key order of the `BTreeMap` behind
  it are defined here too.
- `Displayed` (`displayed_model.dfy`, from `src/displayed_model.rs`) is the displayed-model slot: a
  class with the optional model on display, a `u32` generation counter that wraps at 2^32, and
  the shared binding table. `SwapModel` and `CurrentModel` are its two operations. Beside the
  class, `Replay` describes what readers see after a sequence of swaps.
- `System` (`system.dfy`, from `src/tracker/system.rs`) is the `TrackerSystem` connection
  lifecycle: `new`, `reset`, `disconnect`, `active` and `connect`, over a join handle, an abort
  flag and the tracking data.
- `Tracking` (`tracking_config.dfy`, from `src/gui/model/tracking_config.rs`) covers the
  tracking-config window without its widgets. It builds a fresh unbound table for a model and
  the list of inputs a binding can select. It models the add/remove/edit transitions of
  `binding_toggles` and the type switch of `single_binding_edit`. It also models the frame
  protocol of `draw`: rebuild when the generation advanced, otherwise take the table from the
  shared slot, then publish it back.

The source updates state in place in three places: the slot, the tracker system and the window.
Each is a class whose methods state the whole new state. The binding slots and the candidate
list are values. `default_binding` and `clear_binding` rewrite an enum value in place; here they
are functions that return the rewritten value, and the table is updated with it.

Some consequences of the code are proved. They are easy to miss on a first reading:

- `draw` compares generations with `>` on `u32`. After the counter wraps from `0xFFFF_FFFF` to
  `0`, a newly swapped-in model is not picked up (`Tracking.WrappedSwapUnnoticed`).
- `connect` refuses while any join handle is held, even when the worker thread has already
  ended. The caller must `disconnect` first (`System.Lifecycle`).
- Choosing a binding type in the selector always installs that type's default. Choosing
  "Standard" on a standard binding therefore resets its input and ranges.
- The candidate list gives each bone's axes in the order X, Y, Z, Pitch, Yaw, Roll. That is the
  order of the loop in `binding_toggles`, not the declaration order of `InputBoneKind`.
- A `TrackingConfig` created while the slot already shows a model builds a fresh table for it.
  The first `draw` without a new generation then replaces that table with the shared slot's
  table, which is still empty, and publishes the empty table (the `else` branch of
  `Tracking.TrackingConfig.Draw`'s table clause). In the application the window is created
  on a slot that shows nothing yet, so this does not arise there.
- The source has no function that evaluates a binding (a linear remap of a live value). The
  only application code is commented out, and `map_value` in `src/main.rs` is never called. So
  the model has no resolve operation and no degenerate-range error.

## Model

| member | source | states |
|---|---|---|
| `Tracker.InputBoneKind.Name` | src/tracker/mod.rs:17-27 | every axis label is one to five characters with no space and no parenthesis |
| `Tracker.AxisNamesDistinct` | src/tracker/mod.rs:18-27 | the six axis labels are pairwise different |
| `Tracker.BoneNameShape` | src/tracker/mod.rs:38-46 | `None` shows as "<none>", a blendshape as its name, a bone as `name (axis)`; a bone label ends in ')' and is never "<none>" |
| `Tracker.BoneNameInjective` | src/tracker/mod.rs:42-44 | two bone inputs with the same label have the same bone name and the same axis |
| `Tracker.SimpleBinding` | src/tracker/mod.rs:61-68 | `simple()` is a standard binding with no input, input range (-30, 30), output range (-1, 1), dampen 0 |
| `Tracker.ExprBinding` | src/tracker/mod.rs:70-72 | `expr()` is the expression kind |
| `Tracker.ParamBinding.DefaultBinding` | src/tracker/mod.rs:82-87 | the slot becomes bound and keeps its dimension; a one-dimensional slot holds `simple()`, a two-dimensional one a pair of `simple()` |
| `Tracker.ParamBinding.ClearBinding` | src/tracker/mod.rs:88-93 | the slot becomes unbound and keeps its dimension |
| `Tracker.BoundIffNotUnbound` | src/tracker/mod.rs:95-107 | `is_bound` is exactly the negation of `is_unbound` |
| `Tracker.DefaultBindingIdempotent` | src/tracker/mod.rs:82-87 | adding the default binding twice equals adding it once |
| `Tracker.ClearBindingIdempotent` | src/tracker/mod.rs:88-93 | clearing twice equals clearing once |
| `Tracker.AddThenRemove` | src/tracker/mod.rs:82-93 | clearing a binding just added to an unbound slot gives the original slot back |
| `Tracker.StrLeTotal` | src/tracker/mod.rs:110 | the key order of the parameter map is total |
| `Tracker.StrLeAntisymmetric` | src/tracker/mod.rs:110 | two keys that are each at most the other are equal |
| `Tracker.StrLeTransitive` | src/tracker/mod.rs:110 | the key order is transitive |
| `Tracker.LeastKeyExists` | src/tracker/mod.rs:110 | every non-empty set of parameter names has a first name in key order |
| `Displayed.NextGeneration` | src/displayed_model.rs:31 | the generation goes up by one, and from the largest `u32` back to 0 |
| `Displayed.Swapped` | src/displayed_model.rs:29-32 | after a swap readers see the new model (or none) and the generation plus one modulo 2^32 |
| `Displayed.ReplayFromInitial` | src/displayed_model.rs:11-32 | from the default slot, after n swaps the generation is n mod 2^32 and the model is the last one swapped in, or none when n = 0 |
| `Displayed.DisplayedModel.constructor` | src/displayed_model.rs:11-16 | the default slot shows no model, has generation 0 and an empty binding table |
| `Displayed.DisplayedModel.CurrentModel` | src/displayed_model.rs:19-27 | returns the model on display and its generation and changes nothing |
| `Displayed.DisplayedModel.SwapModel` | src/displayed_model.rs:29-32 | the slot shows the given model (also none), the generation advances as `Swapped` says, and the bindings are untouched |
| `System.TrackerSystem.constructor` | src/tracker/system.rs:27-33 | no worker handle, abort flag clear, default data, not active |
| `System.TrackerSystem.Reset` | src/tracker/system.rs:39-42 | the data returns to its default; handle, abort flag and liveness are unchanged |
| `System.TrackerSystem.Disconnect` | src/tracker/system.rs:44-49 | without a handle nothing changes; with one the abort flag is set and the handle is gone; afterwards not active |
| `System.TrackerSystem.Connect` | src/tracker/system.rs:58-103 | with a handle held it returns `AlreadyConnectedError` and changes nothing; otherwise it clears the abort flag, holds a running worker's handle and returns `Ok(())` |
| `System.TrackerSystem.WorkerStops` | src/tracker/system.rs:51-56 | once the worker thread has ended, `active()` is false although the handle is still held |
| `Tracking.UnboundTable` | src/gui/model/tracking_config.rs:20-30 | the fresh table has exactly the puppet's parameter names, every entry unbound, two-dimensional exactly for vector parameters |
| `Tracking.BindingsForModel` | src/gui/model/tracking_config.rs:20-30 | the insertion loop builds exactly `UnboundTable` |
| `Tracking.BlendInputsAt` | src/gui/model/tracking_config.rs:118-120 | one blendshape input per blendshape name, in iteration order |
| `Tracking.BoneInputsAt` | src/gui/model/tracking_config.rs:121-126 | six bone inputs per bone; position 6j+a holds bone j with the a-th axis of X, Y, Z, Pitch, Yaw, Roll |
| `Tracking.CandidateInputsShape` | src/gui/model/tracking_config.rs:116-126 | the list has length 1 + blendshapes + 6 x bones: `None` first, then the blendshapes, then the bone axes |
| `Tracking.CandidateInputsComplete` | src/gui/model/tracking_config.rs:116-126 | every blendshape and every one of the six axes of every bone can be selected |
| `Tracking.PossibleBindings` | src/gui/model/tracking_config.rs:116-127 | the push loops build exactly the candidate list |
| `Tracking.ApplyEdit` | src/gui/model/tracking_config.rs:171-241 | choosing a type installs that type's default and the selector then shows it; other edits keep the kind and leave an expression binding alone; on a standard binding, choosing an input stores it and the input range field and output range field each store the new range, every other field is kept, and dampen is never changed |
| `Tracking.EditSlot` | src/gui/model/tracking_config.rs:243-281 | an edit reaches only the binding it is made in: editing the X binding of a pair leaves the Y binding unchanged and the other way round; dimension and boundness are kept |
| `Tracking.ApplyToggle` | src/gui/model/tracking_config.rs:129-167 | dimension kept; "Add Binding" acts only on unbound slots, through `default_binding`; "Remove Binding" acts only on bound slots, through `clear_binding`; nothing else changes boundness; selected inputs come from the candidates |
| `Tracking.ApplyToggles` | src/gui/model/tracking_config.rs:129-167 | the clicks of a frame neither add nor remove names, keep every dimension and leave entries without clicks unchanged |
| `Tracking.TogglesKeepMatch` | src/gui/model/tracking_config.rs:129-167 | a table that matches the shown model's parameters still matches after the clicks |
| `Tracking.TrackingConfig.constructor` | src/gui/model/tracking_config.rs:33-46 | records the slot's generation and model; the table is empty with no model, else the fresh table for it |
| `Tracking.TrackingConfig.BindingToggles` | src/gui/model/tracking_config.rs:109-169 | applies the frame's clicks as `ApplyToggles` says, visiting every name once in ascending key order |
| `Tracking.TrackingConfig.ToggleEntries` | src/gui/model/tracking_config.rs:129-168 | the loop over the table visits every name once in ascending key order and leaves each entry as `ApplyToggle` says for its click, so the table becomes `ApplyToggles` of it |
| `Tracking.TrackingConfig.Draw` | src/gui/model/tracking_config.rs:48-107 | rebuild (new generation, model and fresh table) exactly when the observed generation is greater; otherwise the table comes from the shared slot; clicks are applied only when the window was open at the start of the frame with a model; the title-bar close button closes the window; the shared slot ends up holding the table and the local one is empty; a matching table stays matching |

## Left out

- The worker thread body (`src/tracker/system.rs:69-99`) is not modelled. That covers the UDP
  bind, the 500 ms receive timeout, OSC decoding, `catch_unwind` and the fold into `VmcData`.
  It is I/O and foreign code. The thread's ending is the environment step `WorkerStops`.
  Joining in `Disconnect` is taken to return once the worker has seen the abort flag.
- Memory orderings, `ArcSwapOption` and the mutexes around `data` and `bindings` are not
  modelled. Every operation is modelled as one sequential step. Lock poisoning is left out
  with them: if the foreign `update_from_packet` panics while the worker holds the data lock
  (`src/tracker/system.rs:84`), the lock is poisoned, and every later `.lock().unwrap()` on it
  panics. The two lines below name the members this affects. The intermediate empty shared
  table that `draw` leaves while it holds the table is not visible to another thread in this
  model.
- `System.TrackerSystem.Reset` always succeeds; `reset` panics on a poisoned data lock
  (`src/tracker/system.rs:40`).
- `Tracking.TrackingConfig.BindingToggles` always succeeds; `binding_toggles` panics on a
  poisoned data lock (`src/gui/model/tracking_config.rs:116`).
- `Arc` sharing of the model is not modelled. A model is a value reduced to its parameter names
  and their `is_vec2` flags; the rest of inox2d's `Model` and `Puppet` is out of scope.
- `VmcData` comes from an external crate. It is modelled as two maps, and the order in which it
  yields its names is an input (`blendOrder`, `boneOrder`) required to list each name once.
- The `f32` fields of a standard binding are `real` values. No operation computes with them, so
  rounding does not arise. `map_value` in `src/main.rs` is dead floating-point code.
- The egui widgets are not modelled: windows, headers, collapse/expand, combo-box ids and the
  drag speed. What the operator clicks in a frame is an input map from parameter name to one
  event, and whether the title-bar close button was clicked is a boolean input to `Draw`.
- The lock on the tracker data taken in `binding_toggles` is not modelled; the data is read by
  value from `TrackerSystem.data`.
- `src/main.rs`, `src/egui_integration.rs`, `src/gui/mod.rs`, `src/gui/about.rs`,
  `src/gui/general_settings.rs`, `src/gui/tracker.rs`, `src/gui/model/manager.rs` and
  `src/app/model/mod.rs` are not part of this model. They hold rendering, window glue, file
  dialogs and address parsing.
