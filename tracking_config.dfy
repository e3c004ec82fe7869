/**
 * The tracking-config window (src/gui/model/tracking_config.rs) with the egui
 * calls taken out: building a fresh binding table for a model, the list of
 * inputs a binding can select, the per-entry add/remove/edit transitions, and
 * the frame protocol that rebuilds the table when the displayed model's
 * generation advances and otherwise round-trips it through the shared slot.
 *
 * What the operator clicks in a frame is an input: one `ToggleEvent` per
 * parameter name at most.
 */
module Tracking {
  import opened Wrappers
  import opened Tracker
  import opened Displayed
  import opened System

  /*
   * Fresh tables (`bindings_for_model`).
   */

  /** The table for a puppet: one unbound slot per parameter, two-dimensional exactly for vector parameters. */
  function UnboundTable(puppet: Puppet): (t: ParamBindings)
    ensures t.Keys == puppet.parameters.Keys
    ensures forall k :: k in t ==> t[k].IsUnbound() && (t[k].TwoDim? <==> puppet.parameters[k].isVec2)
  {
    map k | k in puppet.parameters :: UnboundSlot(puppet.parameters[k])
  }

  function UnboundSlot(p: Param): (slot: ParamBinding)
    ensures slot.IsUnbound() && (slot.TwoDim? <==> p.isVec2)
  {
    if p.isVec2 then TwoDim(Option.None) else OneDim(Option.None)
  }

  /** The table the window starts from for what the slot shows: empty when no model is shown. */
  function TableFor(m: Option<Model>): (t: ParamBindings)
    ensures TableMatches(t, m)
    ensures forall k :: k in t ==> t[k].IsUnbound()
  {
    match m
    case None => map[]
    case Some(model) => UnboundTable(model.puppet)
  }

  /** `bindings_for_model`: inserts an unbound slot for every parameter of the puppet. */
  method BindingsForModel(puppet: Puppet) returns (out: ParamBindings)
    ensures out == UnboundTable(puppet)
  {
    out := map[];
    var todo := puppet.parameters.Keys;
    while todo != {}
      invariant todo <= puppet.parameters.Keys
      invariant out.Keys == puppet.parameters.Keys - todo
      invariant forall k :: k in out ==> out[k] == UnboundSlot(puppet.parameters[k])
      decreases todo
    {
      var k :| k in todo;
      if puppet.parameters[k].isVec2 {
        out := out[k := TwoDim(Option.None)];
      } else {
        out := out[k := OneDim(Option.None)];
      }
      todo := todo - {k};
    }
  }

  /*
   * The inputs a binding can select (built at the top of `binding_toggles`).
   */

  /** The axes offered for each bone, in the order the list uses. */
  const AxisOrder: seq<InputBoneKind> := [X, Y, Z, Pitch, Yaw, Roll]

  function BlendInputs(blends: seq<string>): (r: seq<InputKind>)
    ensures |r| == |blends|
  {
    if blends == [] then [] else BlendInputs(blends[..|blends| - 1]) + [Blendshape(blends[|blends| - 1])]
  }

  function BoneRow(bone: string): (r: seq<InputKind>)
    ensures |r| == 6
  {
    seq(6, a requires 0 <= a < 6 => Bone(bone, AxisOrder[a]))
  }

  function BoneInputs(bones: seq<string>): (r: seq<InputKind>)
    ensures |r| == 6 * |bones|
  {
    if bones == [] then [] else BoneInputs(bones[..|bones| - 1]) + BoneRow(bones[|bones| - 1])
  }

  /**
   * The candidate inputs, given the order in which the tracking data yields its
   * blendshape names and its bone names.
   */
  function CandidateInputs(blends: seq<string>, bones: seq<string>): (c: seq<InputKind>) {
    [InputKind.None] + BlendInputs(blends) + BoneInputs(bones)
  }

  lemma {:induction false} BlendInputsAt(blends: seq<string>)
    ensures |BlendInputs(blends)| == |blends|
    ensures forall i :: 0 <= i < |blends| ==> BlendInputs(blends)[i] == Blendshape(blends[i])
  {
    if blends != [] {
      BlendInputsAt(blends[..|blends| - 1]);
    }
  }

  lemma {:induction false} BoneInputsAt(bones: seq<string>, j: nat, a: nat)
    requires j < |bones| && a < 6
    ensures |BoneInputs(bones)| == 6 * |bones|
    ensures BoneInputs(bones)[6 * j + a] == Bone(bones[j], AxisOrder[a])
  {
    var prefix := bones[..|bones| - 1];
    if j < |bones| - 1 {
      BoneInputsAt(prefix, j, a);
    } else if prefix != [] {
      BoneInputsAt(prefix, 0, 0);
    }
  }

  /**
   * The candidate list is `None`, then one blendshape input per blendshape, then
   * six bone inputs per bone with the axes X, Y, Z, Pitch, Yaw, Roll.
   */
  lemma CandidateInputsShape(blends: seq<string>, bones: seq<string>)
    ensures |CandidateInputs(blends, bones)| == 1 + |blends| + 6 * |bones|
    ensures CandidateInputs(blends, bones)[0] == InputKind.None
    ensures forall i :: 0 <= i < |blends| ==> CandidateInputs(blends, bones)[1 + i] == Blendshape(blends[i])
    ensures forall j, a :: 0 <= j < |bones| && 0 <= a < 6 ==>
      CandidateInputs(blends, bones)[1 + |blends| + 6 * j + a] == Bone(bones[j], AxisOrder[a])
  {
    BlendInputsAt(blends);
    var c := CandidateInputs(blends, bones);
    if bones != [] {
      BoneInputsAt(bones, 0, 0);
    }
    forall j, a | 0 <= j < |bones| && 0 <= a < 6
      ensures c[1 + |blends| + 6 * j + a] == Bone(bones[j], AxisOrder[a])
    {
      BoneInputsAt(bones, j, a);
    }
  }

  /** Every blendshape, and every axis of every bone, can be selected. */
  lemma CandidateInputsComplete(blends: seq<string>, bones: seq<string>)
    ensures forall b :: b in blends ==> Blendshape(b) in CandidateInputs(blends, bones)
    ensures forall b, k: InputBoneKind :: b in bones ==> Bone(b, k) in CandidateInputs(blends, bones)
  {
    CandidateInputsShape(blends, bones);
    var c := CandidateInputs(blends, bones);
    forall b | b in blends
      ensures Blendshape(b) in c
    {
      var i :| 0 <= i < |blends| && blends[i] == b;
      assert c[1 + i] == Blendshape(b);
    }
    forall b, k: InputBoneKind | b in bones
      ensures Bone(b, k) in c
    {
      var j :| 0 <= j < |bones| && bones[j] == b;
      var a := match k case X => 0 case Y => 1 case Z => 2 case Pitch => 3 case Yaw => 4 case Roll => 5;
      assert AxisOrder[a] == k;
      BoneInputsAt(bones, j, a);
      assert c[1 + |blends| + 6 * j + a] == BoneInputs(bones)[6 * j + a];
    }
  }

  /** `order` lists each name of `keys` exactly once. */
  ghost predicate Enumerates(order: seq<string>, keys: set<string>) {
    && (forall i, j :: 0 <= i < j < |order| ==> order[i] != order[j])
    && (forall k :: k in keys <==> k in order)
  }

  /**
   * The candidate list of `binding_toggles`, pushed entry by entry while the
   * tracking data is locked.
   */
  method PossibleBindings(data: VmcData, blendOrder: seq<string>, boneOrder: seq<string>)
    returns (list: seq<InputKind>)
    requires Enumerates(blendOrder, data.blends.Keys) && Enumerates(boneOrder, data.bones.Keys)
    ensures list == CandidateInputs(blendOrder, boneOrder)
  {
    list := [InputKind.None];
    var i := 0;
    while i < |blendOrder|
      invariant 0 <= i <= |blendOrder|
      invariant list == [InputKind.None] + BlendInputs(blendOrder[..i])
    {
      list := list + [Blendshape(blendOrder[i])];
      i := i + 1;
      assert blendOrder[..i][..i - 1] == blendOrder[..i - 1];
    }
    assert blendOrder[..i] == blendOrder;
    ghost var base := list;
    i := 0;
    while i < |boneOrder|
      invariant 0 <= i <= |boneOrder|
      invariant list == base + BoneInputs(boneOrder[..i])
    {
      var a := 0;
      while a < |AxisOrder|
        invariant 0 <= a <= 6
        invariant list == base + BoneInputs(boneOrder[..i]) + BoneRow(boneOrder[i])[..a]
      {
        list := list + [Bone(boneOrder[i], AxisOrder[a])];
        a := a + 1;
      }
      assert BoneRow(boneOrder[i])[..6] == BoneRow(boneOrder[i]);
      i := i + 1;
      assert boneOrder[..i][..i - 1] == boneOrder[..i - 1];
    }
    assert boneOrder[..i] == boneOrder;
  }

  /*
   * Editing one binding (`single_binding_edit`).
   */

  /** The two entries of the binding-type selector. */
  datatype TypeChoice = Standard | Expression

  /** What the operator does to one binding in a frame. */
  datatype Edit =
    | ChooseType(choice: TypeChoice)
    | ChooseInput(input: InputKind)
    | SetInputRange(range: (real, real))
    | SetOutputRange(range: (real, real))

  /** The label the type selector shows for a binding. */
  function TypeLabel(b: BindingKind): (text: string) {
    match b
    case Simple(_, _, _, _) => "Standard"
    case Expr => "Expression"
  }

  function ChoiceLabel(c: TypeChoice): (text: string) {
    match c
    case Standard => "Standard"
    case Expression => "Expression"
  }

  /**
   * The effect of an edit. Choosing a type always installs that type's default,
   * even over a binding of the same type. The input selector and the range
   * fields exist only for a standard binding; `dampen` has no editor.
   */
  function ApplyEdit(b: BindingKind, e: Edit): (r: BindingKind)
    ensures e.ChooseType? ==> TypeLabel(r) == ChoiceLabel(e.choice)
    ensures e == ChooseType(Standard) ==> r == SimpleBinding()
    ensures !e.ChooseType? ==> r.Simple? == b.Simple?
    ensures !e.ChooseType? && b.Expr? ==> r == b
    ensures !e.ChooseType? && b.Simple? ==> r.dampen == b.dampen
    ensures e.ChooseInput? && b.Simple? ==>
      r.input == e.input && r.inputRange == b.inputRange && r.outputRange == b.outputRange
    ensures e.SetInputRange? && b.Simple? ==>
      r.inputRange == e.range && r.input == b.input && r.outputRange == b.outputRange
    ensures e.SetOutputRange? && b.Simple? ==>
      r.outputRange == e.range && r.input == b.input && r.inputRange == b.inputRange
  {
    match e
    case ChooseType(Standard) => SimpleBinding()
    case ChooseType(Expression) => ExprBinding()
    case ChooseInput(i) => if b.Simple? then b.(input := i) else b
    case SetInputRange(range) => if b.Simple? then b.(inputRange := range) else b
    case SetOutputRange(range) => if b.Simple? then b.(outputRange := range) else b
  }

  /*
   * Adding, removing and editing table entries (`binding_toggles`).
   */

  /** Which binding of a slot an edit is made in: the only one, or the X or Y one of a pair. */
  datatype Part = Single | XPart | YPart

  /** What the operator does under one parameter's header in a frame. */
  datatype ToggleEvent = AddClicked | RemoveClicked | Edited(part: Part, edit: Edit)

  /** The inputs selected by the standard bindings of a slot. */
  function SlotInputs(p: ParamBinding): (inputs: set<InputKind>) {
    match p
    case OneDim(Some(b)) => if b.Simple? then {b.input} else {}
    case TwoDim(Some((x, y))) => (if x.Simple? then {x.input} else {}) + (if y.Simple? then {y.input} else {})
    case _ => {}
  }

  /** The selector offers only the candidate inputs. */
  predicate EventFits(e: ToggleEvent, candidates: seq<InputKind>) {
    e.Edited? && e.edit.ChooseInput? ==> e.edit.input in candidates
  }

  predicate EventsFit(events: map<string, ToggleEvent>, candidates: seq<InputKind>) {
    forall k :: k in events ==> EventFits(events[k], candidates)
  }

  /**
   * An edit made in one binding of a slot. In a pair, editing the X binding
   * leaves the Y binding as it was and the other way round; an edit addressed
   * to a part the slot does not have changes nothing.
   */
  function EditSlot(p: ParamBinding, part: Part, e: Edit): (r: ParamBinding)
    ensures SameDim(p, r) && r.IsBound() == p.IsBound()
    ensures p.OneDim? && p.one.Some? && part == Single ==> r.one.value == ApplyEdit(p.one.value, e)
    ensures p.TwoDim? && p.two.Some? && part == XPart ==>
      r.two.value.0 == ApplyEdit(p.two.value.0, e) && r.two.value.1 == p.two.value.1
    ensures p.TwoDim? && p.two.Some? && part == YPart ==>
      r.two.value.1 == ApplyEdit(p.two.value.1, e) && r.two.value.0 == p.two.value.0
    ensures p.IsUnbound() || (p.OneDim? && part != Single) || (p.TwoDim? && part == Single) ==> r == p
  {
    match (p, part)
    case (OneDim(Some(b)), Single) => OneDim(Some(ApplyEdit(b, e)))
    case (TwoDim(Some((x, y))), XPart) => TwoDim(Some((ApplyEdit(x, e), y)))
    case (TwoDim(Some((x, y))), YPart) => TwoDim(Some((x, ApplyEdit(y, e))))
    case _ => p
  }

  /**
   * One entry under its header. A bound entry shows "Remove Binding" and its
   * editors; an unbound one shows only "Add Binding".
   */
  function ApplyToggle(p: ParamBinding, e: ToggleEvent, candidates: seq<InputKind>): (r: ParamBinding)
    requires EventFits(e, candidates)
    ensures SameDim(p, r)
    ensures r.IsBound() == if p.IsBound() then !e.RemoveClicked? else e.AddClicked?
    ensures p.IsUnbound() && e.AddClicked? ==> r == p.DefaultBinding()
    ensures p.IsBound() && e.RemoveClicked? ==> r == p.ClearBinding()
    ensures p.IsUnbound() && !e.AddClicked? ==> r == p
    ensures p.IsBound() && e.AddClicked? ==> r == p
    ensures forall i :: i in SlotInputs(r) ==> i in SlotInputs(p) || i in candidates || i == InputKind.None
  {
    if p.IsBound() then
      match e
      case AddClicked => p
      case RemoveClicked => p.ClearBinding()
      case Edited(part, edit) => EditSlot(p, part, edit)
    else if e.AddClicked? then
      p.DefaultBinding()
    else
      p
  }

  /** The table after one frame of clicks: names are kept, and each entry changes as `ApplyToggle` says. */
  function ApplyToggles(table: ParamBindings, events: map<string, ToggleEvent>, candidates: seq<InputKind>): (t: ParamBindings)
    requires EventsFit(events, candidates)
    ensures t.Keys == table.Keys
    ensures forall k :: k in t ==> SameDim(table[k], t[k])
    ensures forall k :: k in t && k !in events ==> t[k] == table[k]
  {
    map k | k in table :: if k in events then ApplyToggle(table[k], events[k], candidates) else table[k]
  }

  /** The names are visited once each, in ascending key order. */
  ghost predicate InKeyOrder(shown: seq<string>, keys: set<string>) {
    && (forall i, j :: 0 <= i < j < |shown| ==> StrLe(shown[i], shown[j]) && shown[i] != shown[j])
    && (forall k :: k in keys <==> k in shown)
  }

  /** Visiting the least name still to visit keeps the visited names ascending and ahead of the rest. */
  lemma VisitLeast(shown: seq<string>, todo: set<string>, k: string)
    requires k in todo && forall j :: j in todo ==> StrLe(k, j)
    requires forall i, j :: 0 <= i < j < |shown| ==> StrLe(shown[i], shown[j]) && shown[i] != shown[j]
    requires forall i, j :: 0 <= i < |shown| && j in todo ==> StrLe(shown[i], j) && shown[i] != j
    ensures forall i, j :: 0 <= i < j < |shown + [k]| ==>
      StrLe((shown + [k])[i], (shown + [k])[j]) && (shown + [k])[i] != (shown + [k])[j]
    ensures forall i, j :: 0 <= i < |shown + [k]| && j in todo - {k} ==>
      StrLe((shown + [k])[i], j) && (shown + [k])[i] != j
  {
  }

  /*
   * The window.
   */

  /** The parameters' slots match the model shown: same names, same dimensions. */
  predicate TableMatches(table: ParamBindings, m: Option<Model>) {
    match m
    case None => table == map[]
    case Some(model) =>
      && table.Keys == model.puppet.parameters.Keys
      && forall k :: k in table ==> (table[k].TwoDim? <==> model.puppet.parameters[k].isVec2)
  }

  /** A frame of clicks keeps the table matching its model. */
  lemma TogglesKeepMatch(table: ParamBindings, m: Model, events: map<string, ToggleEvent>, candidates: seq<InputKind>)
    requires EventsFit(events, candidates) && TableMatches(table, Some(m))
    ensures TableMatches(ApplyToggles(table, events, candidates), Some(m))
  {
  }

  /** The table a frame publishes: the clicks are applied only when the window is open and a model is shown. */
  function FrameTable(shown: bool, table: ParamBindings, events: map<string, ToggleEvent>, candidates: seq<InputKind>): (t: ParamBindings)
    requires EventsFit(events, candidates)
    ensures !shown ==> t == table
    ensures t.Keys == table.Keys
  {
    if shown then ApplyToggles(table, events, candidates) else table
  }

  class TrackingConfig {
    var open: bool
    const displayedModel: DisplayedModel
    var binding: ParamBindings
    var current: u32
    var model: Option<Model>

    /**
     * `TrackingConfig::new`: records the slot's model and generation and builds
     * the table for that model; the window starts closed.
     */
    constructor (dm: DisplayedModel)
      ensures displayedModel == dm && !open
      ensures current == dm.generation && model == dm.displayed
      ensures binding == TableFor(dm.displayed) && TableMatches(binding, model)
    {
      var m, g := dm.CurrentModel();
      var table: ParamBindings := map[];
      if m.Some? {
        table := BindingsForModel(m.value.puppet);
      }
      open := false;
      displayedModel := dm;
      binding := table;
      current := g;
      model := m;
    }

    /**
     * `binding_toggles`: builds the candidate inputs from the tracking data, then
     * visits the entries in key order and applies what was clicked under each.
     */
    static method BindingToggles(
      data: VmcData, blendOrder: seq<string>, boneOrder: seq<string>,
      table: ParamBindings, events: map<string, ToggleEvent>)
      returns (out: ParamBindings, shown: seq<string>)
      requires Enumerates(blendOrder, data.blends.Keys) && Enumerates(boneOrder, data.bones.Keys)
      requires EventsFit(events, CandidateInputs(blendOrder, boneOrder))
      ensures out == ApplyToggles(table, events, CandidateInputs(blendOrder, boneOrder))
      ensures InKeyOrder(shown, table.Keys)
    {
      var candidates := PossibleBindings(data, blendOrder, boneOrder);
      out, shown := ToggleEntries(table, events, candidates);
    }

    /**
     * The entries of `binding_toggles`, visited in key order, each changed as
     * `ApplyToggle` says for what was clicked under it.
     */
    static method ToggleEntries(table: ParamBindings, events: map<string, ToggleEvent>, candidates: seq<InputKind>)
      returns (out: ParamBindings, shown: seq<string>)
      requires EventsFit(events, candidates)
      ensures out == ApplyToggles(table, events, candidates)
      ensures InKeyOrder(shown, table.Keys)
    {
      ghost var goal := ApplyToggles(table, events, candidates);
      out := table;
      shown := [];
      var todo := table.Keys;
      while todo != {}
        invariant todo <= table.Keys && out.Keys == table.Keys
        invariant forall k :: k in table && k !in todo ==> out[k] == goal[k]
        invariant forall k :: k in todo ==> out[k] == table[k]
        invariant forall k :: k in shown <==> k in table && k !in todo
        invariant forall i, j :: 0 <= i < j < |shown| ==> StrLe(shown[i], shown[j]) && shown[i] != shown[j]
        invariant forall i, k :: 0 <= i < |shown| && k in todo ==> StrLe(shown[i], k) && shown[i] != k
        decreases todo
      {
        LeastKeyExists(todo);
        var k :| k in todo && forall j :: j in todo ==> StrLe(k, j);
        if k in events {
          out := out[k := ApplyToggle(out[k], events[k], candidates)];
        }
        VisitLeast(shown, todo, k);
        shown := shown + [k];
        todo := todo - {k};
      }
      assert out == goal;
    }

    /**
     * `draw`: when the slot's generation is above the recorded one, the recorded
     * generation and model are replaced and the table rebuilt; otherwise the
     * table is taken out of the shared slot, leaving it empty. If the window is
     * open and a model is shown, the clicks are applied. The table is then
     * published to the shared slot and the local copy left empty.
     *
     * The window's title-bar close button writes `open` through the
     * `&mut self.open` handed to the window: `closeClicked` is whether it was
     * clicked this frame. The contents are drawn for the frame the window was
     * open in, so this frame's clicks still apply.
     *
     * The comparison is on `u32`: once the generation has wrapped to a smaller
     * value, a new model is not noticed.
     */
    method Draw(
      ts: TrackerSystem, blendOrder: seq<string>, boneOrder: seq<string>,
      events: map<string, ToggleEvent>, closeClicked: bool)
      requires Enumerates(blendOrder, ts.data.blends.Keys) && Enumerates(boneOrder, ts.data.bones.Keys)
      requires EventsFit(events, CandidateInputs(blendOrder, boneOrder))
      modifies this`open, this`binding, this`current, this`model, displayedModel`bindings
      ensures old(displayedModel.generation) > old(current) ==>
        current == displayedModel.generation && model == displayedModel.displayed
      ensures old(displayedModel.generation) <= old(current) ==> current == old(current) && model == old(model)
      ensures displayedModel.bindings == FrameTable(
        old(open) && model.Some?,
        if old(displayedModel.generation) > old(current) then TableFor(model) else old(displayedModel.bindings),
        events, CandidateInputs(blendOrder, boneOrder))
      ensures old(displayedModel.generation) > old(current) || old(TableMatches(displayedModel.bindings, model)) ==>
        TableMatches(displayedModel.bindings, model)
      ensures binding == map[]
      ensures open == (old(open) && !closeClicked)
      ensures displayedModel.View() == old(displayedModel.View())
    {
      var m, g := displayedModel.CurrentModel();
      if g > current {
        current := g;
        if m.Some? {
          binding := BindingsForModel(m.value.puppet);
        } else {
          binding := map[];
        }
        model := m;
      } else {
        binding := displayedModel.bindings;
        displayedModel.bindings := map[];
      }
      if open && model.Some? {
        var candidates := CandidateInputs(blendOrder, boneOrder);
        ghost var before := binding;
        var shown;
        binding, shown := BindingToggles(ts.data, blendOrder, boneOrder, binding, events);
        if TableMatches(before, model) {
          TogglesKeepMatch(before, model.value, events, candidates);
        }
      }
      if open && closeClicked {
        open := false;
      }
      displayedModel.bindings := binding;
      binding := map[];
    }
  }

  /**
   * The frame protocol end to end: the table survives frames without clicks,
   * and a swap replaces it with a fresh one for the new model.
   */
  method FramesRoundTrip(ts: TrackerSystem, puppet: Puppet, other: Puppet)
    requires ts.data == DefaultData
  {
    var dm := new DisplayedModel();
    var cfg := new TrackingConfig(dm);
    assert cfg.binding == map[];
    dm.SwapModel(Some(Model(puppet)));
    cfg.Draw(ts, [], [], map[], false);
    assert dm.bindings == UnboundTable(puppet) && cfg.binding == map[];
    cfg.Draw(ts, [], [], map[], false);
    assert dm.bindings == UnboundTable(puppet);
    dm.SwapModel(Some(Model(other)));
    cfg.Draw(ts, [], [], map[], false);
    assert dm.bindings == UnboundTable(other) && cfg.model == Some(Model(other));
  }

  /**
   * With the generation at its largest value, the next swap wraps it to 0 and
   * `draw` keeps the old model and table.
   */
  method WrappedSwapUnnoticed(ts: TrackerSystem, puppet: Puppet)
    requires ts.data == DefaultData
  {
    var dm := new DisplayedModel();
    dm.generation := U32Max;
    var cfg := new TrackingConfig(dm);
    dm.SwapModel(Some(Model(puppet)));
    assert dm.generation == 0;
    cfg.Draw(ts, [], [], map[], false);
    assert cfg.model == Option.None && cfg.current == U32Max && dm.bindings == map[];
  }
}
