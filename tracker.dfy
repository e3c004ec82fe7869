/**
 * The tracking-input vocabulary and the per-parameter binding slots
 * (src/tracker/mod.rs).
 *
 * The `f32` fields of a simple binding are carried as `real` values: nothing
 * in the modelled code computes with them, it only stores the defaults and
 * whatever the editor writes.
 */
module Tracker {
  import opened Wrappers

  /** One axis of a tracked bone. */
  datatype InputBoneKind = X | Y | Z | Roll | Pitch | Yaw {

    /** The label shown for the axis; no label contains a space or a parenthesis. */
    function Name(): (s: string)
      ensures 1 <= |s| <= 5
      ensures forall i :: 0 <= i < |s| ==> s[i] != '(' && s[i] != ')' && s[i] != ' '
    {
      match this
      case X => "X"
      case Y => "Y"
      case Z => "Z"
      case Roll => "Roll"
      case Pitch => "Pitch"
      case Yaw => "Yaw"
    }
  }

  /** The six axis labels are pairwise different. */
  lemma AxisNamesDistinct(a: InputBoneKind, b: InputBoneKind)
    ensures a.Name() == b.Name() <==> a == b
  {
  }

  /** A reference into the tracker's namespace: nothing, a blendshape, or one axis of a bone. */
  datatype InputKind = None | Blendshape(shape: string) | Bone(bone: string, axis: InputBoneKind) {

    /** The text shown in the input selector. */
    function Name(): (s: string)
    {
      match this
      case None => "<none>"
      case Blendshape(n) => n
      case Bone(n, k) => n + " (" + k.Name() + ")"
    }
  }

  /**
   * The label of `Bone(n, k)` is `n`, a space, then the axis label in
   * parentheses; it always ends in ')' and so never reads as "<none>".
   */
  lemma BoneNameShape(n: string, k: InputBoneKind)
    ensures InputKind.Bone(n, k).Name() == n + " (" + k.Name() + ")"
    ensures InputKind.None.Name() == "<none>"
    ensures InputKind.Blendshape(n).Name() == n
    ensures |InputKind.Bone(n, k).Name()| == |n| + |k.Name()| + 3
    ensures InputKind.Bone(n, k).Name()[|n| + |k.Name()| + 2] == ')'
    ensures InputKind.Bone(n, k).Name() != InputKind.None.Name()
  {
    var s := InputKind.Bone(n, k).Name();
    assert s[|s| - 1] == ')';
    assert "<none>"[5] == '>';
  }

  /**
   * Bone labels can be read back: two bone inputs with the same label name the
   * same bone and the same axis, even when bone names contain parentheses.
   */
  lemma BoneNameInjective(n1: string, a: InputBoneKind, n2: string, b: InputBoneKind)
    requires InputKind.Bone(n1, a).Name() == InputKind.Bone(n2, b).Name()
    ensures n1 == n2 && a == b
  {
    var s := InputKind.Bone(n1, a).Name();
    var l1, l2 := a.Name(), b.Name();
    assert s == n1 + " (" + l1 + ")";
    assert s == n2 + " (" + l2 + ")";
    LabelLengthDetermined(n1, l1, n2, l2);
    assert n1 == s[..|n1|] == n2;
    assert l1 == s[|n1| + 2..|s| - 1] == l2;
    AxisNamesDistinct(a, b);
  }

  /** In `n + " (" + l + ")"` with a label free of '(', the label's length is fixed by the text. */
  lemma LabelLengthDetermined(n1: string, l1: string, n2: string, l2: string)
    requires n1 + " (" + l1 + ")" == n2 + " (" + l2 + ")"
    requires forall i :: 0 <= i < |l1| ==> l1[i] != '('
    requires forall i :: 0 <= i < |l2| ==> l2[i] != '('
    ensures |l1| == |l2|
  {
    LabelLayout(n1, l1);
    LabelLayout(n2, l2);
  }

  /** In `n + " (" + l + ")"` the '(' before the label is the last one in the text. */
  lemma LabelLayout(n: string, l: string)
    requires forall i :: 0 <= i < |l| ==> l[i] != '('
    ensures |n + " (" + l + ")"| == |n| + |l| + 3
    ensures (n + " (" + l + ")")[|n| + 1] == '('
    ensures forall j :: |n| + 2 <= j < |n + " (" + l + ")"| ==> (n + " (" + l + ")")[j] != '('
  {
    var s := n + " (" + l + ")";
    forall j | |n| + 2 <= j < |s|
      ensures s[j] != '('
    {
      if j < |s| - 1 {
        assert s[j] == l[j - |n| - 2];
      }
    }
  }

  /** How one parameter axis is driven: a linear remap of one input, or an expression (not implemented). */
  datatype BindingKind =
    | Expr
    | Simple(input: InputKind, inputRange: (real, real), outputRange: (real, real), dampen: real)

  /** `BindingKind::simple()`: no input, input range (-30, 30), output range (-1, 1), no damping. */
  function SimpleBinding(): (b: BindingKind)
    ensures b.Simple? && b.input == InputKind.None
    ensures b.inputRange == (-30.0, 30.0) && b.outputRange == (-1.0, 1.0) && b.dampen == 0.0
  {
    Simple(InputKind.None, (-30.0, 30.0), (-1.0, 1.0), 0.0)
  }

  /** `BindingKind::expr()`. */
  function ExprBinding(): (b: BindingKind)
    ensures b.Expr?
  {
    Expr
  }

  /** The binding slot of one parameter: one-dimensional, or an independent X/Y pair. */
  datatype ParamBinding =
    | OneDim(one: Option<BindingKind>)
    | TwoDim(two: Option<(BindingKind, BindingKind)>)
  {
    predicate IsBound() {
      match this
      case OneDim(v) => v.Some?
      case TwoDim(v) => v.Some?
    }

    predicate IsUnbound() {
      match this
      case OneDim(v) => v.None?
      case TwoDim(v) => v.None?
    }

    /**
     * `default_binding`: the slot, rewritten in place, holds `simple()` (one per
     * axis for a two-dimensional slot) and keeps its dimension.
     */
    function DefaultBinding(): (p: ParamBinding)
      ensures p.IsBound() && SameDim(this, p)
      ensures p.OneDim? ==> p.one.value == SimpleBinding()
      ensures p.TwoDim? ==> p.two.value == (SimpleBinding(), SimpleBinding())
    {
      match this
      case OneDim(_) => OneDim(Some(SimpleBinding()))
      case TwoDim(_) => TwoDim(Some((SimpleBinding(), SimpleBinding())))
    }

    /** `clear_binding`: the slot, rewritten in place, is emptied and keeps its dimension. */
    function ClearBinding(): (p: ParamBinding)
      ensures p.IsUnbound() && SameDim(this, p)
    {
      match this
      case OneDim(_) => OneDim(Option.None)
      case TwoDim(_) => TwoDim(Option.None)
    }
  }

  /** Both slots have the same dimension. */
  predicate SameDim(p: ParamBinding, q: ParamBinding) {
    p.OneDim? == q.OneDim?
  }

  /** Every slot is exactly one of bound and unbound. */
  lemma BoundIffNotUnbound(p: ParamBinding)
    ensures p.IsBound() <==> !p.IsUnbound()
  {
  }

  /** Adding a default binding twice is the same as adding it once. */
  lemma DefaultBindingIdempotent(p: ParamBinding)
    ensures p.DefaultBinding().DefaultBinding() == p.DefaultBinding()
  {
  }

  /** Clearing twice is the same as clearing once. */
  lemma ClearBindingIdempotent(p: ParamBinding)
    ensures p.ClearBinding().ClearBinding() == p.ClearBinding()
  {
  }

  /** Removing a binding just added gives back the unbound slot. */
  lemma AddThenRemove(p: ParamBinding)
    requires p.IsUnbound()
    ensures p.DefaultBinding().ClearBinding() == p
  {
  }

  /** `ParamBindings`: a map from parameter name to its slot; names are unique. */
  type ParamBindings = map<string, ParamBinding>

  /*
   * The key order of `ParamBindings` (a `BTreeMap<String, _>`): Rust orders
   * `String`s lexicographically by their UTF-8 bytes, which is the same as
   * ordering them lexicographically by Unicode scalar values, as below.
   */

  /** `a` comes before `b` or equals it. */
  predicate StrLe(a: string, b: string)
    decreases |a|
  {
    |a| == 0 || (|b| > 0 && (a[0] < b[0] || (a[0] == b[0] && StrLe(a[1..], b[1..]))))
  }

  lemma {:induction false} StrLeTotal(a: string, b: string)
    ensures StrLe(a, b) || StrLe(b, a)
    decreases |a|
  {
    if |a| > 0 && |b| > 0 && a[0] == b[0] {
      StrLeTotal(a[1..], b[1..]);
    }
  }

  lemma {:induction false} StrLeAntisymmetric(a: string, b: string)
    requires StrLe(a, b) && StrLe(b, a)
    ensures a == b
    decreases |a|
  {
    if |a| > 0 {
      StrLeAntisymmetric(a[1..], b[1..]);
      assert a == [a[0]] + a[1..];
      assert b == [b[0]] + b[1..];
    }
  }

  lemma {:induction false} StrLeTransitive(a: string, b: string, c: string)
    requires StrLe(a, b) && StrLe(b, c)
    ensures StrLe(a, c)
    decreases |a|
  {
    if |a| > 0 && a[0] == b[0] && b[0] == c[0] {
      StrLeTransitive(a[1..], b[1..], c[1..]);
    }
  }

  /** Every non-empty finite set of names has a first name in key order. */
  lemma {:induction false} LeastKeyExists(keys: set<string>)
    requires keys != {}
    ensures exists k :: k in keys && forall j :: j in keys ==> StrLe(k, j)
    decreases |keys|
  {
    var x :| x in keys;
    var rest := keys - {x};
    if rest == {} {
      assert keys == {x};
      StrLeTotal(x, x);
    } else {
      LeastKeyExists(rest);
      var m :| m in rest && forall j :: j in rest ==> StrLe(m, j);
      StrLeTotal(m, x);
      if StrLe(m, x) {
        assert forall j :: j in keys ==> StrLe(m, j);
      } else {
        forall j | j in keys
          ensures StrLe(x, j)
        {
          if j != x {
            StrLeTransitive(x, m, j);
          } else {
            StrLeTotal(x, x);
          }
        }
      }
    }
  }
}
