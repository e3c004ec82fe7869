/**
 * The displayed-model slot (src/displayed_model.rs): the model currently on
 * screen, a generation counter bumped by every swap, and the binding table
 * shared between frames of the tracking-config window.
 *
 * The slot is modelled sequentially: the release/acquire pairing that lets the
 * render thread read it without a lock is about cross-thread ordering, which a
 * sequential model does not have. The mutex around `bindings` is likewise a
 * plain field.
 */
module Displayed {
  import opened Wrappers
  import opened Tracker

  /** An unsigned 32-bit integer (`u32`). */
  newtype u32 = x: int | 0 <= x < 0x1_0000_0000

  /** The largest `u32`. */
  const U32Max: u32 := 0xFFFF_FFFF

  /** `fetch_add(1)` on an `AtomicU32`: adds one and wraps from the largest value to zero. */
  function NextGeneration(g: u32): (n: u32)
    ensures g < U32Max ==> n as int == g as int + 1
    ensures g == U32Max ==> n == 0
  {
    ((g as int + 1) % 0x1_0000_0000) as u32
  }

  /** One parameter of a puppet; only whether it is two-dimensional matters here. */
  datatype Param = Param(isVec2: bool)

  /** A puppet, reduced to its named parameters. */
  datatype Puppet = Puppet(parameters: map<string, Param>)

  /** A loaded model. The model is shared through an `Arc`; the model keeps only its value. */
  datatype Model = Model(puppet: Puppet)

  /** What a reader of the slot sees: the model on display and its generation. */
  datatype SlotView = SlotView(displayed: Option<Model>, generation: u32)

  /** The slot as it is before anything is shown (`DisplayedModel::default()`). */
  const InitialView := SlotView(Option.None, 0)

  /** The effect of `swap_model(m)` on what readers see. */
  function Swapped(v: SlotView, m: Option<Model>): (w: SlotView)
    ensures w.displayed == m
    ensures w.generation as int == (v.generation as int + 1) % 0x1_0000_0000
  {
    SlotView(m, NextGeneration(v.generation))
  }

  /** What readers see after the swaps `ms`, in order, starting from `v`. */
  function Replay(v: SlotView, ms: seq<Option<Model>>): (w: SlotView)
  {
    if ms == [] then v else Swapped(Replay(v, ms[..|ms| - 1]), ms[|ms| - 1])
  }

  /**
   * After n swaps on a fresh slot the generation is n modulo 2^32, and the model
   * is the last one swapped in, or none when there was no swap.
   */
  lemma {:induction false} ReplayFromInitial(ms: seq<Option<Model>>)
    ensures Replay(InitialView, ms).generation as int == |ms| % 0x1_0000_0000
    ensures Replay(InitialView, ms).displayed == if ms == [] then Option.None else ms[|ms| - 1]
  {
    if ms != [] {
      var prefix := ms[..|ms| - 1];
      ReplayFromInitial(prefix);
      var g := Replay(InitialView, prefix).generation as int;
      assert g == (|ms| - 1) % 0x1_0000_0000;
      ModSucc(|ms| - 1);
    }
  }

  /** Taking the successor commutes with reduction modulo 2^32. */
  lemma ModSucc(n: nat)
    ensures (n % 0x1_0000_0000 + 1) % 0x1_0000_0000 == (n + 1) % 0x1_0000_0000
  {
  }

  class DisplayedModel {
    var displayed: Option<Model>
    var generation: u32
    var bindings: ParamBindings

    /** `DisplayedModel::default()`: nothing shown, generation 0, no bindings. */
    constructor ()
      ensures View() == InitialView
      ensures displayed == Option.None && generation == 0 && bindings == map[]
    {
      displayed := Option.None;
      generation := 0;
      bindings := map[];
    }

    function View(): (v: SlotView)
      reads this
    {
      SlotView(displayed, generation)
    }

    /** `current_model`: the model on display and its generation; nothing changes. */
    method CurrentModel() returns (m: Option<Model>, g: u32)
      ensures SlotView(m, g) == View()
    {
      g := generation;
      m := displayed;
    }

    /**
     * `swap_model`: shows `m` (or nothing) and advances the generation by one,
     * modulo 2^32; the shared bindings are not touched.
     */
    method SwapModel(m: Option<Model>)
      modifies this`displayed, this`generation
      ensures View() == Swapped(old(View()), m)
      ensures bindings == old(bindings)
    {
      displayed := m;
      generation := NextGeneration(generation);
    }
  }
}
