/**
 * The fixed floor plan that the reset routine recreates: the two machine
 * layouts, each an ordered table of (code, position) slots, and the id each
 * recreated machine gets.
 */
module Layout {
  import opened Records

  datatype Slot = Slot(code: string, position: string)

  /** The "16_fusos" floor: blocks CD1-CD24, CI1-CI4 and F1-F24. */
  const Layout16: seq<Slot> := [
    Slot("CD1", "block1-1"), Slot("CD2", "block1-2"), Slot("CD3", "block1-3"),
    Slot("CD4", "block1-4"), Slot("CD5", "block2-1"), Slot("CD6", "block2-2"),
    Slot("CD7", "block2-3"), Slot("CD8", "block2-4"), Slot("CD17", "block3-1"),
    Slot("CD18", "block3-2"), Slot("CD19", "block3-3"), Slot("CD20", "block3-4"),
    Slot("CD9", "block4-1"), Slot("CD10", "block4-2"), Slot("CD11", "block4-3"),
    Slot("CD12", "block4-4"), Slot("CD13", "block5-1"), Slot("CD14", "block5-2"),
    Slot("CD15", "block5-3"), Slot("CD16", "block5-4"), Slot("CD21", "block6-1"),
    Slot("CD22", "block6-2"), Slot("CD23", "block6-3"), Slot("CD24", "block6-4"),
    Slot("CI1", "ci-1"), Slot("CI2", "ci-2"), Slot("CI3", "ci-3"), Slot("CI4", "ci-4"),
    Slot("F1", "f-1"), Slot("F2", "f-2"), Slot("F3", "f-3"), Slot("F4", "f-4"), Slot("F5", "f-5"),
    Slot("F6", "f-6"), Slot("F7", "f-7"), Slot("F8", "f-8"), Slot("F9", "f-9"),
    Slot("F10", "f-10"), Slot("F11", "f-11"), Slot("F12", "f-12"), Slot("F13", "f-13"),
    Slot("F14", "f-14"), Slot("F15", "f-15"), Slot("F16", "f-16"), Slot("F17", "f-17"),
    Slot("F18", "f-18"), Slot("F19", "f-19"), Slot("F20", "f-20"), Slot("F21", "f-21"),
    Slot("F22", "f-22"), Slot("F23", "f-23"), Slot("F24", "f-24")
  ]

  /** The "32_fusos" floor: CT1-CT24, U1-U33 and N1-N10. */
  const Layout32: seq<Slot> := [
    Slot("CT1", "ct-1"), Slot("CT2", "ct-2"), Slot("CT3", "ct-3"), Slot("CT4", "ct-4"),
    Slot("CT5", "ct-5"), Slot("CT6", "ct-6"), Slot("CT7", "ct-7"), Slot("CT8", "ct-8"),
    Slot("CT9", "ct-9"), Slot("CT10", "ct-10"), Slot("CT11", "ct-11"), Slot("CT12", "ct-12"),
    Slot("CT13", "ct-13"), Slot("CT14", "ct-14"), Slot("CT15", "ct-15"), Slot("CT16", "ct-16"),
    Slot("CT17", "ct-17"), Slot("CT18", "ct-18"), Slot("CT19", "ct-19"), Slot("CT20", "ct-20"),
    Slot("CT21", "ct-21"), Slot("CT22", "ct-22"), Slot("CT23", "ct-23"), Slot("CT24", "ct-24"),
    Slot("U1", "u1-1"), Slot("U2", "u1-2"), Slot("U3", "u1-3"), Slot("U4", "u1-4"),
    Slot("U5", "u1-5"), Slot("U6", "u1-6"), Slot("U7", "u1-7"), Slot("U8", "u1-8"),
    Slot("U9", "u1-9"), Slot("U10", "u1-10"), Slot("U11", "u2-1"), Slot("U12", "u2-2"),
    Slot("U13", "u2-3"), Slot("U14", "u2-4"), Slot("U15", "u2-5"), Slot("U16", "u2-6"),
    Slot("U17", "u2-7"), Slot("U18", "u2-8"), Slot("U19", "u2-9"), Slot("U20", "u2-10"),
    Slot("U21", "u3-1"), Slot("U22", "u3-2"), Slot("U23", "u3-3"), Slot("U24", "u3-4"),
    Slot("U25", "u3-5"), Slot("U26", "u3-6"), Slot("U27", "u3-7"), Slot("U28", "u3-8"),
    Slot("U29", "u3-9"), Slot("U30", "u3-10"), Slot("N1", "n-1"), Slot("N2", "n-2"),
    Slot("N3", "n-3"), Slot("N4", "n-4"), Slot("N5", "n-5"), Slot("N6", "n-6"), Slot("N7", "n-7"),
    Slot("N8", "n-8"), Slot("N9", "n-9"), Slot("N10", "n-10"), Slot("U31", "u4-1"),
    Slot("U32", "u4-2"), Slot("U33", "u4-3")
  ]

  /**
   * The id of a recreated machine: its layout group, its code and a
   * caller-supplied suffix (an eight-character fragment of a fresh uuid).
   */
  function MachineId(layoutType: string, code: string, suffix: string): string {
    layoutType + "_" + code + "_" + suffix
  }

  /**
   * A machine as the reset routine creates it: the slot's code and
   * position, green and active by default, stamped `now`.
   */
  function NewMachine(id: string, slot: Slot, layoutType: string, now: Time): (m: Machine)
    ensures m.id == id && m.code == slot.code && m.position == slot.position && m.layoutType == layoutType
    ensures m.status == Verde && m.status in MachineStatuses && m.active == Some(true) && m.updatedAt == now
  {
    Machine(id, slot.code, slot.position, Verde, layoutType, Some(true), now)
  }

  /** The id of slot `k` of a layout. */
  function SlotId(layoutType: string, layout: seq<Slot>, suffixes: seq<string>, k: nat): string
    requires |suffixes| == |layout| && k < |layout|
  {
    MachineId(layoutType, layout[k].code, suffixes[k])
  }

  /** The ids built for the slots of one layout are pairwise distinct. */
  predicate DistinctMachineIds(layoutType: string, layout: seq<Slot>, suffixes: seq<string>)
    requires |suffixes| == |layout|
  {
    forall i, j :: 0 <= i < j < |layout| ==> SlotId(layoutType, layout, suffixes, i) != SlotId(layoutType, layout, suffixes, j)
  }

  /**
   * The machines that one layout loop inserts, slot by slot in table order
   * (a later slot would overwrite an equal id).
   */
  function LayoutMachines(layoutType: string, layout: seq<Slot>, suffixes: seq<string>, now: Time): map<string, Machine>
    requires |suffixes| == |layout|
    decreases |layout|
  {
    if layout == [] then map[]
    else
      var n := |layout| - 1;
      var id := SlotId(layoutType, layout, suffixes, n);
      LayoutMachines(layoutType, layout[..n], suffixes[..n], now)[id := NewMachine(id, layout[n], layoutType, now)]
  }

  /** Every machine a layout loop creates sits under the id of one of the layout's slots. */
  lemma {:induction false} LayoutMachinesIds(layoutType: string, layout: seq<Slot>, suffixes: seq<string>, now: Time)
    requires |suffixes| == |layout|
    ensures forall id :: id in LayoutMachines(layoutType, layout, suffixes, now) ==>
      exists k :: 0 <= k < |layout| && id == SlotId(layoutType, layout, suffixes, k)
    decreases |layout|
  {
    if layout != [] {
      var n := |layout| - 1;
      LayoutMachinesIds(layoutType, layout[..n], suffixes[..n], now);
      forall k | 0 <= k < n
        ensures SlotId(layoutType, layout[..n], suffixes[..n], k) == SlotId(layoutType, layout, suffixes, k)
      {
        assert layout[..n][k] == layout[k] && suffixes[..n][k] == suffixes[k];
      }
    }
  }

  /**
   * Every machine a layout loop creates is green, active, in that layout
   * group, stamped `now` and stored under its own id, which starts with the
   * group's name.
   */
  lemma {:induction false} LayoutMachinesFresh(layoutType: string, layout: seq<Slot>, suffixes: seq<string>, now: Time)
    requires |suffixes| == |layout|
    ensures forall id :: id in LayoutMachines(layoutType, layout, suffixes, now) ==>
      && LayoutMachines(layoutType, layout, suffixes, now)[id].id == id
      && LayoutMachines(layoutType, layout, suffixes, now)[id].status == Verde
      && LayoutMachines(layoutType, layout, suffixes, now)[id].active == Some(true)
      && LayoutMachines(layoutType, layout, suffixes, now)[id].layoutType == layoutType
      && LayoutMachines(layoutType, layout, suffixes, now)[id].updatedAt == now
      && |id| > |layoutType| && id[..|layoutType|] == layoutType
    decreases |layout|
  {
    if layout != [] {
      var n := |layout| - 1;
      LayoutMachinesFresh(layoutType, layout[..n], suffixes[..n], now);
      MachineIdPrefix(layoutType, layout[n].code, suffixes[n]);
    }
  }

  /** With distinct ids, a layout loop creates as many machines as the layout has slots. */
  lemma {:induction false} LayoutMachinesCard(layoutType: string, layout: seq<Slot>, suffixes: seq<string>, now: Time)
    requires |suffixes| == |layout|
    requires DistinctMachineIds(layoutType, layout, suffixes)
    ensures |LayoutMachines(layoutType, layout, suffixes, now)| == |layout|
    decreases |layout|
  {
    if layout != [] {
      var n := |layout| - 1;
      var pre, preSuffixes := layout[..n], suffixes[..n];
      var id := SlotId(layoutType, layout, suffixes, n);
      forall k | 0 <= k < n
        ensures SlotId(layoutType, pre, preSuffixes, k) == SlotId(layoutType, layout, suffixes, k)
      {
        assert pre[k] == layout[k] && preSuffixes[k] == suffixes[k];
      }
      assert DistinctMachineIds(layoutType, pre, preSuffixes);
      LayoutMachinesCard(layoutType, pre, preSuffixes, now);
      LayoutMachinesIds(layoutType, pre, preSuffixes, now);
      forall k | 0 <= k < n ensures SlotId(layoutType, pre, preSuffixes, k) != id {
      }
      assert id !in LayoutMachines(layoutType, pre, preSuffixes, now);
    }
  }

  /**
   * With distinct ids, every slot of a layout gets its own machine, under
   * the slot's id and with the slot's code and position.
   */
  lemma {:induction false} LayoutMachinesSlots(layoutType: string, layout: seq<Slot>, suffixes: seq<string>, now: Time)
    requires |suffixes| == |layout|
    requires DistinctMachineIds(layoutType, layout, suffixes)
    ensures forall k :: 0 <= k < |layout| ==>
      && SlotId(layoutType, layout, suffixes, k) in LayoutMachines(layoutType, layout, suffixes, now)
      && LayoutMachines(layoutType, layout, suffixes, now)[SlotId(layoutType, layout, suffixes, k)] ==
           NewMachine(SlotId(layoutType, layout, suffixes, k), layout[k], layoutType, now)
    decreases |layout|
  {
    if layout != [] {
      var n := |layout| - 1;
      var pre, preSuffixes := layout[..n], suffixes[..n];
      forall k | 0 <= k < n
        ensures SlotId(layoutType, pre, preSuffixes, k) == SlotId(layoutType, layout, suffixes, k)
        ensures pre[k] == layout[k]
      {
        assert pre[k] == layout[k] && preSuffixes[k] == suffixes[k];
      }
      assert DistinctMachineIds(layoutType, pre, preSuffixes);
      LayoutMachinesSlots(layoutType, pre, preSuffixes, now);
    }
  }

  /** Every id built for a layout starts with the layout group's name. */
  lemma MachineIdPrefix(layoutType: string, code: string, suffix: string)
    ensures |MachineId(layoutType, code, suffix)| > |layoutType|
    ensures MachineId(layoutType, code, suffix)[..|layoutType|] == layoutType
  {
    assert MachineId(layoutType, code, suffix) == layoutType + ("_" + code + "_" + suffix);
  }
}
