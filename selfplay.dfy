/**
 * The self-play snapshot ring (`ReinforcementLearning`): ten policy slots
 * written round-robin every 250th generation, a write cursor, a fill count
 * and the cached opponent.  The opponent pointer into the policy vector is a
 * slot index; the random draws of `get_network` are arguments.
 */
module SelfPlay {
  import opened Utility
  import opened Neural9

  const SnapshotWindow: nat := 10
  const SnapshotFrequency: nat := 250
  const SwapSteps: nat := 5
  const PlayLatestModelRatio: real := 0.5

  /** The counters and slots of the ring, as a value. */
  datatype Ring = Ring(policy: seq<Params>, current: nat, size: nat)

  predicate RingValid(r: Ring)
  {
    |r.policy| == SnapshotWindow && r.current < SnapshotWindow && r.size <= SnapshotWindow
  }

  /** increment: the fill count saturates at the policy size, the cursor wraps from 9 to 0. */
  function Advance(r: Ring): (s: Ring)
  {
    r.(size := if r.size < |r.policy| then r.size + 1 else r.size,
       current := if r.current == SnapshotWindow - 1 then 0 else r.current + 1)
  }

  /** An accepted add_neural_network: the snapshot goes into the cursor's slot, then increment. */
  function Push(r: Ring, nn: Params): (s: Ring)
    requires RingValid(r)
    ensures RingValid(s)
  {
    Advance(r.(policy := r.policy[r.current := nn]))
  }

  /** The ring after accepting each snapshot of `nets` in turn. */
  function Pushes(r: Ring, nets: seq<Params>): (s: Ring)
    requires RingValid(r)
    ensures RingValid(s)
  {
    if |nets| == 0 then r else Push(Pushes(r, nets[..|nets| - 1]), nets[|nets| - 1])
  }

  function Min(a: nat, b: nat): nat
  {
    if a < b then a else b
  }

  /** The slot that the cursor reaches after n accepted adds from slot 0: n mod 10. */
  function SlotOf(n: nat): (j: nat)
    ensures j < SnapshotWindow
  {
    if n < SnapshotWindow then n else SlotOf(n - SnapshotWindow)
  }

  lemma {:induction false} SlotOfIsMod(n: nat)
    ensures SlotOf(n) == n % SnapshotWindow
  {
    if n >= SnapshotWindow {
      SlotOfIsMod(n - SnapshotWindow);
    }
  }

  lemma {:induction false} SlotOfSucc(n: nat)
    ensures SlotOf(n + 1) == if SlotOf(n) == SnapshotWindow - 1 then 0 else SlotOf(n) + 1
  {
    if n >= SnapshotWindow {
      SlotOfSucc(n - SnapshotWindow);
    }
  }

  lemma {:induction false} SlotsDistinct(k: nat, n: nat)
    requires k < n < k + SnapshotWindow
    ensures SlotOf(k) != SlotOf(n)
  {
    if k >= SnapshotWindow {
      SlotsDistinct(k - SnapshotWindow, n - SnapshotWindow);
    }
  }

  /**
   * After n accepted adds from a reset ring the cursor is n mod 10, the fill
   * count min(n, 10), snapshot k of the last ten sits in slot k mod 10, and
   * slots not yet reached keep what they held.
   */
  lemma {:induction false} PushesFromReset(initial: seq<Params>, nets: seq<Params>)
    requires |initial| == SnapshotWindow
    ensures var r := Pushes(Ring(initial, 0, 0), nets);
      r.current == SlotOf(|nets|) && r.size == Min(|nets|, SnapshotWindow) &&
      (forall k :: 0 <= k < |nets| && |nets| <= k + SnapshotWindow ==> r.policy[SlotOf(k)] == nets[k]) &&
      (forall j :: |nets| <= j < SnapshotWindow ==> r.policy[j] == initial[j])
  {
    if |nets| > 0 {
      var n := |nets| - 1;
      var prev := nets[..n];
      assert nets[..|nets| - 1] == prev;
      PushesFromReset(initial, prev);
      var p := Pushes(Ring(initial, 0, 0), prev);
      var r := Pushes(Ring(initial, 0, 0), nets);
      assert r == Push(p, nets[n]);
      SlotOfSucc(n);
      assert r.policy == p.policy[SlotOf(n) := nets[n]];
      forall k | 0 <= k < |nets| && |nets| <= k + SnapshotWindow
        ensures r.policy[SlotOf(k)] == nets[k]
      {
        if k < n {
          SlotsDistinct(k, n);
          assert prev[k] == nets[k];
        }
      }
    }
  }

  /**
   * Once ten snapshots have been taken, the slot at the cursor, which
   * get_network always ends up choosing, holds the oldest one retained.
   */
  lemma ChosenIsOldest(initial: seq<Params>, nets: seq<Params>)
    requires |initial| == SnapshotWindow && |nets| >= SnapshotWindow
    ensures var r := Pushes(Ring(initial, 0, 0), nets);
      r.policy[r.current] == nets[|nets| - SnapshotWindow]
  {
    PushesFromReset(initial, nets);
    CursorHoldsOldest(Pushes(Ring(initial, 0, 0), nets), nets);
  }

  lemma CursorHoldsOldest(r: Ring, nets: seq<Params>)
    requires RingValid(r) && |nets| >= SnapshotWindow && r.current == SlotOf(|nets|)
    requires forall k :: 0 <= k < |nets| && |nets| <= k + SnapshotWindow ==> r.policy[SlotOf(k)] == nets[k]
    ensures r.policy[r.current] == nets[|nets| - SnapshotWindow]
  {
    var k: nat := |nets| - SnapshotWindow;
    assert r.current == SlotOf(k);
  }

  /** Before ten snapshots have been taken, the slot at the cursor was never written by an add. */
  lemma ChosenIsUnwritten(initial: seq<Params>, nets: seq<Params>)
    requires |initial| == SnapshotWindow && |nets| < SnapshotWindow
    ensures var r := Pushes(Ring(initial, 0, 0), nets);
      r.policy[r.current] == initial[|nets|]
  {
    PushesFromReset(initial, nets);
  }

  class ReinforcementLearning {
    var policy: seq<Params>
    var currentIndex: nat
    var actualSize: nat
    var chosenNetwork: Option<nat>

    function State(): Ring
      reads this
    {
      Ring(policy, currentIndex, actualSize)
    }

    ghost predicate Valid()
      reads this
    {
      RingValid(State()) &&
      (forall k :: 0 <= k < |policy| ==> WellShaped(policy[k])) &&
      (chosenNetwork.Some? ==> chosenNetwork.value < SnapshotWindow)
    }

    /**
     * ReinforcementLearning(): ten default-constructed slots (`initial`), then
     * one fresh network (`first`) added as if at generation 250.
     */
    constructor (initial: seq<Params>, first: Params)
      requires |initial| == SnapshotWindow && WellShaped(first)
      requires forall k :: 0 <= k < |initial| ==> WellShaped(initial[k])
      ensures Valid()
      ensures policy == initial[0 := first] && currentIndex == 1 && actualSize == 1 && chosenNetwork == None
    {
      policy, currentIndex, actualSize, chosenNetwork := initial, 0, 0, None;
      new;
      AddNeuralNetwork(first, SnapshotFrequency);
    }

    /** add_neural_network: only every 250th generation stores a snapshot. */
    method AddNeuralNetwork(nn: Params, generation: nat)
      requires Valid() && WellShaped(nn)
      modifies this
      ensures Valid() && chosenNetwork == old(chosenNetwork)
      ensures generation % SnapshotFrequency != 0 ==> State() == old(State())
      ensures generation % SnapshotFrequency == 0 ==> State() == Push(old(State()), nn)
    {
      if generation % SnapshotFrequency != 0 {
        return;
      }
      policy := policy[currentIndex := nn];
      Increment();
    }

    /** increment: grows the fill count while below the policy size and advances the cursor, 9 wrapping to 0. */
    method Increment()
      requires |policy| == SnapshotWindow && currentIndex < SnapshotWindow && actualSize <= SnapshotWindow
      modifies this
      ensures State() == Advance(old(State()))
      ensures chosenNetwork == old(chosenNetwork)
    {
      actualSize := actualSize + if actualSize < |policy| then 1 else 0;
      currentIndex := if currentIndex == SnapshotWindow - 1 then 0 else currentIndex + 1;
    }

    /**
     * get_network: re-selects only when nothing is cached or on every fifth
     * generation.  `roll` is rand01float() and `pick` randRange(0, actual_size),
     * so it lies in `InPickRange`.  The random choice (`tentative`) is
     * overwritten at once, so a re-selection always lands on the cursor's
     * slot, whatever the draws.
     */
    method GetNetwork(generation: nat, roll: Coin, pick: nat) returns (slot: nat, ghost tentative: Option<nat>)
      requires Valid() && InPickRange(pick, actualSize)
      modifies this
      ensures Valid() && State() == old(State())
      ensures tentative == TentativePick(old(chosenNetwork), generation, roll, pick, old(actualSize))
      ensures old(chosenNetwork).Some? && generation % SwapSteps != 0 ==>
        chosenNetwork == old(chosenNetwork) && slot == old(chosenNetwork).value
      ensures old(chosenNetwork).None? || generation % SwapSteps == 0 ==>
        chosenNetwork == Some(currentIndex) && slot == currentIndex
      ensures slot < SnapshotWindow && chosenNetwork == Some(slot)
    {
      tentative := None;
      if chosenNetwork == None || generation % SwapSteps == 0 {
        if roll > PlayLatestModelRatio && actualSize > 1 {
          chosenNetwork := Some(pick);
          tentative := chosenNetwork;
        }
        chosenNetwork := Some(currentIndex);
      }
      slot := chosenNetwork.value;
    }

    /** reset_information: empties the counters and forgets the opponent; the slots keep their contents. */
    method ResetInformation()
      modifies this
      ensures actualSize == 0 && currentIndex == 0 && chosenNetwork == None && policy == old(policy)
    {
      actualSize, currentIndex, chosenNetwork := 0, 0, None;
    }
  }

  /** The values randRange(0, actual_size) can return: both bounds included. */
  predicate InPickRange(pick: nat, size: nat)
  {
    pick <= size
  }

  /** The fill count get_network sees once add_neural_network has run at `generation`. */
  function OfferedSize(r: Ring, generation: nat): nat
  {
    if generation % SnapshotFrequency == 0 then Advance(r).size else r.size
  }

  /** The random choice get_network makes before overwriting it, if it makes one. */
  function TentativePick(cached: Option<nat>, generation: nat, roll: Coin, pick: nat, size: nat): Option<nat>
  {
    if (cached.None? || generation % SwapSteps == 0) && roll > PlayLatestModelRatio && size > 1 then Some(pick) else None
  }

  /**
   * On a full ring, every pick randRange can return gives a tentative choice
   * of at most ten, and the pick ten is allowed: get_network then stores
   * slot 10, one past the last slot, before the cursor's slot replaces it.
   */
  lemma RandomPickCanOverrun(rl: ReinforcementLearning, generation: nat, roll: Coin)
    requires rl.Valid() && rl.actualSize == SnapshotWindow
    requires generation % SwapSteps == 0 && roll > PlayLatestModelRatio
    ensures forall pick: nat :: InPickRange(pick, rl.actualSize) ==>
      TentativePick(rl.chosenNetwork, generation, roll, pick, rl.actualSize) == Some(pick) && pick <= |rl.policy|
    ensures InPickRange(|rl.policy|, rl.actualSize)
    ensures TentativePick(rl.chosenNetwork, generation, roll, |rl.policy|, rl.actualSize) == Some(|rl.policy|)
  {
  }
}
