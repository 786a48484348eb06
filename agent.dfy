/**
 * An agent of the tag game: a disc of radius 30 steered by a network, that
 * is either "it" (tagged) or not.  Contact with another agent pushes the two
 * apart and, once the tagger's cooldown has run out and the game's immunity
 * period is over, hands the tag on.  The score counts against the agent (the
 * learner with the lowest score wins a generation): one point per frame spent
 * tagged, plus a distance-dependent amount per frame spent tagged next to
 * another agent.
 */
module Agents {
  import opened Utility
  import opened Settings
  import opened Neural9

  /** What an agent shows the networks of others. */
  datatype View = View(position: Vec2, velocity: Vec2, tagged: bool)

  /** Sum of the two radii: the centre distance at which two agents touch. */
  const SumRadii: real := Radius + Radius
  /** The diameter of the circle the agents' centres can reach. */
  const Diameter: real := (Bounds.radius - Radius) * 2.0

  /** The five inputs describing one agent: position relative to the play area, velocity over maxSpeed, +1 if tagged else -1. */
  function Features(v: View): (f: seq<real>)
    ensures |f| == 5
    ensures f[4] == (if v.tagged then 1.0 else -1.0)
  {
    var rel := RelativePosToCircle(Bounds, v.position);
    [rel.x, rel.y, v.velocity.x / MaxSpeed, v.velocity.y / MaxSpeed, if v.tagged then 1.0 else -1.0]
  }

  /** The inputs the listed agents contribute: five for each whose position is not `self`, in order. */
  function OthersFeatures(self: Vec2, views: seq<View>): seq<real>
  {
    if |views| == 0 then []
    else
      var last := views[|views| - 1];
      OthersFeatures(self, views[..|views| - 1]) + (if last.position == self then [] else Features(last))
  }

  /** How many of the listed agents stand somewhere other than `self`. */
  function Differing(self: Vec2, views: seq<View>): (c: nat)
    ensures c <= |views|
  {
    if |views| == 0 then 0
    else Differing(self, views[..|views| - 1]) + (if views[|views| - 1].position == self then 0 else 1)
  }

  lemma {:induction false} OthersFeaturesLength(self: Vec2, views: seq<View>)
    ensures |OthersFeatures(self, views)| == 5 * Differing(self, views)
  {
    if |views| > 0 {
      OthersFeaturesLength(self, views[..|views| - 1]);
    }
  }

  /** The leading network inputs setNetworkInputs writes: the agent itself, then the others. */
  function InputPrefix(self: View, views: seq<View>): seq<real>
  {
    Features(self) + OthersFeatures(self.position, views)
  }

  /** The written prefix has five entries for the agent and five for each agent elsewhere, so at most 5 + 5n. */
  lemma InputPrefixLength(self: View, views: seq<View>)
    ensures |InputPrefix(self, views)| == 5 + 5 * Differing(self.position, views)
    ensures |InputPrefix(self, views)| <= 5 + 5 * |views|
  {
    OthersFeaturesLength(self.position, views);
  }

  /**
   * In a two-agent game the network sees exactly its ten inputs: its own five,
   * then the opponent's five, whichever order the game lists the two in.
   */
  lemma TwoAgentInputs(me: View, other: View)
    requires me.position != other.position
    ensures InputPrefix(me, [me, other]) == Features(me) + Features(other)
    ensures InputPrefix(me, [other, me]) == Features(me) + Features(other)
    ensures |InputPrefix(me, [me, other])| == NNDims[0]
  {
    var p := me.position;
    assert [me, other][..1] == [me] && [me][..0] == [];
    assert OthersFeatures(p, [me]) == [];
    assert OthersFeatures(p, [me, other]) == Features(other);
    assert [other, me][..1] == [other] && [other][..0] == [];
    assert OthersFeatures(p, [other]) == Features(other);
    assert OthersFeatures(p, [other, me]) == Features(other);
  }

  /**
   * When the two agents stand on the same spot only the first five inputs are
   * written; inputs 5 to 9 keep what the previous frame left there.
   */
  lemma CoincidentAgentsHideEachOther(me: View, other: View)
    requires me.position == other.position
    ensures InputPrefix(me, [me, other]) == Features(me)
  {
    var p := me.position;
    assert [me, other][..1] == [me] && [me][..0] == [];
    assert OthersFeatures(p, [me]) == [];
    assert OthersFeatures(p, [me, other]) == [];
  }

  /** The network inputs after setNetworkInputs: the prefix written, the rest as before. */
  function WrittenInputs(old_inputs: seq<real>, prefix: seq<real>): (r: seq<real>)
    requires |prefix| <= |old_inputs|
    ensures |r| == |old_inputs| && r[..|prefix|] == prefix && r[|prefix|..] == old_inputs[|prefix|..]
  {
    prefix + old_inputs[|prefix|..]
  }

  /** The push apart on contact: half the overlap times radius / sum_radii along the line of centres. */
  function Displacement(relative: Vec2, dist: real): Vec2
  {
    if dist == 0.0 then Origin
    else relative.Scale((SumRadii - dist) / dist * 0.5 * (Radius / SumRadii))
  }

  /**
   * After the push the line of centres is scaled by (dist + 2r) / (2 dist):
   * when `dist` is the true distance, the new distance is the mean of the old
   * one and the contact distance 2r, so only half of the overlap is removed.
   */
  lemma PushHalvesOverlap(relative: Vec2, dist: real)
    requires dist > 0.0
    ensures relative.Plus(Displacement(relative, dist).Scale(2.0)) == relative.Scale((dist + SumRadii) / (2.0 * dist))
    ensures (dist + SumRadii) / (2.0 * dist) * dist == (dist + SumRadii) / 2.0
  {
    var k := (SumRadii - dist) / dist * 0.5 * (Radius / SumRadii);
    assert k == (SumRadii - dist) / (4.0 * dist);
    assert 1.0 + 2.0 * k == (dist + SumRadii) / (2.0 * dist);
  }

  /** Whether the tagger hands the tag on at contact: tagged, cooled down and past the start immunity. */
  predicate CanTag(tagged: bool, cooldown: nat, aliveTime: nat)
  {
    tagged && cooldown == 0 && aliveTime > GameStartImmunity
  }

  /** The number of true flags. */
  function CountTrue(flags: seq<bool>): (c: nat)
    ensures c <= |flags|
  {
    if |flags| == 0 then 0 else CountTrue(flags[..|flags| - 1]) + (if flags[|flags| - 1] then 1 else 0)
  }

  /** Changing one flag changes the count by the difference. */
  lemma {:induction false} CountUpdate(flags: seq<bool>, i: nat, v: bool)
    requires i < |flags|
    ensures CountTrue(flags[i := v]) + (if flags[i] then 1 else 0) == CountTrue(flags) + (if v then 1 else 0)
  {
    var n := |flags| - 1;
    if i < n {
      assert flags[i := v][..n] == flags[..n][i := v];
      CountUpdate(flags[..n], i, v);
    } else {
      assert flags[i := v][..n] == flags[..n];
    }
  }

  /** Two distinct true flags make a count of at least two. */
  lemma {:induction false} CountTwo(flags: seq<bool>, i: nat, j: nat)
    requires i < |flags| && j < |flags| && i != j && flags[i] && flags[j]
    ensures CountTrue(flags) >= 2
  {
    CountUpdate(flags, i, false);
    var f := flags[i := false];
    CountUpdate(f, j, false);
  }

  /** Moving the one true flag from i to j keeps the count. */
  lemma HandOver(flags: seq<bool>, i: nat, j: nat)
    requires i < |flags| && j < |flags| && i != j && flags[i] && !flags[j]
    ensures CountTrue(flags[i := false][j := true]) == CountTrue(flags)
  {
    CountUpdate(flags, i, false);
    CountUpdate(flags[i := false], j, true);
  }

  /** The agents' tagged flags, in order. */
  function Flags(agents: seq<Agent>): (f: seq<bool>)
    reads agents
    ensures |f| == |agents| && forall k :: 0 <= k < |agents| ==> f[k] == agents[k].tagged
  {
    seq(|agents|, k requires 0 <= k < |agents| reads agents => agents[k].tagged)
  }

  /** The agents' views, in order. */
  function Views(agents: seq<Agent>): (v: seq<View>)
    reads agents
    ensures |v| == |agents| && forall k :: 0 <= k < |agents| ==> v[k] == agents[k].Shown()
  {
    seq(|agents|, k requires 0 <= k < |agents| reads agents => agents[k].Shown())
  }

  /**
   * After agents[me] met agents[i]: either no flag changed, or the tag moved
   * from me to i, and then i cannot have been tagged before (at most one was).
   */
  lemma FlagsAfterMeeting(agents: seq<Agent>, before: seq<bool>, me: nat, i: nat)
    requires me < |agents| && i < |agents| && me != i && |before| == |agents|
    requires CountTrue(before) <= 1
    requires forall k :: 0 <= k < |agents| && k != me && k != i ==> agents[k].tagged == before[k]
    requires (agents[me].tagged, agents[i].tagged) == (before[me], before[i]) ||
      (before[me] && !agents[me].tagged && agents[i].tagged)
    ensures CountTrue(Flags(agents)) == CountTrue(before)
  {
    if (agents[me].tagged, agents[i].tagged) == (before[me], before[i]) {
      assert Flags(agents) == before;
    } else {
      if before[i] {
        CountTwo(before, me, i);
      }
      HandOver(before, me, i);
      assert Flags(agents) == before[me := false][i := true];
    }
  }

  /** A squared distance as a fraction of the squared arena diameter. */
  function Normalised(d: real): (r: real)
    requires d >= 0.0
    ensures r >= 0.0
  {
    var diameterSquared := Diameter * Diameter;
    assert diameterSquared > 0.0;
    d / diameterSquared
  }

  ghost predicate Distinct(agents: seq<Agent>)
  {
    forall i, j :: 0 <= i < j < |agents| ==> agents[i] != agents[j]
  }

  class Agent {
    var gameStartPos: Vec2
    var position: Vec2
    var velocity: Vec2
    var score: real
    var tagged: bool
    var cooldown: nat
    var aliveTime: nat

    function Shown(): View
      reads this
    {
      View(position, velocity, tagged)
    }

    /** Agent(position): everything else at its default. */
    constructor (p: Vec2)
      ensures position == p && gameStartPos == Origin && velocity == Origin
      ensures score == 0.0 && !tagged && cooldown == 0 && aliveTime == 0
    {
      gameStartPos, position, velocity := Origin, p, Origin;
      score, tagged, cooldown, aliveTime := 0.0, false, 0, 0;
    }

    /** reset: clears the game's bookkeeping and puts the agent at `spawn` (a random point in the source). */
    method Reset(spawn: Vec2)
      modifies this
      ensures aliveTime == 0 && score == 0.0 && cooldown == 0 && !tagged
      ensures velocity == Origin && position == spawn && gameStartPos == old(gameStartPos)
    {
      aliveTime, score, cooldown, tagged := 0, 0.0, 0, false;
      velocity, position := Origin, spawn;
    }

    /** tagLogistics: a tagger that may tag hands the tag to `peer` and gives it the full cooldown. */
    method TagLogistics(peer: Agent)
      requires peer != this
      modifies this, peer
      ensures CanTag(old(tagged), old(cooldown), old(aliveTime)) ==>
        !tagged && peer.tagged && peer.cooldown == TagCooldownAmount
      ensures !CanTag(old(tagged), old(cooldown), old(aliveTime)) ==>
        tagged == old(tagged) && peer.tagged == old(peer.tagged) && peer.cooldown == old(peer.cooldown)
      ensures position == old(position) && velocity == old(velocity) && score == old(score)
      ensures cooldown == old(cooldown) && aliveTime == old(aliveTime) && gameStartPos == old(gameStartPos)
      ensures peer.position == old(peer.position) && peer.velocity == old(peer.velocity) && peer.score == old(peer.score)
      ensures peer.aliveTime == old(peer.aliveTime) && peer.gameStartPos == old(peer.gameStartPos)
    {
      if tagged && cooldown == 0 && aliveTime > GameStartImmunity {
        peer.tagged := true;
        peer.cooldown := TagCooldownAmount;
        tagged := false;
      }
    }

    /**
     * agentCollision: nothing happens unless the two discs touch (squared
     * distance at most (2r)^2); then the tag may pass and the two are pushed
     * apart by equal and opposite displacements.  `sqrt` stands for std::sqrt.
     * The only caller skips agents standing on this agent's spot.
     */
    method AgentCollision(peer: Agent, sqrt: real -> real) returns (hit: bool)
      requires peer.position != position
      modifies this, peer
      ensures hit <==> DistSquared(old(position), old(peer.position)) <= SumRadii * SumRadii
      ensures !hit ==> tagged == old(tagged) && peer.tagged == old(peer.tagged) && peer.cooldown == old(peer.cooldown)
      ensures !hit ==> position == old(position) && peer.position == old(peer.position)
      ensures hit ==> var d := DistSquared(old(position), old(peer.position));
        var disp := Displacement(old(peer.position).Minus(old(position)), sqrt(d));
        position == old(position).Minus(disp) && peer.position == old(peer.position).Plus(disp)
      ensures hit && CanTag(old(tagged), old(cooldown), old(aliveTime)) ==>
        !tagged && peer.tagged && peer.cooldown == TagCooldownAmount
      ensures hit && !CanTag(old(tagged), old(cooldown), old(aliveTime)) ==>
        tagged == old(tagged) && peer.tagged == old(peer.tagged) && peer.cooldown == old(peer.cooldown)
      ensures position.Plus(peer.position) == old(position).Plus(old(peer.position))
      ensures velocity == old(velocity) && score == old(score) && cooldown == old(cooldown)
      ensures aliveTime == old(aliveTime) && gameStartPos == old(gameStartPos)
      ensures peer.velocity == old(peer.velocity) && peer.score == old(peer.score)
      ensures peer.aliveTime == old(peer.aliveTime) && peer.gameStartPos == old(peer.gameStartPos)
    {
      var relative := peer.position.Minus(position);
      var distSquared := DistSquared(position, peer.position);
      if distSquared > SumRadii * SumRadii || distSquared < 0.0 {
        return false;
      }
      TagLogistics(peer);
      var disp := Displacement(relative, sqrt(distSquared));
      position := position.Minus(disp);
      peer.position := peer.position.Plus(disp);
      hit := true;
    }

    /**
     * agentCollisions: collides with every listed agent standing elsewhere
     * and, while tagged, adds the normalised squared distance plus 0.5 to the
     * score for each.  `met` counts the agents found standing elsewhere, so
     * an agent still tagged at the end has gained at least 0.5 per agent met.
     * With this agent in the list, no agent listed twice and at most one of
     * them tagged, the number of tagged agents is kept.
     */
    method AgentCollisions(agents: seq<Agent>, sqrt: real -> real) returns (ghost met: nat)
      requires this in agents && Distinct(agents) && CountTrue(Flags(agents)) <= 1
      modifies agents
      ensures CountTrue(Flags(agents)) == old(CountTrue(Flags(agents)))
      ensures met < |agents|
      ensures score >= old(score)
      ensures tagged ==> score >= old(score) + 0.5 * met as real
      ensures !old(tagged) ==> score == old(score)
      ensures tagged ==> old(tagged)
      ensures velocity == old(velocity) && cooldown == old(cooldown) && aliveTime == old(aliveTime)
      ensures gameStartPos == old(gameStartPos)
      ensures forall k :: 0 <= k < |agents| && agents[k] != this ==>
        agents[k].aliveTime == old(agents[k].aliveTime) && agents[k].score == old(agents[k].score) &&
        agents[k].gameStartPos == old(agents[k].gameStartPos)
    {
      ghost var me :| 0 <= me < |agents| && agents[me] == this;
      met := 0;
      for i := 0 to |agents|
        invariant CountTrue(Flags(agents)) == old(CountTrue(Flags(agents)))
        invariant met <= i && (me < i ==> met < i)
        invariant score >= old(score)
        invariant tagged ==> score >= old(score) + 0.5 * met as real
        invariant !old(tagged) ==> score == old(score) && !tagged
        invariant tagged ==> old(tagged)
        invariant velocity == old(velocity) && cooldown == old(cooldown) && aliveTime == old(aliveTime)
        invariant gameStartPos == old(gameStartPos)
        invariant forall k :: 0 <= k < |agents| && agents[k] != this ==>
          agents[k].aliveTime == old(agents[k].aliveTime) && agents[k].score == old(agents[k].score) &&
          agents[k].gameStartPos == old(agents[k].gameStartPos)
      {
        if agents[i].position != position {
          Meet(agents, me, i, sqrt);
          met := met + 1;
        }
      }
    }

    /** One step of agentCollisions: collide with agents[i], then score the encounter if still tagged. */
    method Meet(agents: seq<Agent>, ghost me: nat, i: nat, sqrt: real -> real)
      requires me < |agents| && i < |agents| && agents[me] == this && agents[i].position != position
      requires Distinct(agents) && CountTrue(Flags(agents)) <= 1
      modifies agents
      ensures CountTrue(Flags(agents)) == old(CountTrue(Flags(agents)))
      ensures score == old(score) + (if tagged then Normalised(DistSquared(position, agents[i].position)) + 0.5 else 0.0)
      ensures tagged ==> old(tagged)
      ensures velocity == old(velocity) && cooldown == old(cooldown) && aliveTime == old(aliveTime)
      ensures gameStartPos == old(gameStartPos)
      ensures forall k :: 0 <= k < |agents| && agents[k] != this ==>
        agents[k].aliveTime == old(agents[k].aliveTime) && agents[k].score == old(agents[k].score) &&
        agents[k].gameStartPos == old(agents[k].gameStartPos)
    {
      var agent := agents[i];
      ghost var before := Flags(agents);
      var hit := AgentCollision(agent, sqrt);
      var distNorm := Normalised(DistSquared(position, agent.position));
      if tagged {
        score := score + distNorm + 0.5;
      }
      FlagsAfterMeeting(agents, before, me, i);
    }

    /**
     * setNetworkInputs: writes this agent's five inputs and then five for
     * each listed agent standing elsewhere into the network's inputs.  The
     * writes must stay within the 18 inputs.
     */
    method SetNetworkInputs(network: Net9, agents: seq<Agent>)
      requires network.Valid()
      requires |InputPrefix(Shown(), Views(agents))| <= LargestLayer
      modifies network
      ensures network.Valid()
      ensures network.inputs == WrittenInputs(old(network.inputs), InputPrefix(Shown(), Views(agents)))
      ensures network.Parameters() == old(network.Parameters())
      ensures network.outputs == old(network.outputs) && network.temp == old(network.temp)
    {
      ghost var views := Views(agents);
      var written := Features(Shown());
      for i := 0 to |agents|
        invariant written == Features(Shown()) + OthersFeatures(position, views[..i])
      {
        var agent := agents[i];
        assert views[..i + 1][..i] == views[..i] && views[i] == agent.Shown();
        if agent.position != position {
          written := written + Features(agent.Shown());
        }
      }
      assert views[..|agents|] == views;
      network.inputs := written + network.inputs[|written|..];
    }

    /**
     * update: feeds the network, moves by five times its first two outputs,
     * collides, is kept inside the border (`project` stands for the radial
     * projection `border` computes with sqrt), ages one frame, scores one
     * point if tagged and, if tagged, counts its cooldown down.
     */
    method Update(network: Net9, agents: seq<Agent>, act: real -> real, sqrt: real -> real, project: Vec2 -> Vec2)
      requires network.Valid()
      requires this in agents && Distinct(agents) && CountTrue(Flags(agents)) <= 1
      requires |InputPrefix(Shown(), Views(agents))| <= LargestLayer
      modifies this, network, agents
      ensures network.Valid() && network.Parameters() == old(network.Parameters())
      ensures network.inputs == WrittenInputs(old(network.inputs), old(InputPrefix(Shown(), Views(agents))))
      ensures network.outputs == network.temp == Forward(network.Parameters(), network.inputs, old(network.temp), act)
      ensures CountTrue(Flags(agents)) == old(CountTrue(Flags(agents)))
      ensures aliveTime == old(aliveTime) + 1
      ensures score >= old(score) + (if tagged then 1.0 else 0.0)
      ensures tagged ==> old(tagged)
      ensures cooldown == if tagged && old(cooldown) > 0 then old(cooldown) - 1 else old(cooldown)
      ensures velocity == old(velocity) && gameStartPos == old(gameStartPos)
      ensures forall k :: 0 <= k < |agents| && agents[k] != this ==>
        agents[k].aliveTime == old(agents[k].aliveTime) && agents[k].score == old(agents[k].score) &&
        agents[k].gameStartPos == old(agents[k].gameStartPos)
    {
      NotAnAgent(network, agents);
      var step := Steer(network, agents, act);
      ghost var met := Move(step, agents, sqrt, project);
    }

    /** A network is none of the agents. */
    static lemma NotAnAgent(network: Net9, agents: seq<Agent>)
      ensures forall k :: 0 <= k < |agents| ==> agents[k] as object != network
    {
    }

    /** The network half of update: inputs written, outputs computed, the step (five times the first two outputs) returned. */
    method Steer(network: Net9, agents: seq<Agent>, act: real -> real) returns (step: Vec2)
      requires network.Valid()
      requires |InputPrefix(Shown(), Views(agents))| <= LargestLayer
      modifies network
      ensures network.Valid() && network.Parameters() == old(network.Parameters())
      ensures network.inputs == WrittenInputs(old(network.inputs), InputPrefix(Shown(), Views(agents)))
      ensures network.outputs == network.temp == Forward(network.Parameters(), network.inputs, old(network.temp), act)
      ensures step == Vec2(network.outputs[0] * 5.0, network.outputs[1] * 5.0)
      ensures unchanged(this) && unchanged(agents)
    {
      SetNetworkInputs(network, agents);
      network.ComputeOutput(act);
      step := Vec2(network.outputs[0] * 5.0, network.outputs[1] * 5.0);
    }

    /**
     * The movement half of update: step, collisions, border, then the frame's
     * bookkeeping.  `met` is the number of agents the collisions met.
     */
    method Move(step: Vec2, agents: seq<Agent>, sqrt: real -> real, project: Vec2 -> Vec2) returns (ghost met: nat)
      requires this in agents && Distinct(agents) && CountTrue(Flags(agents)) <= 1
      modifies agents
      ensures CountTrue(Flags(agents)) == old(CountTrue(Flags(agents)))
      ensures aliveTime == old(aliveTime) + 1
      ensures met < |agents|
      ensures score >= old(score) + (if tagged then 1.0 else 0.0)
      ensures tagged ==> score >= old(score) + 1.0 + 0.5 * met as real
      ensures !old(tagged) ==> score == old(score)
      ensures tagged ==> old(tagged)
      ensures cooldown == if tagged && old(cooldown) > 0 then old(cooldown) - 1 else old(cooldown)
      ensures velocity == old(velocity) && gameStartPos == old(gameStartPos)
      ensures forall k :: 0 <= k < |agents| && agents[k] != this ==>
        agents[k].aliveTime == old(agents[k].aliveTime) && agents[k].score == old(agents[k].score) &&
        agents[k].gameStartPos == old(agents[k].gameStartPos)
    {
      label start:
      position := position.Plus(step);
      FlagsKept@start(agents);
      met := AgentCollisions(agents, sqrt);
      label collided:
      Bookkeep(project);
      FlagsKept@collided(agents);
    }

    /** The end of the movement half: the border, the clock, the score and the cooldown. */
    method Bookkeep(project: Vec2 -> Vec2)
      modifies this
      ensures tagged == old(tagged) && velocity == old(velocity) && gameStartPos == old(gameStartPos)
      ensures aliveTime == old(aliveTime) + 1
      ensures score == old(score) + (if tagged then 1.0 else 0.0)
      ensures cooldown == if tagged && old(cooldown) > 0 then old(cooldown) - 1 else old(cooldown)
    {
      var corrected;
      position, corrected := Border(Bounds, position, Radius, project);
      aliveTime := aliveTime + 1;
      score := score + if tagged then 1.0 else 0.0;
      if tagged && cooldown > 0 {
        cooldown := cooldown - 1;
      }
    }

    /** Changing only this agent's other fields leaves every agent's tag, and so the count, as it was. */
    twostate lemma FlagsKept(agents: seq<Agent>)
      requires this in agents && tagged == old(tagged)
      requires forall k :: 0 <= k < |agents| && agents[k] != this ==> unchanged(agents[k])
      ensures Flags(agents) == old(Flags(agents))
      ensures forall k :: 0 <= k < |agents| && agents[k] != this ==>
        agents[k].aliveTime == old(agents[k].aliveTime) && agents[k].score == old(agents[k].score) &&
        agents[k].gameStartPos == old(agents[k].gameStartPos)
    {
      assert forall k :: 0 <= k < |agents| ==> agents[k].tagged == old(agents[k].tagged);
    }
  }
}
