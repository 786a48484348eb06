/**
 * One game of tag: two agents, each driven by its own network, and a frame
 * counter.  Agent 0 is the learner and starts as "it"; agent 1 plays the
 * snapshot opponent.  The tag only ever moves between the two, so exactly
 * one of them is "it" for the whole game.
 */
module Games {
  import opened Utility
  import opened Settings
  import opened Neural9
  import opened Agents

  class Game {
    var timeRemaining: int
    const agents: seq<Agent>
    const networks: seq<Net9>

    ghost predicate Valid()
      reads this, agents, networks
    {
      |agents| == AgentsPerGame && |networks| == AgentsPerGame &&
      Distinct(agents) && networks[0] != networks[1] &&
      networks[0].Valid() && networks[1].Valid() &&
      CountTrue(Flags(agents)) <= 1
    }

    /** Game() followed by initAgent for each of the two agents. */
    constructor (agentList: seq<Agent>, nets: seq<Net9>)
      requires |agentList| == AgentsPerGame && |nets| == AgentsPerGame
      requires agentList[0] != agentList[1] && nets[0] != nets[1]
      requires nets[0].Valid() && nets[1].Valid() && !agentList[0].tagged && !agentList[1].tagged
      ensures Valid() && agents == agentList && networks == nets && timeRemaining == GameFrameLength
    {
      agents, networks, timeRemaining := agentList, nets, GameFrameLength;
      new;
      assert Flags(agents) == [false, false];
      assert [false, false][..1] == [false] && [false][..0] == [];
    }

    /**
     * What initiliseGame leaves: the full frame budget, agent 0 "it" and
     * agent 1 not, every counter and velocity cleared, and the two agents at
     * `p0` and `p1`.
     */
    ghost predicate Started(p0: Vec2, p1: Vec2)
      reads this, agents
    {
      |agents| == AgentsPerGame && timeRemaining == GameFrameLength &&
      agents[0].tagged && !agents[1].tagged && agents[0].position == p0 && agents[1].position == p1 &&
      forall k :: 0 <= k < AgentsPerGame ==>
        agents[k].score == 0.0 && agents[k].aliveTime == 0 && agents[k].cooldown == 0 && agents[k].velocity == Origin
    }

    /**
     * initiliseGame: full frame budget, both agents reset (to the random
     * points `spawns`), the learner made "it", and the two moved to the
     * shared starting positions.
     */
    method Initialise(starting: seq<Vec2>, spawns: seq<Vec2>)
      requires Valid() && |starting| >= AgentsPerGame && |spawns| >= AgentsPerGame
      modifies this, agents
      ensures Valid() && Started(starting[0], starting[1]) && CountTrue(Flags(agents)) == 1
      ensures forall k :: 0 <= k < AgentsPerGame ==> agents[k].gameStartPos == old(agents[k].gameStartPos)
    {
      Outside();
      timeRemaining := GameFrameLength;
      ResetAgents(spawns);
      TagAndPlace(agents[0], agents[1], starting[0], starting[1]);
      assert Flags(agents) == [true, false];
      assert [true, false][..1] == [true] && [true][..0] == [];
      StillValid();
    }

    /** initiliseGame's loop: each agent reset, to its own random point in `spawns`. */
    method ResetAgents(spawns: seq<Vec2>)
      requires |agents| == AgentsPerGame && Distinct(agents) && |spawns| >= AgentsPerGame
      modifies agents
      ensures !agents[0].tagged && agents[0].score == 0.0 && agents[0].aliveTime == 0 && agents[0].cooldown == 0
      ensures agents[0].velocity == Origin && agents[0].position == spawns[0] && agents[0].gameStartPos == old(agents[0].gameStartPos)
      ensures !agents[1].tagged && agents[1].score == 0.0 && agents[1].aliveTime == 0 && agents[1].cooldown == 0
      ensures agents[1].velocity == Origin && agents[1].position == spawns[1] && agents[1].gameStartPos == old(agents[1].gameStartPos)
    {
      for a := 0 to AgentsPerGame
        invariant forall k :: 0 <= k < a ==>
          !agents[k].tagged && agents[k].score == 0.0 && agents[k].aliveTime == 0 && agents[k].cooldown == 0 &&
          agents[k].velocity == Origin && agents[k].position == spawns[k]
        invariant forall k :: 0 <= k < AgentsPerGame ==> agents[k].gameStartPos == old(agents[k].gameStartPos)
      {
        agents[a].Reset(spawns[a]);
      }
    }

    /**
     * tick: each agent in turn updates with its own network against both
     * agents; then the frame counter drops by one and the game is over when
     * it reaches zero.  Each agent ages one frame, no score goes down and the
     * number of agents that are "it" is kept.
     */
    method Tick(act: real -> real, sqrt: real -> real, project: Vec2 -> Vec2) returns (over: bool)
      requires Valid()
      modifies this, agents, networks
      ensures Valid()
      ensures timeRemaining == old(timeRemaining) - 1 && (over <==> timeRemaining == 0)
      ensures CountTrue(Flags(agents)) == old(CountTrue(Flags(agents)))
      ensures forall k :: 0 <= k < AgentsPerGame ==>
        agents[k].aliveTime == old(agents[k].aliveTime) + 1 && agents[k].score >= old(agents[k].score) &&
        agents[k].gameStartPos == old(agents[k].gameStartPos)
      ensures forall k :: 0 <= k < AgentsPerGame ==> networks[k].Parameters() == old(networks[k].Parameters())
    {
      Outside();
      TickAgent(0, act, sqrt, project);
      TickAgent(1, act, sqrt, project);
      label ticked:
      timeRemaining := timeRemaining - 1;
      CounterOnly@ticked();
      over := timeRemaining == 0;
    }

    /** Moving the frame counter alone keeps the game valid and every agent and network as it was. */
    twostate lemma CounterOnly()
      requires old(Valid())
      requires forall k :: 0 <= k < |agents| ==> unchanged(agents[k])
      requires forall k :: 0 <= k < |networks| ==> unchanged(networks[k])
      ensures Valid() && Flags(agents) == old(Flags(agents))
    {
      assert Flags(agents) == old(Flags(agents));
    }

    /** Rewriting the agents alone, with at most one "it", keeps the game valid. */
    twostate lemma StillValid()
      requires old(Valid()) && unchanged(networks[0], networks[1]) && CountTrue(Flags(agents)) <= 1
      ensures Valid()
    {
    }

    /** The game is neither of its agents nor of its networks. */
    lemma Outside()
      ensures forall k :: 0 <= k < |agents| ==> agents[k] as object != this
      ensures forall k :: 0 <= k < |networks| ==> networks[k] as object != this
    {
    }

    /** One pass of tick's loop: agents[i] updates with networks[i]. */
    method TickAgent(i: nat, act: real -> real, sqrt: real -> real, project: Vec2 -> Vec2)
      requires Valid() && i < AgentsPerGame
      modifies agents, networks
      ensures Valid() && timeRemaining == old(timeRemaining)
      ensures CountTrue(Flags(agents)) == old(CountTrue(Flags(agents)))
      ensures forall k :: 0 <= k < AgentsPerGame ==>
        agents[k].aliveTime == old(agents[k].aliveTime) + (if k == i then 1 else 0) &&
        agents[k].score >= old(agents[k].score) && agents[k].gameStartPos == old(agents[k].gameStartPos)
      ensures forall k :: 0 <= k < AgentsPerGame ==> networks[k].Parameters() == old(networks[k].Parameters())
    {
      InputPrefixLength(agents[i].Shown(), Views(agents));
      agents[i].Update(networks[i], agents, act, sqrt, project);
    }
  }

  /** The end of initiliseGame: the learner `a0` made "it", and the two agents moved to `p0` and `p1`. */
  method TagAndPlace(a0: Agent, a1: Agent, p0: Vec2, p1: Vec2)
    requires a0 != a1
    modifies a0, a1
    ensures a0.tagged && a1.tagged == old(a1.tagged) && a0.position == p0 && a1.position == p1
    ensures a0.score == old(a0.score) && a0.aliveTime == old(a0.aliveTime) && a0.cooldown == old(a0.cooldown)
    ensures a1.score == old(a1.score) && a1.aliveTime == old(a1.aliveTime) && a1.cooldown == old(a1.cooldown)
    ensures a0.velocity == old(a0.velocity) && a0.gameStartPos == old(a0.gameStartPos)
    ensures a1.velocity == old(a1.velocity) && a1.gameStartPos == old(a1.gameStartPos)
  {
    a0.tagged := true;
    a0.position := p0;
    a1.position := p1;
  }

  /**
   * runGame: plays a game for its full 2000 frames, whatever tick reports on
   * the way; `reports` lists those reports in order (the source drops them).
   */
  method RunGame(game: Game, act: real -> real, sqrt: real -> real, project: Vec2 -> Vec2) returns (reports: seq<bool>)
    requires game.Valid()
    modifies game, game.agents, game.networks
    ensures game.Valid()
    ensures game.timeRemaining == old(game.timeRemaining) - GameFrameLength
    ensures |reports| == GameFrameLength
    ensures forall i :: 0 <= i < GameFrameLength ==> (reports[i] <==> old(game.timeRemaining) == i + 1)
    ensures CountTrue(Flags(game.agents)) == old(CountTrue(Flags(game.agents)))
    ensures forall k :: 0 <= k < AgentsPerGame ==>
      game.agents[k].aliveTime == old(game.agents[k].aliveTime) + GameFrameLength &&
      game.agents[k].score >= old(game.agents[k].score)
  {
    reports := [];
    for i := 0 to GameFrameLength
      invariant game.Valid()
      invariant game.timeRemaining == old(game.timeRemaining) - i
      invariant |reports| == i && forall j :: 0 <= j < i ==> (reports[j] <==> old(game.timeRemaining) == j + 1)
      invariant CountTrue(Flags(game.agents)) == old(CountTrue(Flags(game.agents)))
      invariant forall k :: 0 <= k < AgentsPerGame ==>
        game.agents[k].aliveTime == old(game.agents[k].aliveTime) + i &&
        game.agents[k].score >= old(game.agents[k].score)
    {
      var over := game.Tick(act, sqrt, project);
      reports := reports + [over];
    }
  }

  /**
   * A game started by initiliseGame and played by runGame: ticks 1 to 1999
   * report that the game goes on and tick 2000 that it is over, leaving the
   * counter at exactly zero, still with exactly one agent "it".
   */
  method PlayOne(game: Game, starting: seq<Vec2>, spawns: seq<Vec2>, act: real -> real, sqrt: real -> real, project: Vec2 -> Vec2)
    returns (reports: seq<bool>)
    requires game.Valid() && |starting| >= AgentsPerGame && |spawns| >= AgentsPerGame
    modifies game, game.agents, game.networks
    ensures game.Valid() && game.timeRemaining == 0 && CountTrue(Flags(game.agents)) == 1
    ensures forall k :: 0 <= k < AgentsPerGame ==> game.agents[k].aliveTime == GameFrameLength
    ensures |reports| == GameFrameLength && reports[GameFrameLength - 1]
    ensures forall i :: 0 <= i < GameFrameLength - 1 ==> !reports[i]
  {
    game.Initialise(starting, spawns);
    reports := RunGame(game, act, sqrt, project);
  }
}
