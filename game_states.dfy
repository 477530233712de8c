/**
 * The game's state machine (source/game/GameStateManager.cpp,
 * source/game/GameState.cpp): a stack of game states, the top one drawn and
 * the bottom one updated each frame, and a set of popped states waiting to
 * be deleted at the end of the next update.
 *
 * A state's onUpdate and onRender callbacks are the concrete states' own
 * code; the manager's dispatch methods return the state they call.
 */
module GameStates {

  import opened Wrappers

  /** popState on the values of the two containers: the top state moves to the dead set. */
  function Pop(stack: seq<GameState>, dead: set<GameState>): (r: (seq<GameState>, set<GameState>))
    ensures stack == [] ==> r == (stack, dead)
    ensures stack != [] ==> r.0 + [stack[|stack| - 1]] == stack && r.1 == dead + {stack[|stack| - 1]}
    ensures |r.0| == if stack == [] then 0 else |stack| - 1
  {
    if stack == [] then (stack, dead) else (stack[..|stack| - 1], dead + {stack[|stack| - 1]})
  }

  /** Popping a state just pushed gives back the stack it was pushed on, and marks that state dead. */
  lemma PopAfterPush(stack: seq<GameState>, dead: set<GameState>, state: GameState)
    ensures Pop(stack + [state], dead) == (stack, dead + {state})
  {
    assert (stack + [state])[..|stack|] == stack;
  }

  /**
   * changeState on a running manager replaces the top state: the stack keeps
   * its depth, the states below are untouched, the new state is on top and
   * the old top is dead. On an empty stack the new state becomes the only one.
   */
  lemma ChangeStateReplacesTop(stack: seq<GameState>, dead: set<GameState>, state: GameState)
    ensures var p := Pop(stack, dead);
      stack != [] ==>
        |p.0 + [state]| == |stack| && (p.0 + [state])[|stack| - 1] == state
        && (forall i :: 0 <= i < |stack| - 1 ==> (p.0 + [state])[i] == stack[i])
        && stack[|stack| - 1] in p.1
    ensures stack == [] ==> Pop(stack, dead).0 + [state] == [state]
  {
    if stack != [] {
      var p := Pop(stack, dead);
      assert p.0 == stack[..|stack| - 1];
    }
  }

  class GameState {
    var manager: GameStateManager?

    /** A state in no manager yet. */
    constructor ()
      ensures manager == null
    {
      manager := null;
    }

    /** popState: ask the manager this state runs in to pop the top state. */
    method PopState()
      requires manager != null
      modifies manager
      ensures manager == old(manager)
      ensures (manager.stateStack, manager.deadStates) == Pop(old(manager.stateStack), old(manager.deadStates))
    {
      manager.PopState();
    }

    /** pushState: ask the manager this state runs in to push `state`. */
    method PushState(state: GameState)
      requires manager != null
      modifies manager, state
      ensures manager == old(manager) && state.manager == manager
      ensures manager.stateStack == old(manager.stateStack) + [state]
      ensures manager.deadStates == old(manager.deadStates)
    {
      manager.PushState(state);
    }

    /** changeState: pop the top state (normally this one), then push `state`. */
    method ChangeState(state: GameState)
      requires manager != null
      modifies manager, state
      ensures manager == old(manager) && state.manager == manager
      ensures var p := Pop(old(manager.stateStack), old(manager.deadStates));
        manager.stateStack == p.0 + [state] && manager.deadStates == p.1
    {
      var m := manager;
      m.PopState();
      m.PushState(state);
    }
  }

  class GameStateManager {
    var stateStack: seq<GameState>
    var deadStates: set<GameState>

    /** An empty manager. */
    constructor ()
      ensures stateStack == [] && deadStates == {}
    {
      stateStack, deadStates := [], {};
    }

    /** isRunning: some state is on the stack. */
    function IsRunning(): bool
      reads this
    {
      stateStack != []
    }

    /**
     * popState: nothing on an empty stack; otherwise the top state leaves the
     * stack and joins the dead states.
     */
    method PopState()
      modifies this
      ensures (stateStack, deadStates) == Pop(old(stateStack), old(deadStates))
      ensures old(!IsRunning()) ==> stateStack == old(stateStack) && deadStates == old(deadStates)
    {
      if stateStack != [] {
        var state := stateStack[|stateStack| - 1];
        deadStates := deadStates + {state};
        stateStack := stateStack[..|stateStack| - 1];
      }
    }

    /** pushState: the state runs in this manager, on top of the stack. */
    method PushState(state: GameState)
      modifies this, state
      ensures state.manager == this
      ensures stateStack == old(stateStack) + [state] && deadStates == old(deadStates)
      ensures IsRunning()
    {
      state.manager := this;
      stateStack := stateStack + [state];
    }

    /** render: the state that draws, which is the top of the stack, if any. */
    method Render() returns (target: Option<GameState>)
      ensures IsRunning() <==> target.Some?
      ensures target.Some? ==> target.value == stateStack[|stateStack| - 1]
    {
      if stateStack != [] {
        target := Some(stateStack[|stateStack| - 1]);
      } else {
        target := None;
      }
    }

    /**
     * update, first half: the state whose onUpdate runs, which is the bottom
     * of the stack, if any. Its onUpdate is the concrete state's own code and
     * runs after this and before FinishUpdate; it may pop, push or change
     * states.
     */
    method Dispatch() returns (target: Option<GameState>)
      ensures IsRunning() <==> target.Some?
      ensures target.Some? ==> target.value == stateStack[0]
    {
      if stateStack != [] {
        target := Some(stateStack[0]);
      } else {
        target := None;
      }
    }

    /**
     * update, second half, after the dispatched onUpdate has returned: every
     * dead state, including any that onUpdate popped, is deleted; the stack
     * is kept.
     */
    method FinishUpdate()
      modifies this
      ensures stateStack == old(stateStack) && deadStates == {}
    {
      deadStates := {};
    }
  }
}
