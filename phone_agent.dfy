/**
 * The LLM-driven phone agent (`PhoneAgent.run`), seen from its callers: each call sends one
 * task, and whether the call raises is decided by an oracle over the tasks sent so far.
 */
module PhoneAgent {

  class Agent<T> {
    /** The tasks sent so far, oldest first. */
    var calls: seq<T>

    /** Whether `run` raises for a task, given the earlier tasks. */
    const raises: (seq<T>, T) -> bool

    constructor(raises: (seq<T>, T) -> bool)
      ensures calls == [] && this.raises == raises
    {
      calls := [];
      this.raises := raises;
    }

    /** `agent.run(task)`: the task is sent whether or not the call raises. */
    method Run(task: T) returns (raised: bool)
      modifies this
      ensures calls == old(calls) + [task]
      ensures raised == raises(old(calls), task)
    {
      raised := raises(calls, task);
      calls := calls + [task];
    }
  }
}
