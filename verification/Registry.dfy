/**
 The registry of one pod as an object (pkg/controller/registry.go:81-111). Each method is the registry's
 part of one step of the machine in module Holders.
 */
module Registries {
  import opened Frames
  import opened Holders

  /** A connection; the number is that of the Control stream that made it. */
  class Conn {
    const id: nat
    const agent: Agent

    constructor (id: nat, agent: Agent)
      ensures this.id == id && this.agent == agent
    {
      this.id, this.agent := id, agent;
    }
  }

  class Registry {
    const pod: Pod
    var agents: map<Agent, Conn>

    ghost function Entry(agent: Agent): Option<nat>
      reads this
    {
      if agent in agents then Some(agents[agent].id) else None
    }

    /** The object holds exactly what the machine says this pod's registry holds. */
    ghost predicate Shows(s: Core)
      reads this
    {
      forall agent :: Entry(agent) == Get(s, pod, agent)
    }

    constructor (pod: Pod)
      ensures this.pod == pod && agents == map[] && Shows(START.core)
    {
      this.pod := pod;
      agents := map[];
    }

    /** Adds a connection and hands back the one it displaced, for the caller to close. */
    method Add(c: Conn, ghost s: Core) returns (replaced: Conn?)
      requires Shows(s)
      requires c.id in s.streams && s.streams[c.id].phase.Silent? && s.streams[c.id].pod == pod
      modifies this
      ensures Shows(CoreNext(s, Hello(c.id, c.agent)))
      ensures agents == old(agents)[c.agent := c]
      ensures replaced == if c.agent in old(agents) then old(agents)[c.agent] else null
      ensures CoreNext(s, Hello(c.id, c.agent)).streams[c.id].phase
           == Publishing(if replaced == null then None else Some(replaced.id))
    {
      replaced := if c.agent in agents then agents[c.agent] else null;
      assert Entry(c.agent) == Get(s, pod, c.agent);
      agents := agents[c.agent := c];
      forall agent
        ensures Entry(agent) == Get(CoreNext(s, Hello(c.id, c.agent)), pod, agent)
      {
        assert old(Entry(agent)) == Get(s, pod, agent);
      }
    }

    /** Removes the connection only while it is still the registered one; says whether it was. */
    method Remove(c: Conn, ghost s: Core) returns (removed: bool)
      requires Shows(s)
      requires c.id in s.streams && s.streams[c.id] == Stream(pod, c.agent, Running)
      requires forall agent | agent in agents && agents[agent].id == c.id :: agents[agent] == c
      modifies this
      ensures Shows(CoreNext(s, Holders.Remove(c.id)))
      ensures removed <==> c.agent in old(agents) && old(agents)[c.agent] == c
      ensures agents == if removed then old(agents) - {c.agent} else old(agents)
      ensures removed <==> CoreNext(s, Holders.Remove(c.id)).streams[c.id].phase.Dropping?
    {
      removed := c.agent in agents && agents[c.agent] == c;
      assert Entry(c.agent) == Get(s, pod, c.agent);
      if removed {
        agents := agents - {c.agent};
      }
      forall agent
        ensures Entry(agent) == Get(CoreNext(s, Holders.Remove(c.id)), pod, agent)
      {
        assert old(Entry(agent)) == Get(s, pod, agent);
      }
    }
  }
}
