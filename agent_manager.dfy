/** The agent manager: a dict from agent id to agent class, filled at import
    time with the chatbot and the ReAct agent. A runnable agent is a new
    instance of the registered class, whose construction checks the
    class's required environment variables (a parameter). */
module Agents {
  import opened Wrappers
  import opened AgentRegistry
  import ChatbotAgent

  /** ReActAgent sets neither requirements nor config_schema, so its schema
      is the base Configuration, which has no fields. */
  const ReAct: AgentClass := AgentClass("react", "A react agent that can answer questions and help with tasks.", None, None, [])

  /** An instance of an agent class. */
  datatype Agent = Agent(cls: AgentClass)

  /** The chatbot needs both API keys; the ReAct agent needs nothing. */
  lemma RegisteredRequirements(env: set<string>)
    ensures RequirementsMet(ChatbotAgent.Chatbot.requirements, env) <==> "TAVILY_API_KEY" in env && "ZHIPUAI_API_KEY" in env
    ensures RequirementsMet(ReAct.requirements, env)
  {
    assert "ZHIPUAI_API_KEY" in ["TAVILY_API_KEY", "ZHIPUAI_API_KEY"];
  }

  class AgentManager {
    var agents: map<string, AgentClass>

    /** AgentManager(): no agents. */
    constructor ()
      ensures agents == map[]
    {
      agents := map[];
    }

    /** add_agent(agent_id, agent_class): registers or replaces one id. */
    method AddAgent(id: string, cls: AgentClass)
      modifies this
      ensures agents == old(agents)[id := cls]
      ensures GetAgent(id) == Success(cls)
      ensures forall other :: other != id ==> GetAgent(other) == old(GetAgent(other))
    {
      agents := agents[id := cls];
    }

    /** get_agent(agent_id): the registered class, KeyError for an unknown id. */
    function GetAgent(id: string): (r: Result<AgentClass>)
      reads this
      ensures r.Success? <==> id in agents
      ensures r.Success? ==> r.value == agents[id]
      ensures r.Failure? ==> r.error == KeyError(id)
    {
      if id in agents then Success(agents[id]) else Failure(KeyError(id))
    }

    /** get_runnable_agent(agent_id): a new instance of the registered class,
        once its requirements are met. */
    method GetRunnableAgent(id: string, env: set<string>) returns (r: Result<Agent>)
      ensures r.Success? <==> id in agents && RequirementsMet(agents[id].requirements, env)
      ensures r.Success? ==> r.value == Agent(agents[id])
      ensures id !in agents ==> r == Failure(KeyError(id))
      ensures id in agents && r.Failure? ==> r.error.ValueError?
    {
      var cls := GetAgent(id);
      if cls.Failure? {
        return Failure(cls.error);
      }
      var checked := CheckRequirements(cls.value.requirements, env);
      if checked.Failure? {
        return Failure(checked.error);
      }
      r := Success(Agent(cls.value));
    }
  }

  /** The module-level agent_manager: exactly "chatbot" and "react". */
  method DefaultManager() returns (m: AgentManager)
    ensures fresh(m)
    ensures m.agents == map["chatbot" := ChatbotAgent.Chatbot, "react" := ReAct]
    ensures m.agents.Keys == {"chatbot", "react"}
  {
    m := new AgentManager();
    m.AddAgent("chatbot", ChatbotAgent.Chatbot);
    m.AddAgent("react", ReAct);
  }
}
