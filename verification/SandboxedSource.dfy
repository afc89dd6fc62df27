/** The source policy and the Tool Broker together: what a program that reached the sandbox looks like. */
module SandboxedSource {
  import opened Json
  import Policy = SourcePolicy
  import PolicyFacts = SourcePolicyProperties
  import Broker = ToolBroker
  import BrokerFacts = ToolBrokerProperties
  import Forbidden = ForbiddenFields

  /** The broker's policy is the visitor's verdict on the parsed module; a text that does not parse is never clean. */
  ghost predicate UsesVisitor(p: Broker.Platform, parse: string -> Option<seq<Policy.Node>>) {
    forall source | p.policy(source) == Some([]) ::
      parse(source).Some? && PolicyFacts.ViolationFree(parse(source).value)
  }

  /**
   * Every node of an executed program, at any depth, obeys the rules at each position where it is visited: which
   * module a name stands for is what the imports visited before say, and nothing is promised about later ones.
   */
  lemma ExecutedSourceIsSafe(
    c: Broker.Config, p: Broker.Platform, w: Broker.World, toolId: string, skill: string, payload: Value,
    context: Option<Broker.Context>, parse: string -> Option<seq<Policy.Node>>, n: Policy.Node)
    requires Forbidden.Enumerates(p.order) && UsesVisitor(p, parse)
    requires Broker.Invoke(c, p, w, toolId, skill, payload, context).calls != []
    ensures var source := Broker.Invoke(c, p, w, toolId, skill, payload, context).calls[0].source;
            && source.Str? && parse(source.s).Some?
            && var body := parse(source.s).value;
               var nodes := Policy.Preorder(Policy.Module(body));
               PolicyFacts.Within(n, Policy.Module(body)) ==>
                 && (exists i | 0 <= i < |nodes| :: nodes[i] == n)
                 && forall i | 0 <= i < |nodes| && nodes[i] == n ::
                      PolicyFacts.NodeAllowed(nodes, i, Policy.FunctionNames(body))
  {
    hide Broker.Invoke, Broker.RequestOf, Broker.NoOutputs, PolicyFacts.NodeAllowed;
    BrokerFacts.InvocationSafe(c, p, w, toolId, skill, payload, context);
    var source := Broker.Invoke(c, p, w, toolId, skill, payload, context).calls[0].source;
    var body := parse(source.s).value;
    if PolicyFacts.Within(n, Policy.Module(body)) {
      PolicyFacts.ViolationFreeIsSafe(body, n);
    }
  }
}
