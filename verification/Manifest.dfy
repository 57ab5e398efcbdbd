/** Decoded Structurizr manifests and the desired hosts made from them. */
module Manifest {
  import opened Counting
  import opened DriftDomain

  /** A decoded JSON property. `Fraction` is a number without integer value, as Go prints it. */
  datatype Value = Str(text: string) | Number(n: int) | Fraction(text: string) | Bool(b: bool) | Null | Other

  type Properties = map<string, Value>

  datatype Container = Container(id: string, name: string)

  datatype SoftwareSystem = SoftwareSystem(containers: seq<Container>)

  datatype ContainerInstance = ContainerInstance(id: string, containerId: string, properties: Properties)

  datatype DeploymentNode = DeploymentNode(
    id: string, properties: Properties, instances: seq<ContainerInstance>,
    children: seq<DeploymentNode>, deploymentNodes: seq<DeploymentNode>)

  datatype Manifest = Manifest(deploymentNodes: seq<DeploymentNode>, systems: seq<SoftwareSystem>)

  function ChildNodes(node: DeploymentNode): (r: seq<DeploymentNode>)
    ensures forall i :: 0 <= i < |r| ==> r[i] in node.children || r[i] in node.deploymentNodes
  {
    if node.children == [] then node.deploymentNodes
    else if node.deploymentNodes == [] then node.children
    else node.children + node.deploymentNodes
  }

  datatype Host = Host(
    hostId: string, fqdn: string, ip: string, env: string, managedBy: string, purpose: string,
    labels: map<string, string>, workloads: seq<DesiredWorkload>)

  // All nodes of a tree: a node before its children, its children before its deployment nodes

  function Preorder(node: DeploymentNode): (r: seq<DeploymentNode>)
    decreases node, 1
  {
    [node] + PreorderAll(node.children) + PreorderAll(node.deploymentNodes)
  }

  function PreorderAll(nodes: seq<DeploymentNode>): seq<DeploymentNode>
    decreases nodes, 0
  {
    if nodes == [] then [] else Preorder(nodes[0]) + PreorderAll(nodes[1..])
  }

  function NodeCount(node: DeploymentNode): nat
    decreases node, 1
  {
    1 + NodeCountAll(node.children) + NodeCountAll(node.deploymentNodes)
  }

  function NodeCountAll(nodes: seq<DeploymentNode>): nat
    decreases nodes, 0
  {
    if nodes == [] then 0 else NodeCount(nodes[0]) + NodeCountAll(nodes[1..])
  }

  lemma {:induction false} PreorderVisitsAll(node: DeploymentNode)
    ensures |Preorder(node)| == NodeCount(node)
    decreases node, 1
  {
    PreorderAllVisitsAll(node.children);
    PreorderAllVisitsAll(node.deploymentNodes);
  }

  lemma {:induction false} PreorderAllVisitsAll(nodes: seq<DeploymentNode>)
    ensures |PreorderAll(nodes)| == NodeCountAll(nodes)
    decreases nodes, 0
  {
    if nodes != [] {
      PreorderVisitsAll(nodes[0]);
      PreorderAllVisitsAll(nodes[1..]);
    }
  }

  lemma {:induction false} PreorderOfConcat(a: seq<DeploymentNode>, b: seq<DeploymentNode>)
    ensures PreorderAll(a + b) == PreorderAll(a) + PreorderAll(b)
  {
    if a == [] {
      assert a + b == b;
    } else {
      assert (a + b)[1..] == a[1..] + b;
      PreorderOfConcat(a[1..], b);
    }
  }

  lemma PreorderByChildNodes(node: DeploymentNode)
    ensures Preorder(node) == [node] + PreorderAll(ChildNodes(node))
  {
    assert ChildNodes(node) == node.children + node.deploymentNodes;
    PreorderOfConcat(node.children, node.deploymentNodes);
    ConcatIsAssociative([node], PreorderAll(node.children), PreorderAll(node.deploymentNodes));
  }
}
