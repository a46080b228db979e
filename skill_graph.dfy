/**
 * The skill graph: a fixed linear layout of the catalog's skills on an 800 x 500 canvas, one
 * path per connection whose two ends are found, and the styling that follows the active skill.
 */
module SkillGraph {
  import opened Common
  import opened Types
  import opened Data

  const Magenta := "#FF00FF"
  const Teal := "#00F7FF"
  const White := "#FFFFFF"

  /** A skill placed on the canvas; `size` is now the circle's radius in pixels. */
  datatype Node = Node(name: string, position: (real, real, real), color: string, size: real, x: real, y: real)

  /** The layout: 50 pixels per unit, centred at (400, 250), with the y axis pointing down. */
  function NodeFor(skill: Skill): Node {
    Node(skill.name, skill.position, skill.color, skill.size * 20.0,
         skill.position.0 * 50.0 + 400.0, skill.position.1 * -50.0 + 250.0)
  }

  /** `calculateNodePositions`: one node per skill, in catalog order. */
  function NodePositions(skills: seq<Skill>): (nodes: seq<Node>)
    ensures |nodes| == |skills|
    ensures forall i :: 0 <= i < |skills| ==> nodes[i] == NodeFor(skills[i])
  {
    seq(|skills|, i requires 0 <= i < |skills| => NodeFor(skills[i]))
  }

  /**
   * Each node keeps its skill's name, colour and position; the layout is invertible, so the
   * first two catalog coordinates can be read back from the screen point.
   */
  lemma NodeLayout(skills: seq<Skill>, i: nat)
    requires i < |skills|
    ensures var n := NodePositions(skills)[i];
      && n.name == skills[i].name && n.color == skills[i].color && n.position == skills[i].position
      && n.size == skills[i].size * 20.0
      && (n.x - 400.0) / 50.0 == skills[i].position.0
      && (250.0 - n.y) / 50.0 == skills[i].position.1
  {
  }

  /** The third coordinate never reaches the screen. */
  lemma LayoutIgnoresDepth(s: Skill, z: real)
    ensures var t := s.(position := (s.position.0, s.position.1, z));
      NodeFor(t).x == NodeFor(s).x && NodeFor(t).y == NodeFor(s).y && NodeFor(t).size == NodeFor(s).size
  {
  }

  /** The index of the first node with the name, or `|nodes|` when there is none. */
  function FindIndex(nodes: seq<Node>, name: string): (k: nat)
    ensures k <= |nodes|
    ensures k < |nodes| ==> nodes[k].name == name
    ensures forall j :: 0 <= j < k ==> nodes[j].name != name
  {
    if nodes == [] then 0
    else if nodes[0].name == name then 0
    else 1 + FindIndex(nodes[1..], name)
  }

  /** `nodes.find(node => node.name === name)`. */
  function FindNode(nodes: seq<Node>, name: string): Option<Node> {
    var k := FindIndex(nodes, name);
    if k < |nodes| then Some(nodes[k]) else None
  }

  /** A node is found exactly when the catalog has a skill of that name. */
  lemma FindNodeIffSkill(skills: seq<Skill>, name: string)
    ensures FindNode(NodePositions(skills), name).Some? <==> HasSkill(skills, name)
    ensures FindNode(NodePositions(skills), name).Some? ==> FindNode(NodePositions(skills), name).value.name == name
  {
    var nodes := NodePositions(skills);
    var k := FindIndex(nodes, name);
    if HasSkill(skills, name) {
      var i :| 0 <= i < |skills| && skills[i].name == name;
      assert nodes[i].name == name;
    }
  }

  /** A drawn connection: a straight line between two node centres, with its stroke. */
  datatype Path = Path(fromX: real, fromY: real, toX: real, toY: real, stroke: string, strokeWidth: int)

  /** `activeSkill && (activeSkill === from || activeSkill === to)`; the empty name is falsy. */
  predicate Highlights(active: Option<string>, c: SkillConnection) {
    active.Some? && active.value != "" && (active.value == c.from || active.value == c.to)
  }

  /** One entry of `getConnectionPaths`: nothing when an end has no node, else the styled line. */
  function ConnectionPath(nodes: seq<Node>, c: SkillConnection, active: Option<string>): (r: Option<Path>)
    ensures r.None? <==> FindNode(nodes, c.from).None? || FindNode(nodes, c.to).None?
    ensures r.Some? ==> r.value.fromX == FindNode(nodes, c.from).value.x && r.value.fromY == FindNode(nodes, c.from).value.y
    ensures r.Some? ==> r.value.toX == FindNode(nodes, c.to).value.x && r.value.toY == FindNode(nodes, c.to).value.y
    ensures r.Some? ==> (r.value.stroke == Magenta <==> Highlights(active, c))
    ensures r.Some? && !Highlights(active, c) ==> r.value.stroke == Teal
    ensures r.Some? ==> r.value.strokeWidth == if Highlights(active, c) then 3 else 1
  {
    var fromNode := FindNode(nodes, c.from);
    var toNode := FindNode(nodes, c.to);
    if fromNode.None? || toNode.None? then None
    else
      var hot := Highlights(active, c);
      Some(Path(fromNode.value.x, fromNode.value.y, toNode.value.x, toNode.value.y,
                if hot then Magenta else Teal, if hot then 3 else 1))
  }

  /** `getConnectionPaths`: one entry per connection, in order, skipped ones included as `None`. */
  function ConnectionPaths(nodes: seq<Node>, connections: seq<SkillConnection>, active: Option<string>): (r: seq<Option<Path>>)
    ensures |r| == |connections|
    ensures forall k :: 0 <= k < |connections| ==> r[k] == ConnectionPath(nodes, connections[k], active)
  {
    seq(|connections|, k requires 0 <= k < |connections| => ConnectionPath(nodes, connections[k], active))
  }

  /** Every connection of the catalog is drawn, whatever the active skill. */
  lemma CatalogConnectionsAllDrawn(active: Option<string>)
    ensures forall k :: 0 <= k < |SkillConnections| ==> ConnectionPaths(NodePositions(Skills), SkillConnections, active)[k].Some?
  {
    CatalogWellFormed();
    forall k | 0 <= k < |SkillConnections|
      ensures ConnectionPath(NodePositions(Skills), SkillConnections[k], active).Some?
    {
      FindNodeIffSkill(Skills, SkillConnections[k].from);
      FindNodeIffSkill(Skills, SkillConnections[k].to);
    }
  }

  /** Hovering Python draws the Python-AWS line from (400, 250) to (250, 150) in magenta, 3 wide. */
  lemma HoverPythonHighlightsAws()
    ensures ConnectionPath(NodePositions(Skills), SkillConnections[0], Some("Python"))
         == Some(Path(400.0, 250.0, 250.0, 150.0, Magenta, 3))
  {
    var nodes := NodePositions(Skills);
    assert nodes[0].name == "Python" && nodes[1].name == "AWS";
    assert FindIndex(nodes, "Python") == 0;
    assert FindIndex(nodes[1..], "AWS") == 0;
    assert nodes[0].x == 400.0 && nodes[0].y == 250.0 && nodes[1].x == 250.0 && nodes[1].y == 150.0;
  }

  /** The circle's appearance. */
  datatype NodeStyle = NodeStyle(fillOpacity: real, stroke: string, strokeWidth: int, pulsing: bool)

  /** The active node is opaque with a white outline and pulses; the others are plain. */
  function StyleFor(node: Node, active: Option<string>): (r: NodeStyle)
    ensures r.pulsing <==> active == Some(node.name)
    ensures r.pulsing ==> r.fillOpacity == 0.9 && r.stroke == White && r.strokeWidth == 2
    ensures !r.pulsing ==> r.fillOpacity == 0.6 && r.stroke == node.color && r.strokeWidth == 0
  {
    if active == Some(node.name) then NodeStyle(0.9, White, 2, true)
    else NodeStyle(0.6, node.color, 0, false)
  }

  /** In the catalog at most one node is styled active, because skill names are distinct. */
  lemma AtMostOneActiveNode(active: Option<string>, i: nat, j: nat)
    requires i < j < |Skills|
    ensures var nodes := NodePositions(Skills);
      !(StyleFor(nodes[i], active).strokeWidth == 2 && StyleFor(nodes[j], active).strokeWidth == 2)
  {
    CatalogWellFormed();
  }

  /** The label's baseline: 15 pixels below the bottom of the circle. */
  function LabelY(node: Node): (y: real)
    ensures node.size >= 0.0 ==> y > node.y
  {
    node.y + node.size + 15.0
  }

  /** The graph's state: the skill that is hovered or currently pulsing. */
  class SkillGraph {
    var activeSkill: Option<string>

    constructor ()
      ensures activeSkill == None
    {
      activeSkill := None;
    }

    method MouseEnter(node: Node)
      modifies this
      ensures activeSkill == Some(node.name)
    {
      activeSkill := Some(node.name);
    }

    method MouseLeave()
      modifies this
      ensures activeSkill == None
    {
      activeSkill := None;
    }

    /** The pulse timer activates the skill at a random index of the catalog... */
    method PulseStart(index: nat)
      requires index < |Skills|
      modifies this
      ensures activeSkill == Some(Skills[index].name)
    {
      activeSkill := Some(Skills[index].name);
    }

    /** ... and clears it two seconds later, whatever happened meanwhile. */
    method PulseEnd()
      modifies this
      ensures activeSkill == None
    {
      activeSkill := None;
    }
  }
}
