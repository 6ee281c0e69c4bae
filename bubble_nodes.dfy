/** The simulation nodes of the bubble chart and the code that changes them
    in place: the boundary clamp run on every tick, the drag handlers that
    pin and release a node, and the ambient nudge of resting nodes. The
    force simulation that moves the nodes between ticks is not modelled. */
module BubbleNodes {
  import opened Stocks
  import BubblePlacement

  /** One simulation node: its radius is fixed once seeded; its position,
      velocity and optional pin (`fx`, `fy`, null when free) change. */
  class Node {
    const symbol: string
    const radius: real
    var x: real
    var y: real
    var vx: real
    var vy: real
    var fx: Option<real>
    var fy: Option<real>

    /** A node seeded from a placed bubble, unpinned. */
    constructor (b: BubblePlacement.Bubble)
      ensures symbol == b.stock.symbol && radius == b.radius
      ensures x == b.x && y == b.y && vx == b.vx && vy == b.vy
      ensures fx == None && fy == None
    {
      symbol := b.stock.symbol;
      radius := b.radius;
      x, y, vx, vy := b.x, b.y, b.vx, b.vy;
      fx, fy := None, None;
    }

    /** Drag start: the node is pinned where it is. */
    method DragStart()
      modifies this
      ensures fx == Some(x) && fy == Some(y)
      ensures x == old(x) && y == old(y) && vx == old(vx) && vy == old(vy)
    {
      fx, fy := Some(x), Some(y);
    }

    /** Drag: the pin follows the pointer. */
    method DragMove(px: real, py: real)
      modifies this
      ensures fx == Some(px) && fy == Some(py)
      ensures x == old(x) && y == old(y) && vx == old(vx) && vy == old(vy)
    {
      fx, fy := Some(px), Some(py);
    }

    /** Drag end: the pin is released. */
    method DragEnd()
      modifies this
      ensures fx == None && fy == None
      ensures x == old(x) && y == old(y) && vx == old(vx) && vy == old(vy)
    {
      fx, fy := None, None;
    }
  }

  /** The distance a node keeps from every edge: its radius, the gap and 2. */
  function Padding(radius: real, gap: real): (p: real)
    ensures p == radius + gap + 2.0
  {
    radius + gap + 2.0
  }

  /** The clamp of one axis, as the tick writes it: first against the low
      edge `lo`, then against the high edge `hi`, each violation putting the
      position on the edge and multiplying the velocity by -0.3. When the
      edges are in order the position ends between them and the velocity
      bounces exactly when a side was violated; when they cross (a viewport
      narrower than two paddings) the position always ends on `hi`. */
  function ClampAxis(pos: real, vel: real, lo: real, hi: real): (r: (real, real))
    ensures lo <= hi ==> lo <= r.0 <= hi
    ensures lo <= hi ==> r.1 == if pos < lo || pos > hi then vel * -0.3 else vel
    ensures lo <= hi && pos < lo ==> r.0 == lo
    ensures lo <= hi && pos > hi ==> r.0 == hi
    ensures lo <= pos <= hi ==> r == (pos, vel)
    ensures hi < lo ==> r.0 == hi
  {
    var (p1, v1) := if pos < lo then (lo, vel * -0.3) else (pos, vel);
    if p1 > hi then (hi, v1 * -0.3) else (p1, v1)
  }

  /** The clamp of a node that starts 5 pixels beyond the left edge:
      radius 20 and gap 2 give a padding of 24, so it lands at x = 24 and
      its horizontal velocity is reversed and damped to 30%. */
  lemma ClampLeftEdgeExample(vx: real)
    ensures ClampAxis(-5.0, vx, Padding(20.0, 2.0), 800.0 - Padding(20.0, 2.0)) == (24.0, vx * -0.3)
  {
  }

  /** On a viewport narrower than two paddings a node beyond the low edge is
      bounced twice, keeping 9% of its speed, and ends on the high edge. */
  lemma ClampCrossedEdges(vel: real)
    ensures ClampAxis(-5.0, vel, 24.0, 16.0) == (16.0, vel * 0.09)
  {
  }

  /** The node references of the array are pairwise distinct. */
  predicate DistinctNodes(nodes: array<Node>)
    reads nodes
  {
    forall i, j :: 0 <= i < j < nodes.Length ==> nodes[i] != nodes[j]
  }

  /** Node `d` holds the clamp of the position and velocity it had before. */
  ghost predicate ClampedFrom(d: Node, x0: real, vx0: real, y0: real, vy0: real, width: real, height: real, gap: real)
    reads d
  {
    var pad := Padding(d.radius, gap);
    (d.x, d.vx) == ClampAxis(x0, vx0, pad, width - pad) &&
    (d.y, d.vy) == ClampAxis(y0, vy0, pad, height - pad)
  }

  /** The body of the tick for one node. */
  method ClampNode(d: Node, width: real, height: real, gap: real)
    modifies d
    ensures ClampedFrom(d, old(d.x), old(d.vx), old(d.y), old(d.vy), width, height, gap)
    ensures d.fx == old(d.fx) && d.fy == old(d.fy)
  {
    var pad := Padding(d.radius, gap);
    var (x, vx) := ClampAxis(d.x, d.vx, pad, width - pad);
    var (y, vy) := ClampAxis(d.y, d.vy, pad, height - pad);
    d.x, d.vx, d.y, d.vy := x, vx, y, vy;
  }

  /** A clamped node lies within its padding of every edge whenever the
      viewport is at least two paddings wide (and high). */
  lemma ClampedInside(d: Node, x0: real, vx0: real, y0: real, vy0: real, width: real, height: real, gap: real)
    requires ClampedFrom(d, x0, vx0, y0, vy0, width, height, gap)
    ensures var pad := Padding(d.radius, gap);
      (2.0 * pad <= width ==> pad <= d.x <= width - pad) &&
      (2.0 * pad <= height ==> pad <= d.y <= height - pad)
  {
  }

  /** One tick handler: every node is clamped on both axes by its own
      padding, in place; pins and the array itself are untouched. */
  method Tick(nodes: array<Node>, width: real, height: real, gap: real)
    requires DistinctNodes(nodes)
    modifies set i | 0 <= i < nodes.Length :: nodes[i]
    ensures forall i :: 0 <= i < nodes.Length ==>
      ClampedFrom(nodes[i], old(nodes[i].x), old(nodes[i].vx), old(nodes[i].y), old(nodes[i].vy), width, height, gap)
    ensures forall i :: 0 <= i < nodes.Length ==> nodes[i].fx == old(nodes[i].fx) && nodes[i].fy == old(nodes[i].fy)
  {
    for k := 0 to nodes.Length
      invariant forall i :: 0 <= i < k ==>
        ClampedFrom(nodes[i], old(nodes[i].x), old(nodes[i].vx), old(nodes[i].y), old(nodes[i].vy), width, height, gap)
      invariant forall i :: k <= i < nodes.Length ==>
        nodes[i].x == old(nodes[i].x) && nodes[i].vx == old(nodes[i].vx) &&
        nodes[i].y == old(nodes[i].y) && nodes[i].vy == old(nodes[i].vy)
      invariant forall i :: 0 <= i < nodes.Length ==> nodes[i].fx == old(nodes[i].fx) && nodes[i].fy == old(nodes[i].fy)
    {
      ClampNode(nodes[k], width, height, gap);
    }
  }

  /** JavaScript truthiness of a pin coordinate: null and 0 are falsy. */
  function Truthy(pin: Option<real>): (t: bool)
    ensures t <==> pin.Some? && pin.value != 0.0
  {
    match pin
    case None => false
    case Some(v) => v != 0.0
  }

  /** `!d.fx && !d.fy`: the nudge's test for a free node. It also holds for
      a node pinned at (0, 0). */
  function NudgeEligible(fx: Option<real>, fy: Option<real>): (free: bool)
    ensures fx == None && fy == None ==> free
    ensures fx == Some(0.0) && fy == Some(0.0) ==> free
    ensures free <==> !Truthy(fx) && !Truthy(fy)
  {
    !Truthy(fx) && !Truthy(fy)
  }

  /** `(Math.random() - 0.5) * 0.15` for a draw `u` in [0, 1). */
  function Jitter(u: real): (d: real)
    requires 0.0 <= u < 1.0
    ensures -0.075 <= d < 0.075
  {
    (u - 0.5) * 0.15
  }

  /** One ambient-float round: when the simulation has cooled below alpha
      0.01, every free node's velocity is perturbed by at most 0.075 on each
      axis; `ux[i]` and `uy[i]` are the random draws for node i. */
  method AmbientNudge(nodes: array<Node>, alpha: real, ux: seq<real>, uy: seq<real>)
    requires DistinctNodes(nodes)
    requires |ux| == |uy| == nodes.Length
    requires forall i :: 0 <= i < nodes.Length ==> 0.0 <= ux[i] < 1.0 && 0.0 <= uy[i] < 1.0
    modifies set i | 0 <= i < nodes.Length :: nodes[i]
    ensures forall i :: 0 <= i < nodes.Length ==>
      nodes[i].x == old(nodes[i].x) && nodes[i].y == old(nodes[i].y) &&
      nodes[i].fx == old(nodes[i].fx) && nodes[i].fy == old(nodes[i].fy)
    ensures forall i :: 0 <= i < nodes.Length ==>
      if alpha < 0.01 && NudgeEligible(old(nodes[i].fx), old(nodes[i].fy))
      then nodes[i].vx == old(nodes[i].vx) + Jitter(ux[i]) && nodes[i].vy == old(nodes[i].vy) + Jitter(uy[i])
      else nodes[i].vx == old(nodes[i].vx) && nodes[i].vy == old(nodes[i].vy)
  {
    if alpha < 0.01 {
      for k := 0 to nodes.Length
        invariant forall i :: 0 <= i < nodes.Length ==>
          nodes[i].x == old(nodes[i].x) && nodes[i].y == old(nodes[i].y) &&
          nodes[i].fx == old(nodes[i].fx) && nodes[i].fy == old(nodes[i].fy)
        invariant forall i :: 0 <= i < k ==>
          if NudgeEligible(old(nodes[i].fx), old(nodes[i].fy))
          then nodes[i].vx == old(nodes[i].vx) + Jitter(ux[i]) && nodes[i].vy == old(nodes[i].vy) + Jitter(uy[i])
          else nodes[i].vx == old(nodes[i].vx) && nodes[i].vy == old(nodes[i].vy)
        invariant forall i :: k <= i < nodes.Length ==>
          nodes[i].vx == old(nodes[i].vx) && nodes[i].vy == old(nodes[i].vy)
      {
        var d := nodes[k];
        if NudgeEligible(d.fx, d.fy) {
          d.vx := d.vx + Jitter(ux[k]);
          d.vy := d.vy + Jitter(uy[k]);
        }
      }
    }
  }
}
