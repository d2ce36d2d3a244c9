/**
 * The organisation chart of the IAP preparation phase
 * (src/components/phases/InitialUCMeetingPhase.tsx): each node names the
 * supervisor it reports to, by position or by person, and the chart indents
 * a node by its depth, found by walking that chain upwards. The walk stops at
 * an empty or unknown supervisor, and after six steps whatever the chain
 * looks like, so a cycle costs six steps and no more.
 */
module OrgChart {
  import opened Wrappers
  import opened JsText

  /** A node; `reportsTo` may be missing from a stored node. */
  datatype OrgChartNode = OrgChartNode(id: string, position: string, name: string, reportsTo: Option<string>)

  /** The walk takes at most this many steps. */
  const MaxDepth: nat := 6

  /**
   * `n.reportsTo?.trim()`, where a missing supervisor and an empty one both
   * end the walk, so both read as "".
   */
  function ReportsKey(n: OrgChartNode): string
  {
    match n.reportsTo
    case None => ""
    case Some(s) => Trim(s)
  }

  /** The node a supervisor key names: its position or its name equals the key. */
  predicate Names(x: OrgChartNode, key: string)
  {
    x.position == key || x.name == key
  }

  /** `nodes.find(x => x.position === key || x.name === key)`: the first node the key names. */
  function FindParent(nodes: seq<OrgChartNode>, key: string): (r: Option<OrgChartNode>)
    ensures r.Some? ==> Names(r.value, key)
  {
    if nodes == [] then None
    else if Names(nodes[0], key) then Some(nodes[0])
    else FindParent(nodes[1..], key)
  }

  /** The search finds nothing exactly when no node has the key as its position or name. */
  lemma {:induction false} FindParentNone(nodes: seq<OrgChartNode>, key: string)
    ensures FindParent(nodes, key).None? <==> forall i :: 0 <= i < |nodes| ==> !Names(nodes[i], key)
  {
    if nodes != [] && !Names(nodes[0], key) {
      FindParentNone(nodes[1..], key);
      assert forall i :: 1 <= i < |nodes| ==> nodes[i] == nodes[1..][i - 1];
    }
  }

  /** The node found is the first the key names: every node before it names something else. */
  lemma {:induction false} FindParentIsFirst(nodes: seq<OrgChartNode>, key: string)
    requires FindParent(nodes, key).Some?
    ensures exists i :: 0 <= i < |nodes| && nodes[i] == FindParent(nodes, key).value
                        && forall j :: 0 <= j < i ==> !Names(nodes[j], key)
  {
    if !Names(nodes[0], key) {
      FindParentIsFirst(nodes[1..], key);
      var i :| 0 <= i < |nodes[1..]| && nodes[1..][i] == FindParent(nodes[1..], key).value
               && forall j :: 0 <= j < i ==> !Names(nodes[1..][j], key);
      assert nodes[i + 1] == FindParent(nodes, key).value;
      assert forall j :: 0 <= j < i + 1 ==> !Names(nodes[j], key) by {
        forall j | 0 <= j < i + 1 ensures !Names(nodes[j], key) {
          if j > 0 { assert nodes[j] == nodes[1..][j - 1]; }
        }
      }
    } else {
      assert nodes[0] == FindParent(nodes, key).value;
    }
  }

  /**
   * The depth reached from supervisor key `key` with `steps` steps left:
   * one per supervisor found, until the key is empty, names no node, or the
   * steps run out.
   */
  function DepthFrom(nodes: seq<OrgChartNode>, key: string, steps: nat): nat
    decreases steps
  {
    if key == "" || steps == 0 then 0
    else match FindParent(nodes, key)
      case None => 0
      case Some(p) => 1 + DepthFrom(nodes, ReportsKey(p), steps - 1)
  }

  /** One step of the walk, taken when the key is non-empty, steps remain and the key names a node. */
  lemma DepthFromStep(nodes: seq<OrgChartNode>, key: string, steps: nat)
    requires key != "" && steps > 0 && FindParent(nodes, key).Some?
    ensures DepthFrom(nodes, key, steps) == 1 + DepthFrom(nodes, ReportsKey(FindParent(nodes, key).value), steps - 1)
  {
  }

  /** The indentation depth of node `n` in the chart of `nodes`. */
  function Depth(nodes: seq<OrgChartNode>, n: OrgChartNode): nat
  {
    DepthFrom(nodes, ReportsKey(n), MaxDepth)
  }

  /** The walk as the chart renders it: a `while` loop over `depth`, `guard` and the current key. */
  method ComputeDepth(nodes: seq<OrgChartNode>, n: OrgChartNode) returns (depth: nat)
    ensures depth == Depth(nodes, n)
    ensures depth <= MaxDepth
  {
    depth := 0;
    var guard: nat := 0;
    var curReports := ReportsKey(n);
    while curReports != "" && guard < MaxDepth
      invariant guard == depth <= MaxDepth
      invariant depth + DepthFrom(nodes, curReports, MaxDepth - guard) == Depth(nodes, n)
      decreases MaxDepth - guard
    {
      var parent := FindParent(nodes, curReports);
      if parent.None? {
        break;
      }
      var next := ReportsKey(parent.value);
      DepthFromStep(nodes, curReports, MaxDepth - guard);
      depth, guard, curReports := depth + 1, guard + 1, next;
    }
  }

  /** The depth never exceeds the steps allowed. */
  lemma {:induction false} DepthFromBound(nodes: seq<OrgChartNode>, key: string, steps: nat)
    ensures DepthFrom(nodes, key, steps) <= steps
    decreases steps
  {
    if key != "" && steps > 0 && FindParent(nodes, key).Some? {
      DepthFromBound(nodes, ReportsKey(FindParent(nodes, key).value), steps - 1);
    }
  }

  /**
   * More steps only lengthen a walk that was cut short: the depth with
   * `steps` steps is the depth with `more` steps, capped at `steps`.
   */
  lemma {:induction false} DepthFromCapped(nodes: seq<OrgChartNode>, key: string, steps: nat, more: nat)
    requires steps <= more
    ensures DepthFrom(nodes, key, steps) == Min(DepthFrom(nodes, key, more), steps)
    decreases steps
  {
    DepthFromBound(nodes, key, steps);
    if key != "" && steps > 0 && FindParent(nodes, key).Some? {
      DepthFromCapped(nodes, ReportsKey(FindParent(nodes, key).value), steps - 1, more - 1);
    }
  }

  function Min(a: nat, b: nat): nat
  {
    if a <= b then a else b
  }

  /**
   * A supervisor key whose first match reports to that same key is a cycle:
   * the walk uses every step it has.
   */
  lemma {:induction false} SelfReportUsesAllSteps(nodes: seq<OrgChartNode>, key: string, steps: nat)
    requires key != ""
    requires FindParent(nodes, key).Some? && ReportsKey(FindParent(nodes, key).value) == key
    ensures DepthFrom(nodes, key, steps) == steps
  {
    if steps > 0 {
      SelfReportUsesAllSteps(nodes, key, steps - 1);
    }
  }

  /** A node that reports, through its first match, to itself is indented to the cap. */
  lemma SelfReportingNodeAtCap(nodes: seq<OrgChartNode>, n: OrgChartNode)
    requires ReportsKey(n) != ""
    requires FindParent(nodes, ReportsKey(n)) == Some(n)
    ensures Depth(nodes, n) == MaxDepth
  {
    SelfReportUsesAllSteps(nodes, ReportsKey(n), MaxDepth);
  }

  /**
   * One step of the walk: a node with an empty or unknown supervisor is at
   * depth 0; otherwise it sits one below its supervisor, capped at the limit.
   */
  lemma DepthOfChild(nodes: seq<OrgChartNode>, n: OrgChartNode)
    ensures ReportsKey(n) == "" || FindParent(nodes, ReportsKey(n)).None? ==> Depth(nodes, n) == 0
    ensures ReportsKey(n) != "" && FindParent(nodes, ReportsKey(n)).Some? ==>
      Depth(nodes, n) == 1 + Min(Depth(nodes, FindParent(nodes, ReportsKey(n)).value), MaxDepth - 1)
  {
    if ReportsKey(n) != "" && FindParent(nodes, ReportsKey(n)).Some? {
      DepthFromCapped(nodes, ReportsKey(FindParent(nodes, ReportsKey(n)).value), MaxDepth - 1, MaxDepth);
    }
  }
}
