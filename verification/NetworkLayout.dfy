/** Reconciliation of the network diagram with a live snapshot, web/src/networkModel.ts: nodes that stay keep
    their place, new ones take the first free slot, and link counts balance. */
module NetworkLayout {
  import opened Ordered

  datatype Link = Link(source: nat, target: nat, queued: nat)
  datatype Position = Position(x: nat, y: nat)
  datatype Node = Node(id: nat, slot: nat, position: Position, incoming: nat, outgoing: nat, queued: nat)
  datatype Metrics = Metrics(incoming: nat, outgoing: nat, queued: nat)

  const COLUMNS: nat := 6

  function Grid(slot: nat): Position {
    Position(slot % COLUMNS * 230, slot / COLUMNS * 126)
  }

  /** Different slots are different places. */
  lemma GridIsInjective(a: nat, b: nat)
    ensures Grid(a) == Grid(b) ==> a == b
  {
    assert a == COLUMNS * (a / COLUMNS) + a % COLUMNS && b == COLUMNS * (b / COLUMNS) + b % COLUMNS;
  }

  /** From the origin on, six places in a row 230 apart, the next row 126 below. */
  lemma GridIsRegular(slot: nat)
    ensures Grid(0) == Position(0, 0)
    ensures slot % 6 < 5 ==> Grid(slot + 1) == Position(Grid(slot).x + 230, Grid(slot).y)
    ensures Grid(slot + 6) == Position(Grid(slot).x, Grid(slot).y + 126)
  {
    assert (slot + 6) / 6 == slot / 6 + 1 && (slot + 6) % 6 == slot % 6;
    if slot % 6 < 5 {
      assert (slot + 1) / 6 == slot / 6 && (slot + 1) % 6 == slot % 6 + 1;
    }
  }

  function Ids(nodes: seq<nat>): set<nat> {
    set id | id in nodes
  }

  ghost predicate Distinct(nodes: seq<nat>) {
    forall i, j :: 0 <= i < j < |nodes| ==> nodes[i] != nodes[j]
  }

  ghost predicate Consistent(previous: seq<Node>) {
    forall i, j :: 0 <= i < j < |previous| ==> previous[i].id != previous[j].id && previous[i].slot != previous[j].slot
  }

  // ---- Link counts --------------------------------------------------------------------------

  predicate Known(ids: set<nat>, link: Link) {
    link.source in ids && link.target in ids
  }

  function Counted(ids: set<nat>, links: seq<Link>, id: nat): Metrics {
    if links == [] then Metrics(0, 0, 0)
    else
      var link, m := links[|links| - 1], Counted(ids, links[..|links| - 1], id);
      if !Known(ids, link) then m
      else Metrics(m.incoming + (if link.target == id then 1 else 0),
                   m.outgoing + (if link.source == id then 1 else 0),
                   m.queued + (if link.source == id then link.queued else 0))
  }

  function KnownLinks(ids: set<nat>, links: seq<Link>): nat {
    if links == [] then 0
    else KnownLinks(ids, links[..|links| - 1]) + (if Known(ids, links[|links| - 1]) then 1 else 0)
  }

  function KnownQueue(ids: set<nat>, links: seq<Link>): nat {
    if links == [] then 0
    else KnownQueue(ids, links[..|links| - 1]) + (if Known(ids, links[|links| - 1]) then links[|links| - 1].queued else 0)
  }

  function Total(ids: set<nat>, links: seq<Link>, nodes: seq<nat>): Metrics {
    if nodes == [] then Metrics(0, 0, 0)
    else
      var m, rest := Counted(ids, links, nodes[0]), Total(ids, links, nodes[1..]);
      Metrics(m.incoming + rest.incoming, m.outgoing + rest.outgoing, m.queued + rest.queued)
  }

  /** One more link adds to exactly the node it leaves and the node it reaches. */
  lemma {:induction false} LinkAddsOnce(ids: set<nat>, links: seq<Link>, link: Link, nodes: seq<nat>)
    requires Distinct(nodes) && Known(ids, link)
    ensures var a, b := Total(ids, links, nodes), Total(ids, links + [link], nodes);
            && b.incoming == a.incoming + (if link.target in nodes then 1 else 0)
            && b.outgoing == a.outgoing + (if link.source in nodes then 1 else 0)
            && b.queued == a.queued + (if link.source in nodes then link.queued else 0)
    decreases |nodes|
  {
    if nodes != [] {
      assert (links + [link])[..|links|] == links;
      LinkAddsOnce(ids, links, link, nodes[1..]);
      assert nodes == [nodes[0]] + nodes[1..];
    }
  }

  lemma {:induction false} UnknownAddsNothing(ids: set<nat>, links: seq<Link>, link: Link, nodes: seq<nat>)
    requires !Known(ids, link)
    ensures Total(ids, links + [link], nodes) == Total(ids, links, nodes)
    decreases |nodes|
  {
    if nodes != [] {
      assert (links + [link])[..|links|] == links;
      UnknownAddsNothing(ids, links, link, nodes[1..]);
    }
  }

  lemma {:induction false} NoLinksNoTotal(ids: set<nat>, nodes: seq<nat>)
    ensures Total(ids, [], nodes) == Metrics(0, 0, 0)
    decreases |nodes|
  {
    if nodes != [] {
      NoLinksNoTotal(ids, nodes[1..]);
    }
  }

  /** Over all nodes, incoming and outgoing links are both the links whose two ends are known, and their
      queues are all the queues. */
  lemma {:induction false} CountsBalance(nodes: seq<nat>, links: seq<Link>)
    requires Distinct(nodes)
    ensures Total(Ids(nodes), links, nodes)
         == Metrics(KnownLinks(Ids(nodes), links), KnownLinks(Ids(nodes), links), KnownQueue(Ids(nodes), links))
    decreases |links|
  {
    if links == [] {
      NoLinksNoTotal(Ids(nodes), nodes);
    } else {
      var init, link := links[..|links| - 1], links[|links| - 1];
      assert links == init + [link];
      CountsBalance(nodes, init);
      if Known(Ids(nodes), link) {
        LinkAddsOnce(Ids(nodes), init, link, nodes);
      } else {
        UnknownAddsNothing(Ids(nodes), init, link, nodes);
      }
    }
  }

  /** The links of a node, as places in the list. */
  ghost function Entering(ids: set<nat>, links: seq<Link>, id: nat): (s: set<nat>)
    ensures forall j :: j in s <==> 0 <= j < |links| && links[j].target == id && links[j].source in ids && id in ids
  {
    set j | 0 <= j < |links| && links[j].target == id && links[j].source in ids && id in ids
  }

  ghost function Leaving(ids: set<nat>, links: seq<Link>, id: nat): (s: set<nat>)
    ensures forall j :: j in s <==> 0 <= j < |links| && links[j].source == id && links[j].target in ids && id in ids
  {
    set j | 0 <= j < |links| && links[j].source == id && links[j].target in ids && id in ids
  }

  ghost function Waiting(links: seq<Link>, places: set<nat>): nat
    requires forall j :: j in places ==> j < |links|
    decreases |places|
  {
    if places == {} then 0
    else
      var last := Greatest(places);
      links[last].queued + Waiting(links, places - {last})
  }

  ghost function Greatest(places: set<nat>): (n: nat)
    requires places != {}
    ensures n in places && forall j :: j in places ==> j <= n
    decreases |places|
  {
    var some :| some in places;
    if places - {some} == {} then
      assert forall j :: j in places ==> j == some || j in places - {some};
      some
    else
      var n := Greatest(places - {some});
      assert forall j :: j in places ==> j == some || j in places - {some};
      if n < some then some else n
  }

  lemma {:induction false} WaitingAlike(a: seq<Link>, b: seq<Link>, places: set<nat>)
    requires a <= b && forall j :: j in places ==> j < |a|
    ensures Waiting(a, places) == Waiting(b, places)
    decreases |places|
  {
    if places != {} {
      WaitingAlike(a, b, places - {Greatest(places)});
    }
  }

  /** A node's counts are its incoming and outgoing links to known nodes, and what waits on the outgoing. */
  lemma {:induction false} CountedExactly(ids: set<nat>, links: seq<Link>, id: nat)
    requires id in ids
    ensures Counted(ids, links, id)
         == Metrics(|Entering(ids, links, id)|, |Leaving(ids, links, id)|, Waiting(links, Leaving(ids, links, id)))
    decreases |links|
  {
    if links == [] {
      assert Entering(ids, links, id) == {} && Leaving(ids, links, id) == {};
    } else {
      var init, last := links[..|links| - 1], |links| - 1;
      CountedExactly(ids, init, id);
      OneMoreLink(ids, links, id);
      WaitingAlike(init, links, Leaving(ids, init, id));
    }
  }

  lemma OneMoreLink(ids: set<nat>, links: seq<Link>, id: nat)
    requires id in ids && links != []
    ensures var init, last := links[..|links| - 1], |links| - 1;
            && Entering(ids, links, id) == Entering(ids, init, id) + (
                 if links[last].target == id && links[last].source in ids then {last} else {})
            && Leaving(ids, links, id) == Leaving(ids, init, id) + (
                 if links[last].source == id && links[last].target in ids then {last} else {})
            && (last in Leaving(ids, links, id) ==>
                  Waiting(links, Leaving(ids, links, id)) == links[last].queued + Waiting(links, Leaving(ids, init, id)))
  {
    var init, last := links[..|links| - 1], |links| - 1;
    if last in Leaving(ids, links, id) {
      assert Greatest(Leaving(ids, links, id)) == last;
      assert Leaving(ids, links, id) - {last} == Leaving(ids, init, id);
    }
  }

  // ---- Slots --------------------------------------------------------------------------------

  predicate Survives(previous: seq<Node>, id: nat) {
    exists k :: 0 <= k < |previous| && previous[k].id == id
  }

  function SurvivorSlots(previous: seq<Node>, nodes: seq<nat>): set<nat> {
    set k | 0 <= k < |previous| && previous[k].id in nodes :: previous[k].slot
  }

  function Taken(previous: seq<Node>, nodes: seq<nat>, result: seq<Node>): set<nat> {
    SurvivorSlots(previous, nodes) + set j | 0 <= j < |result| :: result[j].slot
  }

  ghost predicate Keeps(previous: seq<Node>, node: Node) {
    forall k :: 0 <= k < |previous| && previous[k].id == node.id ==>
      node.slot == previous[k].slot && node.position == previous[k].position
  }

  ghost predicate FirstFree(taken: set<nat>, slot: nat) {
    slot !in taken && forall s :: 0 <= s < slot ==> s in taken
  }

  /** Where node i of a result may stand: its old place, or the first slot free at its turn. */
  ghost predicate Placed(previous: seq<Node>, nodes: seq<nat>, result: seq<Node>, i: int)
    requires 0 <= i < |result|
  {
    && Keeps(previous, result[i])
    && (!Survives(previous, result[i].id) ==>
          FirstFree(Taken(previous, nodes, result[..i]), result[i].slot) && result[i].position == Grid(result[i].slot))
  }

  ghost predicate Reconciled(previous: seq<Node>, nodes: seq<nat>, links: seq<Link>, result: seq<Node>) {
    && |result| == |nodes|
    && (forall i :: 0 <= i < |nodes| ==>
          && result[i].id == nodes[i] && Placed(previous, nodes, result, i)
          && Metrics(result[i].incoming, result[i].outgoing, result[i].queued) == Counted(Ids(nodes), links, nodes[i]))
  }

  function UpTo(n: nat): (s: set<nat>)
    ensures |s| == n && forall x: nat :: x in s <==> x < n
  {
    if n == 0 then {} else UpTo(n - 1) + {n - 1}
  }

  lemma SubsetIsNoLarger(a: set<nat>, b: set<nat>)
    requires a <= b
    ensures |a| <= |b|
    decreases |a|
  {
    if a != {} {
      var x :| x in a;
      SubsetIsNoLarger(a - {x}, b - {x});
    }
  }

  /** If all slots below one are taken, there are at least as many taken. */
  lemma FilledPrefix(taken: set<nat>, n: nat)
    requires forall s :: 0 <= s < n ==> s in taken
    ensures n <= |taken|
  {
    SubsetIsNoLarger(UpTo(n), taken);
  }

  method CountLinks(nodes: seq<nat>, links: seq<Link>) returns (metrics: map<nat, Metrics>)
    ensures metrics.Keys == Ids(nodes)
    ensures forall id :: id in metrics ==> metrics[id] == Counted(Ids(nodes), links, id)
  {
    metrics := map id | id in Ids(nodes) :: Metrics(0, 0, 0);
    for i := 0 to |links|
      invariant metrics.Keys == Ids(nodes)
      invariant forall id :: id in metrics ==> metrics[id] == Counted(Ids(nodes), links[..i], id)
    {
      var link := links[i];
      assert links[..i + 1][..i] == links[..i];
      if link.source in metrics && link.target in metrics {
        var m := metrics[link.source];
        metrics := metrics[link.source := m.(outgoing := m.outgoing + 1, queued := m.queued + link.queued)];
        var n := metrics[link.target];
        metrics := metrics[link.target := n.(incoming := n.incoming + 1)];
      }
    }
    assert links[..|links|] == links;
  }

  /** The existing node of an identifier. */
  method Existing(previous: seq<Node>, id: nat) returns (node: Option<Node>)
    requires Consistent(previous)
    ensures node.Some? <==> Survives(previous, id)
    ensures forall k :: 0 <= k < |previous| && previous[k].id == id ==> node == Some(previous[k])
  {
    node := None;
    for i := 0 to |previous|
      invariant node.Some? <==> exists k :: 0 <= k < i && previous[k].id == id
      invariant forall k :: 0 <= k < i && previous[k].id == id ==> node == Some(previous[k])
    {
      if previous[i].id == id {
        node := Some(previous[i]);
      }
    }
  }

  /** Skip the slots in use. */
  method NextFree(used: set<nat>, from: nat) returns (next: nat)
    requires forall s :: 0 <= s < from ==> s in used
    ensures FirstFree(used, next)
  {
    next := from;
    while next in used
      invariant forall s :: 0 <= s < next ==> s in used
      decreases |used| + 1 - next
    {
      FilledPrefix(used, next + 1);
      next := next + 1;
    }
  }

  lemma PlacedStays(previous: seq<Node>, nodes: seq<nat>, before: seq<Node>, node: Node)
    requires forall j :: 0 <= j < |before| ==> Placed(previous, nodes, before, j)
    requires Placed(previous, nodes, before + [node], |before|)
    ensures forall j :: 0 <= j <= |before| ==> Placed(previous, nodes, before + [node], j)
    ensures Taken(previous, nodes, before + [node]) == Taken(previous, nodes, before) + {node.slot}
  {
    var after := before + [node];
    forall j | 0 <= j < |before| ensures Placed(previous, nodes, after, j) {
      assert Placed(previous, nodes, before, j) && after[..j] == before[..j];
    }
    assert forall j :: 0 <= j < |before| ==> after[j] == before[j];
    assert after[|before|] == node;
  }

  method ReconcileNetworkNodes(previous: seq<Node>, nodes: seq<nat>, links: seq<Link>) returns (result: seq<Node>)
    requires Consistent(previous) && Distinct(nodes)
    ensures Reconciled(previous, nodes, links, result)
  {
    var metrics := CountLinks(nodes, links);
    var used, next := SurvivorSlots(previous, nodes), 0;
    result := [];
    for i := 0 to |nodes|
      invariant |result| == i && used == Taken(previous, nodes, result)
      invariant forall s :: 0 <= s < next ==> s in used
      invariant forall j :: 0 <= j < i ==> Placed(previous, nodes, result, j)
      invariant forall j :: 0 <= j < i ==>
        result[j].id == nodes[j]
        && Metrics(result[j].incoming, result[j].outgoing, result[j].queued) == Counted(Ids(nodes), links, nodes[j])
    {
      var id := nodes[i];
      var existing := Existing(previous, id);
      next := NextFree(used, next);
      var slot := if existing.Some? then existing.value.slot else next;
      var m := metrics[id];
      var node := Node(id, slot, if existing.Some? then existing.value.position else Grid(slot), m.incoming, m.outgoing, m.queued);
      assert Placed(previous, nodes, result + [node], i) by {
        assert (result + [node])[..i] == result;
      }
      PlacedStays(previous, nodes, result, node);
      used, result := used + {slot}, result + [node];
    }
  }

  // ---- What reconciliation promises -----------------------------------------------------------

  /** Distinct identifiers and slots again: the result can be the next reconciliation's previous nodes. */
  lemma {:induction false} ReconciledIsConsistent(previous: seq<Node>, nodes: seq<nat>, links: seq<Link>, result: seq<Node>)
    requires Consistent(previous) && Distinct(nodes) && Reconciled(previous, nodes, links, result)
    ensures Consistent(result)
  {
    forall i, j | 0 <= i < j < |result| ensures result[i].id != result[j].id && result[i].slot != result[j].slot {
      assert result[i].id == nodes[i] && result[j].id == nodes[j];
      assert Placed(previous, nodes, result, i) && Placed(previous, nodes, result, j);
      if !Survives(previous, nodes[j]) {
        assert result[..j][i] == result[i];
        assert result[i].slot in Taken(previous, nodes, result[..j]);
      } else if !Survives(previous, nodes[i]) {
        var k :| 0 <= k < |previous| && previous[k].id == nodes[j];
        assert previous[k].slot in SurvivorSlots(previous, nodes);
      } else {
        var k :| 0 <= k < |previous| && previous[k].id == nodes[i];
        var l :| 0 <= l < |previous| && previous[l].id == nodes[j];
        assert k != l;
      }
    }
  }

  /** The pigeonhole bound: a new node's slot is below the number of nodes. */
  lemma NewSlotsAreSmall(previous: seq<Node>, nodes: seq<nat>, links: seq<Link>, result: seq<Node>, i: nat)
    requires Consistent(previous) && Distinct(nodes) && Reconciled(previous, nodes, links, result)
    requires i < |nodes| && !Survives(previous, nodes[i])
    ensures result[i].slot < |nodes|
  {
    assert Placed(previous, nodes, result, i);
    var taken := Taken(previous, nodes, result[..i]);
    FilledPrefix(taken, result[i].slot);
    var others := UpTo(|nodes|) - {i};
    forall s | s in taken ensures exists j :: j in others && result[j].slot == s {
      TakenByOther(previous, nodes, links, result, i, s);
    }
    FewerSlotsThanOwners(taken, others, result);
  }

  /** A slot taken at node i's turn belongs to another node of the result. */
  lemma TakenByOther(previous: seq<Node>, nodes: seq<nat>, links: seq<Link>, result: seq<Node>, i: nat, s: nat)
    requires Reconciled(previous, nodes, links, result) && i < |nodes| && !Survives(previous, nodes[i])
    requires s in Taken(previous, nodes, result[..i])
    ensures exists j :: 0 <= j < |nodes| && j != i && result[j].slot == s
  {
    if s in SurvivorSlots(previous, nodes) {
      var k :| 0 <= k < |previous| && previous[k].id in nodes && previous[k].slot == s;
      var j :| 0 <= j < |nodes| && nodes[j] == previous[k].id;
      assert Placed(previous, nodes, result, j) && Keeps(previous, result[j]);
      assert j != i;
    } else {
      var j :| 0 <= j < i && result[..i][j].slot == s;
      assert result[j].slot == s;
    }
  }

  lemma FewerSlotsThanOwners(slots: set<nat>, owners: set<nat>, result: seq<Node>)
    requires forall j :: j in owners ==> j < |result|
    requires forall s :: s in slots ==> exists j :: j in owners && result[j].slot == s
    ensures |slots| <= |owners|
    decreases |slots|
  {
    if slots != {} {
      var s :| s in slots;
      var j :| j in owners && result[j].slot == s;
      forall t | t in slots - {s} ensures exists l :: l in owners - {j} && result[l].slot == t {
        var l :| l in owners && result[l].slot == t;
        assert l in owners - {j};
      }
      FewerSlotsThanOwners(slots - {s}, owners - {j}, result);
    }
  }

  /** A new node takes the first place that is free: every smaller slot belongs to another node, which stayed or
      came before it. */
  lemma NewSlotsAreFirst(previous: seq<Node>, nodes: seq<nat>, links: seq<Link>, result: seq<Node>, i: nat, slot: nat)
    requires Consistent(previous) && Distinct(nodes) && Reconciled(previous, nodes, links, result)
    requires i < |nodes| && (forall k :: 0 <= k < |previous| ==> previous[k].id != nodes[i]) && slot < result[i].slot
    ensures exists j :: 0 <= j < |nodes| && j != i && result[j].slot == slot
              && (j < i || exists k :: 0 <= k < |previous| && previous[k].id == nodes[j])
  {
    assert Placed(previous, nodes, result, i);
    assert slot in Taken(previous, nodes, result[..i]);
    if slot in SurvivorSlots(previous, nodes) {
      var k :| 0 <= k < |previous| && previous[k].id in nodes && previous[k].slot == slot;
      var j :| 0 <= j < |nodes| && nodes[j] == previous[k].id;
      assert Placed(previous, nodes, result, j) && Keeps(previous, result[j]);
    } else {
      var j :| 0 <= j < i && result[..i][j].slot == slot;
      assert result[j].slot == slot;
    }
  }

  // ---- Over many snapshots --------------------------------------------------------------------

  datatype Frame = Frame(nodes: seq<nat>, links: seq<Link>, result: seq<Node>)

  /** Each frame is reconciled with the one before. */
  ghost predicate Follows(previous: seq<Node>, frames: seq<Frame>)
    decreases |frames|
  {
    frames == [] || (Distinct(frames[0].nodes) && Reconciled(previous, frames[0].nodes, frames[0].links, frames[0].result)
                     && Follows(frames[0].result, frames[1..]))
  }

  /** A node that is in every frame never moves, and slots stay below the largest frame's node count. */
  lemma {:induction false} LayoutIsStable(previous: seq<Node>, frames: seq<Frame>, node: Node, bound: nat, n: nat)
    requires Consistent(previous) && Follows(previous, frames) && node in previous && n < |frames|
    requires forall k :: 0 <= k < |frames| ==> node.id in frames[k].nodes && |frames[k].nodes| <= bound
    requires forall i :: 0 <= i < |previous| ==> previous[i].slot < bound
    ensures exists i :: 0 <= i < |frames[n].result| && frames[n].result[i].id == node.id
              && frames[n].result[i].slot == node.slot && frames[n].result[i].position == node.position
    ensures forall i :: 0 <= i < |frames[n].result| ==> frames[n].result[i].slot < bound
    decreases |frames|
  {
    var f := frames[0];
    var i :| 0 <= i < |f.nodes| && f.nodes[i] == node.id;
    assert Placed(previous, f.nodes, f.result, i) && Keeps(previous, f.result[i]);
    SlotsBounded(previous, f, bound);
    if n > 0 {
      ReconciledIsConsistent(previous, f.nodes, f.links, f.result);
      assert forall k :: 0 <= k < |frames| - 1 ==> frames[1..][k] == frames[k + 1];
      LayoutIsStable(f.result, frames[1..], f.result[i], bound, n - 1);
    }
  }

  lemma SlotsBounded(previous: seq<Node>, f: Frame, bound: nat)
    requires Consistent(previous) && Distinct(f.nodes) && Reconciled(previous, f.nodes, f.links, f.result)
    requires |f.nodes| <= bound && forall i :: 0 <= i < |previous| ==> previous[i].slot < bound
    ensures forall i :: 0 <= i < |f.result| ==> f.result[i].slot < bound
  {
    forall i: nat | i < |f.result| ensures f.result[i].slot < bound {
      assert Placed(previous, f.nodes, f.result, i);
      if !Survives(previous, f.nodes[i]) {
        NewSlotsAreSmall(previous, f.nodes, f.links, f.result, i);
      } else {
        var k :| 0 <= k < |previous| && previous[k].id == f.nodes[i];
        assert Keeps(previous, f.result[i]);
      }
    }
  }
}
