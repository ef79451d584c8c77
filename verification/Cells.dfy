/** Which texts an expression may hold, through names, rows and branches, each node opened once. */
module Cells {
  /** What a node of the syntax tree is to the walk: rows are lists and tuples, the rest are texts. */
  datatype Node =
    | Named(id: string)
    | Branch(body: nat, orelse: nat)
    | Starred(value: nat)
    | Row(elements: seq<nat>)
    | Text

  /** The nodes by identity, and the values that names were assigned. */
  datatype Tree = Tree(nodes: map<nat, Node>, names: map<string, seq<nat>>)

  /** A node, with how many levels of rows are still to be opened. */
  datatype Place = Place(node: nat, level: nat)

  predicate Known(tree: Tree, ids: seq<nat>) { forall id <- ids :: id in tree.nodes }

  /** Every node that another mentions is in the tree. */
  predicate Closed(tree: Tree) {
    && (forall name <- tree.names :: Known(tree, tree.names[name]))
    && (forall id <- tree.nodes :: Known(tree, ChildIds(tree.nodes[id])))
  }

  function ChildIds(node: Node): seq<nat> {
    match node
    case Branch(body, orelse) => [body, orelse]
    case Starred(value) => [value]
    case Row(elements) => elements
    case _ => []
  }

  function AllAt(ids: seq<nat>, level: nat): (places: seq<Place>)
    ensures |places| == |ids| && forall i :: 0 <= i < |ids| ==> places[i] == Place(ids[i], level)
  {
    seq(|ids|, i requires 0 <= i < |ids| => Place(ids[i], level))
  }

  /** Where the walk goes on from a place. */
  function Next(tree: Tree, p: Place): seq<Place>
    requires p.node in tree.nodes
  {
    var node := tree.nodes[p.node];
    match node
    case Named(id) => AllAt(if id in tree.names then tree.names[id] else [], p.level)
    case Row(elements) => if p.level > 0 then AllAt(elements, p.level - 1) else []
    case _ => AllAt(ChildIds(node), p.level)
  }

  /** The place itself is a text the expression holds. */
  predicate Holds(tree: Tree, p: Place)
    requires p.node in tree.nodes
  {
    p.level == 0 && (tree.nodes[p.node].Row? || tree.nodes[p.node].Text?)
  }

  lemma NextIsKnown(tree: Tree, p: Place)
    requires Closed(tree) && p.node in tree.nodes
    ensures forall q <- Next(tree, p) :: q.node in tree.nodes
  {
    var node := tree.nodes[p.node];
    assert Known(tree, ChildIds(node));
    assert node.Named? && node.id in tree.names ==> Known(tree, tree.names[node.id]);
  }

  // ---------------------------------------------------------------- reaching a place

  ghost predicate ReachesIn(tree: Tree, n: nat, p: Place, q: Place) {
    if n == 0 then p == q
    else p.node in tree.nodes && exists r <- Next(tree, p) :: ReachesIn(tree, n - 1, r, q)
  }

  ghost predicate Reaches(tree: Tree, p: Place, q: Place) { exists n: nat :: ReachesIn(tree, n, p, q) }

  /** No node is reached with different levels to open. */
  ghost predicate OneLevelEach(tree: Tree, root: Place) {
    forall node, j, k :: Reaches(tree, root, Place(node, j)) && Reaches(tree, root, Place(node, k)) ==> j == k
  }

  lemma ReachesItself(tree: Tree, p: Place)
    ensures Reaches(tree, p, p)
  {
    assert ReachesIn(tree, 0, p, p);
  }

  lemma ReachesByNext(tree: Tree, p: Place, r: Place, q: Place)
    requires p.node in tree.nodes && r in Next(tree, p) && Reaches(tree, r, q)
    ensures Reaches(tree, p, q)
  {
    var n: nat :| ReachesIn(tree, n, r, q);
    assert ReachesIn(tree, n + 1, p, q);
  }

  lemma {:induction false} ReachesFurther(tree: Tree, n: nat, p: Place, q: Place, r: Place)
    requires ReachesIn(tree, n, p, q) && q.node in tree.nodes && r in Next(tree, q)
    ensures Reaches(tree, p, r)
    decreases n
  {
    if n == 0 {
      ReachesItself(tree, r);
      ReachesByNext(tree, q, r, r);
    } else {
      var m :| m in Next(tree, p) && ReachesIn(tree, n - 1, m, q);
      ReachesFurther(tree, n - 1, m, q, r);
      ReachesByNext(tree, p, m, r);
    }
  }

  // ---------------------------------------------------------------- the walk

  ghost predicate FoundFrom(tree: Tree, from: set<Place>, q: Place) { exists p <- from :: Reaches(tree, p, q) }

  /** A node that was found is reached from one of the places, and everything after it is found. */
  ghost predicate Done(tree: Tree, from: set<Place>, after: map<nat, nat>, node: nat) {
    node in after && node in tree.nodes && FoundFrom(tree, from, Place(node, after[node]))
    && forall q <- Next(tree, Place(node, after[node])) :: q.node in after
  }

  /** A found node is one of the places, or what a found node goes on to at its own level. */
  ghost predicate Entered(tree: Tree, from: set<Place>, after: map<nat, nat>, node: nat) {
    node in after
    && (Place(node, after[node]) in from
        || exists m <- after :: m in tree.nodes && Place(node, after[node]) in Next(tree, Place(m, after[m])))
  }

  ghost predicate IsText(tree: Tree, levels: map<nat, nat>, node: nat) {
    node in levels && node in tree.nodes && Holds(tree, Place(node, levels[node]))
  }

  /** The texts are those among the new nodes, each once. */
  ghost predicate TextsAre(tree: Tree, before: map<nat, nat>, after: map<nat, nat>, texts: seq<nat>) {
    && (forall node <- after :: node !in before && IsText(tree, after, node) ==> node in texts)
    && (forall t <- texts :: t in after && t !in before && IsText(tree, after, t))
    && (forall i, j :: 0 <= i < j < |texts| ==> texts[i] != texts[j])
  }

  ghost predicate Extends(before: map<nat, nat>, after: map<nat, nat>) {
    forall node <- before :: node in after && after[node] == before[node]
  }

  /** What a walk over some places adds to what was seen before, and the texts it finds. */
  ghost predicate Walked(tree: Tree, from: set<Place>, before: map<nat, nat>, after: map<nat, nat>, texts: seq<nat>) {
    && Extends(before, after)
    && (forall p <- from :: p.node in after)
    && (forall node <- after :: node !in before ==> Done(tree, from, after, node) && Entered(tree, from, after, node))
    && TextsAre(tree, before, after, texts)
  }

  function Places(places: seq<Place>): set<Place> { set p <- places }

  lemma WalkedNone(tree: Tree, seen: map<nat, nat>)
    ensures Walked(tree, {}, seen, seen, [])
  {
  }

  lemma {:induction false} DoneStays(tree: Tree, from: set<Place>, b: map<nat, nat>, more: set<Place>, c: map<nat, nat>, node: nat)
    requires Extends(b, c) && from <= more
    ensures Done(tree, from, b, node) ==> Done(tree, more, c, node)
    ensures Entered(tree, from, b, node) ==> Entered(tree, more, c, node)
  {
    hide Reaches, Next;
  }

  lemma {:induction false} TextsJoin(
      tree: Tree, a: map<nat, nat>, b: map<nat, nat>, c: map<nat, nat>, ts: seq<nat>, us: seq<nat>)
    requires TextsAre(tree, a, b, ts) && TextsAre(tree, b, c, us) && Extends(a, b) && Extends(b, c)
    ensures TextsAre(tree, a, c, ts + us)
  {
    hide Holds;
    var texts := ts + us;
    forall i, j | 0 <= i < j < |texts|
      ensures texts[i] != texts[j]
    {
      if i < |ts| <= j {
        assert ts[i] in b && us[j - |ts|] !in b;
      }
    }
  }

  lemma ExtendsOn(a: map<nat, nat>, b: map<nat, nat>, c: map<nat, nat>)
    requires Extends(a, b) && Extends(b, c)
    ensures Extends(a, c) && forall node <- b :: node in c
  {
  }

  /** One walk after the other. */
  lemma {:induction false} WalkedOn(
      tree: Tree, from: set<Place>, p: Place, a: map<nat, nat>, b: map<nat, nat>, c: map<nat, nat>, ts: seq<nat>, us: seq<nat>)
    requires Walked(tree, from, a, b, ts) && Walked(tree, {p}, b, c, us)
    ensures Walked(tree, from + {p}, a, c, ts + us)
  {
    hide Done, Entered;
    TextsJoin(tree, a, b, c, ts, us);
    ExtendsOn(a, b, c);
    hide TextsAre, Extends;
    forall node | node in c && node !in a
      ensures Done(tree, from + {p}, c, node) && Entered(tree, from + {p}, c, node)
    {
      if node in b {
        DoneStays(tree, from, b, from + {p}, c, node);
      } else {
        ExtendsItself(c);
        DoneStays(tree, {p}, c, from + {p}, c, node);
      }
    }
  }

  lemma ExtendsItself(a: map<nat, nat>)
    ensures Extends(a, a)
  {
  }

  /** The place is found at its own level, and what it leads to by way of what comes next. */
  lemma PlaceDone(tree: Tree, p: Place, before: map<nat, nat>, after: map<nat, nat>, node: nat)
    requires p.node in tree.nodes && Extends(before[p.node := p.level], after) && node in after && node !in before
    requires forall q <- Next(tree, p) :: q.node in after
    requires node != p.node ==>
               Done(tree, Places(Next(tree, p)), after, node) && Entered(tree, Places(Next(tree, p)), after, node)
    ensures Done(tree, {p}, after, node) && Entered(tree, {p}, after, node)
  {
    InPlaces(Next(tree, p));
    hide Reaches, Next, Places;
    assert Place(p.node, after[p.node]) == p && p in {p};
    if node == p.node {
      ReachesItself(tree, p);
    } else {
      var q :| q in Places(Next(tree, p)) && Reaches(tree, q, Place(node, after[node]));
      ReachesByNext(tree, p, q, Place(node, after[node]));
      if Place(node, after[node]) in Places(Next(tree, p)) {
        assert Place(node, after[node]) in Next(tree, Place(p.node, after[p.node]));
      }
    }
  }

  lemma ExtendsByOne(before: map<nat, nat>, p: Place, after: map<nat, nat>)
    requires p.node !in before && Extends(before[p.node := p.level], after)
    ensures Extends(before, after) && p.node in after
  {
    assert p.node in before[p.node := p.level];
  }

  lemma InPlaces(places: seq<Place>)
    ensures forall q :: q in Places(places) <==> q in places
  {
  }

  lemma PlaceTexts(tree: Tree, p: Place, before: map<nat, nat>, after: map<nat, nat>, texts: seq<nat>)
    requires p.node in tree.nodes && p.node !in before && Extends(before[p.node := p.level], after)
    requires TextsAre(tree, before[p.node := p.level], after, texts)
    ensures TextsAre(tree, before, after, if Holds(tree, p) then texts + [p.node] else texts)
  {
    hide Holds;
    assert p.node in after && after[p.node] == p.level && Place(p.node, p.level) == p;
    assert p.node !in texts;
  }

  /** A place walked by way of everything after it. */
  lemma {:induction false} WalkedPlace(tree: Tree, p: Place, before: map<nat, nat>, after: map<nat, nat>, texts: seq<nat>)
    requires p.node in tree.nodes && p.node !in before
    requires Walked(tree, Places(Next(tree, p)), before[p.node := p.level], after, texts)
    ensures Walked(tree, {p}, before, after, if Holds(tree, p) then texts + [p.node] else texts)
  {
    hide TextsAre, Done, Entered, Holds, Next, Places, Extends;
    PlaceTexts(tree, p, before, after, texts);
    InPlaces(Next(tree, p));
    ExtendsByOne(before, p, after);
    forall node | node in after && node !in before
      ensures Done(tree, {p}, after, node) && Entered(tree, {p}, after, node)
    {
      PlaceDone(tree, p, before, after, node);
    }
  }

  /** A node seen before is not walked again. */
  lemma WalkedAlready(tree: Tree, p: Place, seen: map<nat, nat>)
    requires p.node in seen
    ensures Walked(tree, {p}, seen, seen, [])
  {
  }

  ghost function Unseen(tree: Tree, seen: set<nat>): nat { |tree.nodes.Keys - seen| }

  lemma UnseenShrinks(tree: Tree, seen: set<nat>, more: set<nat>)
    requires seen <= more
    ensures Unseen(tree, more) <= Unseen(tree, seen)
    ensures forall node :: node in tree.nodes && node in more && node !in seen ==> Unseen(tree, more) < Unseen(tree, seen)
  {
    FewerLeft(tree.nodes.Keys - more, tree.nodes.Keys - seen);
  }

  lemma {:induction false} FewerLeft<T>(a: set<T>, b: set<T>)
    requires a <= b
    ensures |a| <= |b| && (a != b ==> |a| < |b|)
  {
    if a != {} {
      var x :| x in a;
      FewerLeft(a - {x}, b - {x});
    }
  }

  /** The nodes found so far, each with the level it was first met at, and the texts among the new ones. */
  datatype Found = Found(levels: map<nat, nat>, texts: seq<nat>)

  /** The walk from a place: nothing for a node met before, else all that comes next, then its own text. */
  function WalkOf(tree: Tree, p: Place, levels: map<nat, nat>): (found: Found)
    requires Closed(tree) && p.node in tree.nodes
    ensures levels.Keys <= found.levels.Keys
    decreases Unseen(tree, levels.Keys), 0
  {
    if p.node in levels then Found(levels, [])
    else
      UnseenShrinks(tree, levels.Keys, levels[p.node := p.level].Keys);
      NextIsKnown(tree, p);
      var below := WalkAllOf(tree, Next(tree, p), levels[p.node := p.level]);
      Found(below.levels, if Holds(tree, p) then below.texts + [p.node] else below.texts)
  }

  function WalkAllOf(tree: Tree, places: seq<Place>, levels: map<nat, nat>): (found: Found)
    requires Closed(tree) && forall p <- places :: p.node in tree.nodes
    ensures levels.Keys <= found.levels.Keys
    decreases Unseen(tree, levels.Keys), 1, |places|
  {
    if places == [] then Found(levels, [])
    else
      var before := WalkAllOf(tree, places[..|places| - 1], levels);
      UnseenShrinks(tree, levels.Keys, before.levels.Keys);
      var last := WalkOf(tree, places[|places| - 1], before.levels);
      Found(last.levels, before.texts + last.texts)
  }

  lemma {:induction false} WalkOfWalks(tree: Tree, p: Place, levels: map<nat, nat>)
    requires Closed(tree) && p.node in tree.nodes
    ensures Walked(tree, {p}, levels, WalkOf(tree, p, levels).levels, WalkOf(tree, p, levels).texts)
    decreases Unseen(tree, levels.Keys), 0
  {
    hide Walked, Next, Holds, Closed, Unseen;
    if p.node in levels {
      WalkedAlready(tree, p, levels);
    } else {
      var more := levels[p.node := p.level];
      UnseenShrinks(tree, levels.Keys, more.Keys);
      NextIsKnown(tree, p);
      WalkAllOfWalks(tree, Next(tree, p), more);
      var below := WalkAllOf(tree, Next(tree, p), more);
      WalkedPlace(tree, p, levels, below.levels, below.texts);
    }
  }

  lemma {:induction false} WalkAllOfWalks(tree: Tree, places: seq<Place>, levels: map<nat, nat>)
    requires Closed(tree) && forall p <- places :: p.node in tree.nodes
    ensures Walked(tree, Places(places), levels, WalkAllOf(tree, places, levels).levels, WalkAllOf(tree, places, levels).texts)
    decreases Unseen(tree, levels.Keys), 1, |places|
  {
    hide Walked, Closed, Unseen;
    if places == [] {
      WalkedNone(tree, levels);
      assert Places(places) == {};
    } else {
      var init, last := places[..|places| - 1], places[|places| - 1];
      WalkAllOfWalks(tree, init, levels);
      var before := WalkAllOf(tree, init, levels);
      UnseenShrinks(tree, levels.Keys, before.levels.Keys);
      WalkOfWalks(tree, last, before.levels);
      var after := WalkOf(tree, last, before.levels);
      WalkedOn(tree, Places(init), last, levels, before.levels, after.levels, before.texts, after.texts);
      assert places == init + [last];
      assert Places(places) == Places(init) + {last};
    }
  }

  method Walk(tree: Tree, p: Place, seen: set<nat>, ghost levels: map<nat, nat>)
    returns (texts: seq<nat>, after: set<nat>, ghost found: map<nat, nat>)
    requires Closed(tree) && p.node in tree.nodes && levels.Keys == seen
    ensures found.Keys == after && Found(found, texts) == WalkOf(tree, p, levels)
    decreases Unseen(tree, seen), 0
  {
    hide Next, Holds, Closed, Unseen;
    if p.node in seen {
      return [], seen, levels;
    }
    UnseenShrinks(tree, seen, seen + {p.node});
    NextIsKnown(tree, p);
    texts, after, found := WalkAll(tree, Next(tree, p), seen + {p.node}, levels[p.node := p.level]);
    if Holds(tree, p) {
      texts := texts + [p.node];
    }
  }

  /** The places one after the other. */
  method WalkAll(tree: Tree, places: seq<Place>, seen: set<nat>, ghost levels: map<nat, nat>)
    returns (texts: seq<nat>, after: set<nat>, ghost found: map<nat, nat>)
    requires Closed(tree) && (forall p <- places :: p.node in tree.nodes) && levels.Keys == seen
    ensures found.Keys == after && Found(found, texts) == WalkAllOf(tree, places, levels)
    decreases Unseen(tree, seen), 1
  {
    hide Closed, Unseen, WalkOf;
    texts, after, found := [], seen, levels;
    for n := 0 to |places|
      invariant found.Keys == after && Found(found, texts) == WalkAllOf(tree, places[..n], levels)
    {
      UnseenShrinks(tree, seen, after);
      assert places[..n + 1][..n] == places[..n];
      var more, further, all := Walk(tree, places[n], after, found);
      texts, after, found := texts + more, further, all;
    }
    assert places[..|places|] == places;
  }

  // ---------------------------------------------------------------- all texts, each once

  /** With one level for each node, a walk from nothing finds every place that is reached. */
  lemma {:induction false} WalkFindsAll(
      tree: Tree, root: Place, found: map<nat, nat>, texts: seq<nat>, n: nat, p: Place, q: Place)
    requires Walked(tree, {root}, map[], found, texts) && OneLevelEach(tree, root)
    requires Reaches(tree, root, p) && p.node in found && found[p.node] == p.level && ReachesIn(tree, n, p, q)
    ensures q.node in found && found[q.node] == q.level
    decreases n
  {
    hide Reaches, Next, OneLevelEach, Walked;
    if n > 0 {
      var r :| r in Next(tree, p) && ReachesIn(tree, n - 1, r, q);
      NextIsFound(tree, root, found, texts, p, r);
      NextIsReached(tree, root, p, r);
      FoundLevel(tree, root, found, texts, r);
      WalkFindsAll(tree, root, found, texts, n - 1, r, q);
    }
  }

  lemma NextIsFound(tree: Tree, root: Place, found: map<nat, nat>, texts: seq<nat>, p: Place, r: Place)
    requires Walked(tree, {root}, map[], found, texts) && p.node in found && found[p.node] == p.level
    requires p.node in tree.nodes && r in Next(tree, p)
    ensures r.node in found
  {
    assert Done(tree, {root}, found, p.node);
    assert Place(p.node, found[p.node]) == p;
  }

  lemma NextIsReached(tree: Tree, root: Place, p: Place, r: Place)
    requires Reaches(tree, root, p) && p.node in tree.nodes && r in Next(tree, p)
    ensures Reaches(tree, root, r)
  {
    var n: nat :| ReachesIn(tree, n, root, p);
    ReachesFurther(tree, n, root, p, r);
  }

  /** A place found was reached, so its level is the one of every way to it. */
  lemma FoundLevel(tree: Tree, root: Place, found: map<nat, nat>, texts: seq<nat>, r: Place)
    requires Walked(tree, {root}, map[], found, texts) && OneLevelEach(tree, root)
    requires r.node in found && Reaches(tree, root, r)
    ensures found[r.node] == r.level
  {
    hide Reaches;
    assert FoundFrom(tree, {root}, Place(r.node, found[r.node]));
    assert Reaches(tree, root, Place(r.node, found[r.node])) && Reaches(tree, root, Place(r.node, r.level));
  }

  /** The texts that the walk finds in a value at a depth of rows. */
  function CellsIn(tree: Tree, root: Place): seq<nat>
    requires Closed(tree) && root.node in tree.nodes
  {
    WalkOf(tree, root, map[]).texts
  }

  /** A text that the value holds: the place is reached with no level left to open. */
  ghost predicate HeldIn(tree: Tree, root: Place, t: nat) {
    t in tree.nodes && Holds(tree, Place(t, 0)) && Reaches(tree, root, Place(t, 0))
  }

  /** The texts held, by what the node is: both branches, all values of a name, the entries of a row one level down. */
  lemma HeldIs(tree: Tree, p: Place, t: nat)
    requires Closed(tree) && p.node in tree.nodes
    ensures HeldIn(tree, p, t) <==>
            match tree.nodes[p.node]
            case Named(id) => id in tree.names && exists value <- tree.names[id] :: HeldIn(tree, Place(value, p.level), t)
            case Branch(body, orelse) => HeldIn(tree, Place(body, p.level), t) || HeldIn(tree, Place(orelse, p.level), t)
            case Starred(value) => HeldIn(tree, Place(value, p.level), t)
            case Row(elements) =>
              if p.level == 0 then t == p.node
              else exists element <- elements :: HeldIn(tree, Place(element, p.level - 1), t)
            case Text => p.level == 0 && t == p.node
  {
    hide Reaches;
    HeldByNext(tree, p, t);
    var next := Next(tree, p);
    match tree.nodes[p.node]
    case Named(id) =>
      if id in tree.names {
        assert forall value <- tree.names[id] :: Place(value, p.level) in next;
      }
    case Branch(body, orelse) => assert next == [Place(body, p.level), Place(orelse, p.level)];
    case Starred(value) => assert next == [Place(value, p.level)];
    case Row(elements) =>
      if p.level > 0 {
        assert forall element <- elements :: Place(element, p.level - 1) in next;
        assert forall q <- next :: q.node in elements && q == Place(q.node, p.level - 1);
      }
    case Text =>
  }

  lemma HeldByNext(tree: Tree, p: Place, t: nat)
    requires p.node in tree.nodes
    ensures HeldIn(tree, p, t) <==> (t == p.node && Holds(tree, p)) || exists q <- Next(tree, p) :: HeldIn(tree, q, t)
  {
    hide Next;
    if HeldIn(tree, p, t) && !(t == p.node && Holds(tree, p)) {
      var n: nat :| ReachesIn(tree, n, p, Place(t, 0));
      var q :| q in Next(tree, p) && ReachesIn(tree, n - 1, q, Place(t, 0));
      assert HeldIn(tree, q, t);
    }
    if t == p.node && Holds(tree, p) {
      ReachesItself(tree, p);
      assert p == Place(t, 0);
    }
    forall q | q in Next(tree, p) && HeldIn(tree, q, t)
      ensures HeldIn(tree, p, t)
    {
      ReachesByNext(tree, p, q, Place(t, 0));
    }
  }

  ghost predicate FindsAll(tree: Tree, root: Place)
    requires Closed(tree) && root.node in tree.nodes
  {
    forall t :: HeldIn(tree, root, t) ==> t in CellsIn(tree, root)
  }

  /** The texts found are each held and found once; they are all of them if each node is reached at one level. */
  lemma CellsAreHeld(tree: Tree, root: Place)
    requires Closed(tree) && root.node in tree.nodes
    ensures forall i, j :: 0 <= i < j < |CellsIn(tree, root)| ==> CellsIn(tree, root)[i] != CellsIn(tree, root)[j]
    ensures forall t <- CellsIn(tree, root) :: HeldIn(tree, root, t)
    ensures OneLevelEach(tree, root) ==> FindsAll(tree, root)
  {
    hide WalkOf, Next, Walked, OneLevelEach;
    WalkOfWalks(tree, root, map[]);
    WalkIsRight(tree, root, WalkOf(tree, root, map[]).levels, CellsIn(tree, root));
  }

  /** The texts of a value, in the order of the walk. */
  method CellsOf(tree: Tree, value: nat, depth: nat) returns (texts: seq<nat>)
    requires Closed(tree) && value in tree.nodes
    ensures texts == CellsIn(tree, Place(value, depth))
    ensures forall i, j :: 0 <= i < j < |texts| ==> texts[i] != texts[j]
    ensures forall t <- texts :: HeldIn(tree, Place(value, depth), t)
    ensures OneLevelEach(tree, Place(value, depth)) ==> forall t :: HeldIn(tree, Place(value, depth), t) ==> t in texts
  {
    hide OneLevelEach, WalkOf, HeldIn;
    CellsAreHeld(tree, Place(value, depth));
    var after: set<nat>;
    ghost var found: map<nat, nat>;
    texts, after, found := Walk(tree, Place(value, depth), {}, map[]);
  }

  lemma WalkIsRight(tree: Tree, root: Place, found: map<nat, nat>, texts: seq<nat>)
    requires root.node in tree.nodes && Walked(tree, {root}, map[], found, texts)
    ensures forall i, j :: 0 <= i < j < |texts| ==> texts[i] != texts[j]
    ensures forall t <- texts :: t in tree.nodes && Holds(tree, Place(t, 0)) && Reaches(tree, root, Place(t, 0))
    ensures OneLevelEach(tree, root) ==>
              forall t <- tree.nodes :: Holds(tree, Place(t, 0)) && Reaches(tree, root, Place(t, 0)) ==> t in texts
  {
    hide OneLevelEach, Next;
    forall t | t in texts
      ensures Holds(tree, Place(t, 0)) && Reaches(tree, root, Place(t, 0))
    {
      hide Reaches;
      assert FoundFrom(tree, {root}, Place(t, found[t]));
    }
    if OneLevelEach(tree, root) {
      forall t | t in tree.nodes && Holds(tree, Place(t, 0)) && Reaches(tree, root, Place(t, 0))
        ensures t in texts
      {
        var n: nat :| ReachesIn(tree, n, root, Place(t, 0));
        ReachesItself(tree, root);
        FoundLevel(tree, root, found, texts, root);
        WalkFindsAll(tree, root, found, texts, n, root, Place(t, 0));
      }
    }
  }

  // ---------------------------------------------------------------- a text at two levels

  /** The rows hung at a text, from the text's own node on: new nodes above all others, the last one a text. */
  function Hung(x: nat, top: nat, m: nat): nat { if m == 0 then x else top + m }

  predicate IsTop(tree: Tree, top: nat) { forall id <- tree.nodes :: id <= top }

  function Added(top: nat, height: nat): (ids: set<nat>)
    ensures forall id :: id in ids <==> top < id <= top + height
  {
    if height == 0 then {} else Added(top, height - 1) + {top + height}
  }

  /** The tree with so many rows, each in the other, in place of a text. */
  function Nested(tree: Tree, x: nat, top: nat, height: nat): (nested: Tree)
    requires Closed(tree) && x in tree.nodes && IsTop(tree, top)
    ensures Closed(nested) && nested.nodes.Keys == tree.nodes.Keys + Added(top, height)
  {
    var nested := Tree(
      map id | id in tree.nodes.Keys + Added(top, height) ::
        if id == x then (if height == 0 then Text else Row([top + 1]))
        else if id in tree.nodes then tree.nodes[id]
        else if id == top + height then Text else Row([id + 1]),
      tree.names);
    NestedIsClosed(tree, x, top, height, nested);
    nested
  }

  lemma NestedIsClosed(tree: Tree, x: nat, top: nat, height: nat, nested: Tree)
    requires Closed(tree) && x in tree.nodes && IsTop(tree, top) && nested.names == tree.names
    requires nested.nodes.Keys == tree.nodes.Keys + Added(top, height)
    requires forall id <- nested.nodes ::
               nested.nodes[id] == if id == x then (if height == 0 then Text else Row([top + 1]))
                                   else if id in tree.nodes then tree.nodes[id]
                                   else if id == top + height then Text else Row([id + 1])
    ensures Closed(nested)
  {
    forall id | id in nested.nodes
      ensures Known(nested, ChildIds(nested.nodes[id]))
    {
      if id != x && id in tree.nodes {
        assert Known(tree, ChildIds(tree.nodes[id]));
      }
    }
    forall name | name in nested.names
      ensures Known(nested, nested.names[name])
    {
      assert Known(tree, tree.names[name]);
    }
  }

  /** Where a place of the tree goes on, and one of the rows. */
  lemma NestedNext(tree: Tree, x: nat, top: nat, height: nat, p: Place)
    requires Closed(tree) && x in tree.nodes && tree.nodes[x].Text? && IsTop(tree, top)
    ensures p.node in tree.nodes && p.node != x ==> Next(Nested(tree, x, top, height), p) == Next(tree, p)
    ensures p.node == x ==> Next(tree, p) == []
  {
  }

  lemma RowNext(tree: Tree, x: nat, top: nat, height: nat, m: nat, level: nat)
    requires Closed(tree) && x in tree.nodes && tree.nodes[x].Text? && IsTop(tree, top) && m <= height
    ensures Next(Nested(tree, x, top, height), Place(Hung(x, top, m), level))
         == if m < height && level > 0 then [Place(Hung(x, top, m + 1), level - 1)] else []
  {
  }

  lemma {:induction false} DownTheRows(tree: Tree, x: nat, top: nat, height: nat, n: nat, m: nat, level: nat, q: Place)
    requires Closed(tree) && x in tree.nodes && tree.nodes[x].Text? && IsTop(tree, top) && m <= height
    requires ReachesIn(Nested(tree, x, top, height), n, Place(Hung(x, top, m), level), q)
    ensures n <= level && m + n <= height && q == Place(Hung(x, top, m + n), level - n)
    decreases n
  {
    hide Nested, Next, Hung;
    if n > 0 {
      RowNext(tree, x, top, height, m, level);
      var r :| r in Next(Nested(tree, x, top, height), Place(Hung(x, top, m), level))
            && ReachesIn(Nested(tree, x, top, height), n - 1, r, q);
      assert level > 0 && r == Place(Hung(x, top, m + 1), level - 1);
      DownTheRows(tree, x, top, height, n - 1, m + 1, level - 1, q);
    }
  }

  /** What the rows add is reached through the text alone. */
  lemma {:induction false} ReachedBefore(tree: Tree, x: nat, top: nat, height: nat, n: nat, p: Place, q: Place)
    requires Closed(tree) && x in tree.nodes && tree.nodes[x].Text? && IsTop(tree, top) && p.node in tree.nodes
    requires ReachesIn(Nested(tree, x, top, height), n, p, q)
    ensures q.node in tree.nodes ==> Reaches(tree, p, q)
    ensures q.node !in tree.nodes ==>
              exists m :: 1 <= m <= height && q.node == Hung(x, top, m) && Reaches(tree, p, Place(x, q.level + m))
    decreases n
  {
    hide Nested, Next, Reaches;
    ReachesItself(tree, p);
    if n > 0 && p.node == x {
      DownTheRows(tree, x, top, height, n, 0, p.level, q);
      assert q.node == Hung(x, top, n) && Place(x, q.level + n) == p;
    } else if n > 0 {
      NestedNext(tree, x, top, height, p);
      NextIsKnown(tree, p);
      var r :| r in Next(tree, p) && ReachesIn(Nested(tree, x, top, height), n - 1, r, q);
      ReachedBefore(tree, x, top, height, n - 1, r, q);
      if q.node in tree.nodes {
        ReachesByNext(tree, p, r, q);
      } else {
        var m :| 1 <= m <= height && q.node == Hung(x, top, m) && Reaches(tree, r, Place(x, q.level + m));
        ReachesByNext(tree, p, r, Place(x, q.level + m));
      }
    }
  }

  /** What was reached still is. */
  lemma {:induction false} ReachedStill(tree: Tree, x: nat, top: nat, height: nat, n: nat, p: Place, q: Place)
    requires Closed(tree) && x in tree.nodes && tree.nodes[x].Text? && IsTop(tree, top) && p.node in tree.nodes
    requires ReachesIn(tree, n, p, q)
    ensures Reaches(Nested(tree, x, top, height), p, q)
    decreases n
  {
    hide Nested, Next, Reaches;
    var nested := Nested(tree, x, top, height);
    ReachesItself(nested, p);
    if n > 0 {
      NestedNext(tree, x, top, height, p);
      NextIsKnown(tree, p);
      var r :| r in Next(tree, p) && ReachesIn(tree, n - 1, r, q);
      ReachedStill(tree, x, top, height, n - 1, r, q);
      ReachesByNext(nested, p, r, q);
    }
  }

  lemma Steps(tree: Tree, p: Place, q: Place, r: Place)
    requires Reaches(tree, p, q) && q.node in tree.nodes && r in Next(tree, q)
    ensures Reaches(tree, p, r)
  {
    var n: nat :| ReachesIn(tree, n, p, q);
    ReachesFurther(tree, n, p, q, r);
  }

  lemma HungIsThere(tree: Tree, x: nat, top: nat, height: nat, m: nat)
    requires Closed(tree) && x in tree.nodes && IsTop(tree, top) && m <= height
    ensures var nested := Nested(tree, x, top, height);
            Hung(x, top, m) in nested.nodes
            && nested.nodes[Hung(x, top, m)] == if m == height then Text else Row([top + (m + 1)])
    ensures m > 0 ==> Hung(x, top, m) !in tree.nodes
  {
  }

  /** From the text, so many levels up, the rows are reached one level down each. */
  lemma {:induction false} RowsReached(tree: Tree, root: Place, x: nat, top: nat, height: nat, level: nat, m: nat)
    requires Closed(tree) && x in tree.nodes && tree.nodes[x].Text? && IsTop(tree, top) && root.node in tree.nodes
    requires Reaches(tree, root, Place(x, level)) && m <= height && m <= level
    ensures Reaches(Nested(tree, x, top, height), root, Place(Hung(x, top, m), level - m))
    decreases m
  {
    hide Nested, Next;
    if m == 0 {
      var n: nat :| ReachesIn(tree, n, root, Place(x, level));
      ReachedStill(tree, x, top, height, n, root, Place(x, level));
    } else {
      hide Reaches;
      RowsReached(tree, root, x, top, height, level, m - 1);
      var p := Place(Hung(x, top, m - 1), level - (m - 1));
      HungIsThere(tree, x, top, height, m - 1);
      RowNext(tree, x, top, height, m - 1, p.level);
      Steps(Nested(tree, x, top, height), root, p, Place(Hung(x, top, m), level - m));
    }
  }

  /** Only the row before it leads to a row that was added. */
  lemma RowEntered(tree: Tree, root: Place, x: nat, top: nat, height: nat, levels: map<nat, nat>, m: nat)
    requires Closed(tree) && x in tree.nodes && tree.nodes[x].Text? && IsTop(tree, top) && root.node in tree.nodes
    requires m < height && Entered(Nested(tree, x, top, height), {root}, levels, Hung(x, top, m + 1))
    ensures Hung(x, top, m) in levels && levels[Hung(x, top, m)] == levels[Hung(x, top, m + 1)] + 1
  {
    hide Nested, Next;
    var nested, next := Nested(tree, x, top, height), Hung(x, top, m + 1);
    HungIsThere(tree, x, top, height, m + 1);
    assert Place(next, levels[next]) != root;
    var id :| id in levels && id in nested.nodes && Place(next, levels[next]) in Next(nested, Place(id, levels[id]));
    var p := Place(id, levels[id]);
    if id in tree.nodes && id != x {
      NestedNext(tree, x, top, height, p);
      NextIsKnown(tree, p);
      assert false;
    } else {
      var k: nat := if id == x then 0 else id - top;
      assert id == Hung(x, top, k) && k <= height;
      RowNext(tree, x, top, height, k, p.level);
    }
  }

  lemma {:induction false} RowsEntered(
      tree: Tree, root: Place, x: nat, top: nat, height: nat, found: map<nat, nat>, texts: seq<nat>, m: nat)
    requires Closed(tree) && x in tree.nodes && tree.nodes[x].Text? && IsTop(tree, top) && root.node in tree.nodes
    requires Walked(Nested(tree, x, top, height), {root}, map[], found, texts) && m <= height
    requires Hung(x, top, height) in found && found[Hung(x, top, height)] == 0
    ensures Hung(x, top, m) in found && found[Hung(x, top, m)] == height - m
    decreases height - m
  {
    hide Nested, Hung, Done, TextsAre, Entered;
    if m < height {
      RowsEntered(tree, root, x, top, height, found, texts, m + 1);
      RowEntered(tree, root, x, top, height, found, m);
    }
  }

  /** A text reached at two levels: with rows to the deeper one in its place, the row or the text within is missed. */
  lemma TwoLevelsMissOne(tree: Tree, root: Place, x: nat, top: nat, j: nat, k: nat)
    requires Closed(tree) && x in tree.nodes && tree.nodes[x].Text? && IsTop(tree, top) && root.node in tree.nodes
    requires j < k && Reaches(tree, root, Place(x, j)) && Reaches(tree, root, Place(x, k))
    ensures var nested := Nested(tree, x, top, k);
            HeldIn(nested, root, Hung(x, top, j)) && HeldIn(nested, root, Hung(x, top, k))
            && !(Hung(x, top, j) in CellsIn(nested, root) && Hung(x, top, k) in CellsIn(nested, root))
  {
    hide Nested, Next, WalkOf, Reaches, Hung;
    var nested := Nested(tree, x, top, k);
    RowsReached(tree, root, x, top, k, j, j);
    RowsReached(tree, root, x, top, k, k, k);
    HungIsThere(tree, x, top, k, j);
    HungIsThere(tree, x, top, k, k);
    var found := WalkOf(nested, root, map[]);
    WalkOfWalks(nested, root, map[]);
    if Hung(x, top, j) in found.texts && Hung(x, top, k) in found.texts {
      RowsEntered(tree, root, x, top, k, found.levels, found.texts, j);
      assert false;
    }
  }

  ghost predicate OneLevelAt(tree: Tree, root: Place, node: nat) {
    forall j, k :: Reaches(tree, root, Place(node, j)) && Reaches(tree, root, Place(node, k)) ==> j == k
  }

  /** By which levels a node of the nested tree is reached. */
  lemma NestedLevel(tree: Tree, root: Place, x: nat, top: nat, height: nat, node: nat, level: nat)
    requires Closed(tree) && x in tree.nodes && tree.nodes[x].Text? && IsTop(tree, top) && root.node in tree.nodes
    requires Reaches(Nested(tree, x, top, height), root, Place(node, level))
    ensures node in tree.nodes ==> Reaches(tree, root, Place(node, level))
    ensures node !in tree.nodes ==> node > top && Reaches(tree, root, Place(x, level + (node - top)))
  {
    hide Nested;
    var n: nat :| ReachesIn(Nested(tree, x, top, height), n, root, Place(node, level));
    ReachedBefore(tree, x, top, height, n, root, Place(node, level));
  }

  /** With one level for each node of the tree, the rows have one level each too. */
  lemma NestedOneLevel(tree: Tree, root: Place, x: nat, top: nat, height: nat)
    requires Closed(tree) && x in tree.nodes && tree.nodes[x].Text? && IsTop(tree, top) && root.node in tree.nodes
    requires forall node :: OneLevelAt(tree, root, node)
    ensures OneLevelEach(Nested(tree, x, top, height), root)
  {
    hide Nested, Reaches;
    var nested := Nested(tree, x, top, height);
    forall node: nat, j: nat, k: nat | Reaches(nested, root, Place(node, j)) && Reaches(nested, root, Place(node, k))
      ensures j == k
    {
      NestedLevel(tree, root, x, top, height, node, j);
      NestedLevel(tree, root, x, top, height, node, k);
      assert OneLevelAt(tree, root, node) && OneLevelAt(tree, root, x);
    }
  }

  /**
   * Whatever rows stand in place of a text, the walk finds all that is held exactly when the text is reached at one
   * level; the other nodes are.
   */
  lemma FindsAllIff(tree: Tree, root: Place, x: nat, top: nat)
    requires Closed(tree) && x in tree.nodes && tree.nodes[x].Text? && IsTop(tree, top) && root.node in tree.nodes
    requires forall node :: node != x ==> OneLevelAt(tree, root, node)
    ensures (forall height: nat :: FindsAll(Nested(tree, x, top, height), root)) <==> OneLevelAt(tree, root, x)
  {
    hide Nested, HeldIn, CellsIn, Reaches;
    if OneLevelAt(tree, root, x) {
      forall height: nat
        ensures FindsAll(Nested(tree, x, top, height), root)
      {
        NestedOneLevel(tree, root, x, top, height);
        CellsAreHeld(Nested(tree, x, top, height), root);
      }
    } else {
      var j, k :| Reaches(tree, root, Place(x, j)) && Reaches(tree, root, Place(x, k)) && j != k;
      var few, many := if j < k then j else k, if j < k then k else j;
      TwoLevelsMissOne(tree, root, x, top, few, many);
      assert !FindsAll(Nested(tree, x, top, many), root);
    }
  }

  // ---------------------------------------------------------------- a text that is lost

  /** The value `[a] if c else a`, where a is assigned a list of one text. */
  const TWICE := Tree(
    map[0 := Branch(1, 3), 1 := Row([2]), 2 := Named("a"), 3 := Named("a"), 4 := Row([5]), 5 := Text],
    map["a" := [4]]
  )

  lemma WalkOne(tree: Tree, p: Place, levels: map<nat, nat>)
    requires Closed(tree) && p.node in tree.nodes
    ensures WalkAllOf(tree, [p], levels) == WalkOf(tree, p, levels)
  {
    assert [p][..0] == [];
  }

  lemma WalkTwo(tree: Tree, p: Place, q: Place, levels: map<nat, nat>)
    requires Closed(tree) && p.node in tree.nodes && q.node in tree.nodes
    ensures var first := WalkOf(tree, p, levels);
            var second := WalkOf(tree, q, first.levels);
            WalkAllOf(tree, [p, q], levels) == Found(second.levels, first.texts + second.texts)
  {
    assert [p, q][..1] == [p];
    WalkOne(tree, p, levels);
  }

  lemma TwiceIsClosed()
    ensures Closed(TWICE)
  {
  }

  lemma RootOfTwice()
    requires Closed(TWICE)
    ensures WalkOf(TWICE, Place(0, 1), map[]) == WalkAllOf(TWICE, [Place(1, 1), Place(3, 1)], map[0 := 1])
  {
    hide WalkAllOf, Closed;
    assert Next(TWICE, Place(0, 1)) == [Place(1, 1), Place(3, 1)];
  }

  /** The first branch: the row is opened, and the list that the name stands for is a text. */
  lemma ListAsText(levels: map<nat, nat>)
    requires Closed(TWICE) && levels.Keys !! {1, 2, 4}
    ensures WalkOf(TWICE, Place(1, 1), levels) == Found(levels[1 := 1][2 := 0][4 := 0], [4])
  {
    hide WalkAllOf, Closed;
    var tree := TWICE;
    var a := levels[1 := 1];
    var b := a[2 := 0];
    assert Next(tree, Place(1, 1)) == [Place(2, 0)] && Next(tree, Place(2, 0)) == [Place(4, 0)] && Next(tree, Place(4, 0)) == [];
    WalkNone(tree, b[4 := 0]);
    assert WalkOf(tree, Place(4, 0), b) == Found(b[4 := 0], [4]);
    WalkOne(tree, Place(4, 0), b);
    assert WalkOf(tree, Place(2, 0), a) == Found(b[4 := 0], [4]);
    WalkOne(tree, Place(2, 0), a);
  }

  lemma WalkNone(tree: Tree, levels: map<nat, nat>)
    requires Closed(tree)
    ensures WalkAllOf(tree, [], levels) == Found(levels, [])
  {
  }

  /** The second: the list was met. */
  lemma ListAgain(levels: map<nat, nat>)
    requires Closed(TWICE) && 4 in levels && 3 !in levels
    ensures WalkOf(TWICE, Place(3, 1), levels) == Found(levels[3 := 1], [])
  {
    hide WalkAllOf, Closed;
    assert Next(TWICE, Place(3, 1)) == [Place(4, 1)];
    WalkOne(TWICE, Place(4, 1), levels[3 := 1]);
  }

  /** Where the list comes first, the walk meets it as a text; opened after that, its text is never met. */
  lemma TextIsLost()
    ensures Closed(TWICE) && CellsIn(TWICE, Place(0, 1)) == [4] && HeldIn(TWICE, Place(0, 1), 5)
  {
    TwiceIsClosed();
    hide WalkOf, WalkAllOf, Reaches, Closed;
    var tree, root := TWICE, Place(0, 1);
    var l1: map<nat, nat> := map[0 := 1];
    var l4: map<nat, nat> := l1[1 := 1][2 := 0][4 := 0];
    ListAsText(l1);
    ListAgain(l4);
    WalkTwo(tree, Place(1, 1), Place(3, 1), l1);
    RootOfTwice();
    ReachesItself(tree, root);
    assert Next(tree, root)[1] == Place(3, 1) && Next(tree, Place(3, 1))[0] == Place(4, 1);
    Steps(tree, root, root, Place(3, 1));
    Steps(tree, root, Place(3, 1), Place(4, 1));
    assert Next(tree, Place(4, 1))[0] == Place(5, 0);
    Steps(tree, root, Place(4, 1), Place(5, 0));
  }
}
