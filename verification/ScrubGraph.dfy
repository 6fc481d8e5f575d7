/** `scrubSecrets` (packages/middleware/src/relayer-key.ts): a memoised copy of an object graph
that may share nodes and have cycles. */
module ScrubGraph {
  import opened Wrappers
  import opened ScrubText

  /** `Atom` stands for everything passed through: null, numbers, booleans, functions. */
  datatype Value = Text(s: string) | Atom(a: int) | Ref(id: nat)

  /** An opaque key, or an array or plain object with its members in order. */
  datatype Node = Branded | Plain(isArray: bool, keys: seq<string>, children: seq<Value>)

  type Graph = map<nat, Node>

  predicate Inside(g: Graph, v: Value) { v.Ref? ==> v.id in g }

  ghost predicate Closed(g: Graph) {
    forall id :: id in g && g[id].Plain? ==>
      (!g[id].isArray ==> |g[id].keys| == |g[id].children|) && (g[id].isArray ==> g[id].keys == []) &&
      forall i :: 0 <= i < |g[id].children| ==> Inside(g, g[id].children[i])
  }

  // ---------------------------------------------------------------- what a copy is

  /** v is covered when its node, if it has a plain one, has a copy. */
  predicate Covered(g: Graph, seen: map<nat, nat>, v: Value) {
    v.Ref? ==> v.id in g && (g[v.id].Plain? ==> v.id in seen)
  }

  function Copy(g: Graph, seen: map<nat, nat>, v: Value): Value
    requires Covered(g, seen, v)
  {
    match v
    case Text(s) => Text(ScrubString(s))
    case Atom(a) => v
    case Ref(id) => if g[id].Branded? then Text(REDACTED) else Ref(seen[id])
  }

  predicate AllCovered(g: Graph, seen: map<nat, nat>, vs: seq<Value>) {
    forall i :: 0 <= i < |vs| ==> Covered(g, seen, vs[i])
  }

  function CopyAll(g: Graph, seen: map<nat, nat>, vs: seq<Value>): (r: seq<Value>)
    requires AllCovered(g, seen, vs)
    ensures |r| == |vs| && forall i :: 0 <= i < |vs| ==> r[i] == Copy(g, seen, vs[i])
  {
    seq(|vs|, i requires 0 <= i < |vs| => Copy(g, seen, vs[i]))
  }

  /** `c` copies the plain node n: same kind and keys, children copied in order. */
  predicate CopyOf(g: Graph, seen: map<nat, nat>, n: Node, c: Node) {
    n.Plain? && AllCovered(g, seen, n.children) && c == Plain(n.isArray, n.keys, CopyAll(g, seen, n.children))
  }

  /** The copy of n with its first k members in place. */
  predicate Partial(g: Graph, seen: map<nat, nat>, n: Node, k: nat, c: Node) {
    n.Plain? && k <= |n.children| && (!n.isArray ==> |n.keys| == |n.children|) &&
    AllCovered(g, seen, n.children[..k]) &&
    c == Plain(n.isArray, if n.isArray then [] else n.keys[..k], CopyAll(g, seen, n.children[..k]))
  }

  predicate Extended(small: map<nat, nat>, big: map<nat, nat>) {
    forall id :: id in small ==> id in big && big[id] == small[id]
  }

  lemma CopyStable(g: Graph, small: map<nat, nat>, big: map<nat, nat>, n: Node, c: Node)
    requires CopyOf(g, small, n, c) && Extended(small, big)
    ensures CopyOf(g, big, n, c)
  {
    assert CopyAll(g, big, n.children) == CopyAll(g, small, n.children);
  }

  lemma PartialStable(g: Graph, small: map<nat, nat>, big: map<nat, nat>, n: Node, k: nat, c: Node)
    requires Partial(g, small, n, k, c) && Extended(small, big)
    ensures Partial(g, big, n, k, c)
  {
    assert CopyAll(g, big, n.children[..k]) == CopyAll(g, small, n.children[..k]);
  }

  lemma PartialNext(g: Graph, seen: map<nat, nat>, n: Node, k: nat, c: Node)
    requires Partial(g, seen, n, k, c) && k < |n.children| && Covered(g, seen, n.children[k])
    ensures Partial(g, seen, n, k + 1,
      Plain(c.isArray, if n.isArray then c.keys else c.keys + [n.keys[k]], c.children + [Copy(g, seen, n.children[k])]))
  {
    var vs, ws := n.children[..k], n.children[..k + 1];
    assert ws == vs + [n.children[k]];
    assert CopyAll(g, seen, ws) == CopyAll(g, seen, vs) + [Copy(g, seen, n.children[k])];
  }

  lemma PartialWhole(g: Graph, seen: map<nat, nat>, n: Node, c: Node)
    requires n.Plain? && Partial(g, seen, n, |n.children|, c) && (n.isArray ==> n.keys == [])
    ensures CopyOf(g, seen, n, c)
  {
    assert n.children[..|n.children|] == n.children;
  }

  /** What a path of child positions leads to. */
  function Follow(g: Graph, v: Value, path: seq<nat>): Option<Value>
    decreases |path|
  {
    if path == [] then Some(v)
    else if v.Ref? && v.id in g && g[v.id].Plain? && path[0] < |g[v.id].children| then
      Follow(g, g[v.id].children[path[0]], path[1..])
    else None
  }

  ghost predicate Reaches(g: Graph, v: Value, id: nat) {
    exists path :: Follow(g, v, path) == Some(Ref(id))
  }

  lemma ReachThroughChild(g: Graph, id: nat, k: nat, target: nat)
    requires id in g && g[id].Plain? && k < |g[id].children| && Reaches(g, g[id].children[k], target)
    ensures Reaches(g, Ref(id), target)
  {
    var path :| Follow(g, g[id].children[k], path) == Some(Ref(target));
    assert ([k] + path)[1..] == path;
    assert Follow(g, Ref(id), [k] + path) == Some(Ref(target));
  }

  // ---------------------------------------------------------------- the walk

  class Scrubber {
    const g: Graph
    /** From input objects to their copies. */
    var seen: map<nat, nat>
    /** The copies, in the order they are allocated. */
    var out: seq<Node>
    ghost var origin: seq<nat>

    /** `seen` pairs the plain nodes met so far with the copies, one to one. */
    ghost predicate Paired()
      reads this
    {
      |origin| == |out| &&
      (forall i :: 0 <= i < |out| ==> origin[i] in seen && seen[origin[i]] == i) &&
      (forall id :: id in seen ==> id in g && g[id].Plain? && seen[id] < |out| && origin[seen[id]] == id)
    }

    ghost predicate Done(i: nat)
      reads this
      requires |origin| == |out|
    {
      i < |out| && origin[i] in g && CopyOf(g, seen, g[origin[i]], out[i])
    }

    /** Copies made since only extend what was there; the unfinished ones among them stay as they were. */
    twostate predicate Extends()
      reads this
    {
      old(out) <= out && old(origin) <= origin && Extended(old(seen), seen)
    }

    constructor (g: Graph)
      requires Closed(g)
      ensures this.g == g && Paired() && out == [] && seen == map[]
    {
      this.g := g;
      seen, out, origin := map[], [], [];
    }

    method Walk(v: Value) returns (r: Value)
      requires Closed(g) && Paired() && Inside(g, v)
      modifies this
      ensures Paired() && Extends()
      ensures Covered(g, seen, v) && r == Copy(g, seen, v)
      ensures forall i :: |old(out)| <= i < |out| ==> Done(i) && Reaches(g, v, origin[i])
      decreases g.Keys - seen.Keys, 1
    {
      match v
      case Text(s) => return Text(ScrubString(s));
      case Atom(a) => return v;
      case Ref(id) =>
        if g[id].Branded? { return Text(REDACTED); }
        if id in seen { return Ref(seen[id]); }
        r := WalkNode(id);
    }

    /** The copies after `me` are finished and belong below it. */
    ghost predicate AllBelow(id: nat, me: nat)
      reads this
      requires |origin| == |out|
    {
      forall i :: me < i < |out| ==> Done(i) && Reaches(g, Ref(id), origin[i])
    }

    /** `seen.set(v, out)`, with an `out` that is still empty. */
    method Register(id: nat)
      requires Closed(g) && Paired() && id in g && g[id].Plain? && id !in seen
      modifies this
      ensures Paired() && seen == old(seen)[id := |old(out)|] && origin == old(origin) + [id]
      ensures out == old(out) + [Plain(g[id].isArray, [], [])]
      ensures Partial(g, seen, g[id], 0, out[|old(out)|]) && Reaches(g, Ref(id), id)
    {
      seen := seen[id := |out|];
      out := out + [Plain(g[id].isArray, [], [])];
      origin := origin + [id];
      assert Follow(g, Ref(id), []) == Some(Ref(id));
    }

    /** The copy is registered before its children are walked. */
    method WalkNode(id: nat) returns (r: Value)
      requires Closed(g) && Paired() && id in g && g[id].Plain? && id !in seen
      modifies this
      ensures Paired() && Extends() && id in seen && r == Ref(seen[id])
      ensures forall i :: |old(out)| <= i < |out| ==> Done(i) && Reaches(g, Ref(id), origin[i])
      decreases g.Keys - seen.Keys, 0
    {
      var me := |out|;
      Register(id);
      WalkMembers(id, me);
      PartialWhole(g, seen, g[id], out[me]);
      r := Ref(me);
    }

    /** The loop over the members of a node that has been registered just now. */
    method WalkMembers(id: nat, me: nat)
      requires Closed(g) && Paired() && id in g && g[id].Plain? && |out| == me + 1 && origin[me] == id
      requires Partial(g, seen, g[id], 0, out[me])
      modifies this
      ensures Paired() && me < |out| && old(origin) <= origin && Extended(old(seen), seen)
      ensures forall i :: 0 <= i < me ==> out[i] == old(out)[i]
      ensures Partial(g, seen, g[id], |g[id].children|, out[me]) && AllBelow(id, me)
      decreases g.Keys - seen.Keys, 4
    {
      var k := 0;
      while k < |g[id].children|
        invariant 0 <= k <= |g[id].children| && Paired() && me < |out|
        invariant old(origin) <= origin && Extended(old(seen), seen)
        invariant forall i :: 0 <= i < me ==> out[i] == old(out)[i]
        invariant Partial(g, seen, g[id], k, out[me]) && AllBelow(id, me)
      {
        WalkMember(id, me, k);
        k := k + 1;
      }
    }

    method WalkMember(id: nat, me: nat, k: nat)
      requires Closed(g) && Paired() && id in g && g[id].Plain? && me < |out| && origin[me] == id
      requires k < |g[id].children| && Partial(g, seen, g[id], k, out[me]) && AllBelow(id, me)
      modifies this
      ensures Paired() && |old(out)| <= |out| && old(origin) <= origin && Extended(old(seen), seen)
      ensures forall i :: 0 <= i < me ==> out[i] == old(out)[i]
      ensures Partial(g, seen, g[id], k + 1, out[me]) && AllBelow(id, me)
      decreases g.Keys - seen.Keys, 3
    {
      ghost var seen0, out0 := seen, out;
      WalkChild(id, me, k);
      forall i | me < i < |out| ensures Done(i) && Reaches(g, Ref(id), origin[i]) {
        if i < |out0| {
          CopyStable(g, seen0, seen, g[origin[i]], out[i]);
        } else {
          ReachThroughChild(g, id, k, origin[i]);
        }
      }
    }

    /** `out.push(walk(item))`, or `out[k] = walk(val)`. */
    method WalkChild(id: nat, me: nat, k: nat)
      requires Closed(g) && Paired() && id in g && g[id].Plain? && me < |out| && origin[me] == id
      requires k < |g[id].children| && Partial(g, seen, g[id], k, out[me])
      modifies this
      ensures Paired() && |old(out)| <= |out| && old(origin) <= origin && Extended(old(seen), seen)
      ensures forall i :: 0 <= i < |old(out)| && i != me ==> out[i] == old(out)[i]
      ensures Partial(g, seen, g[id], k + 1, out[me])
      ensures forall i :: |old(out)| <= i < |out| ==> Done(i) && Reaches(g, g[id].children[k], origin[i])
      decreases g.Keys - seen.Keys, 2
    {
      var n := g[id];
      ghost var seen0 := seen;
      var r := Walk(n.children[k]);
      PartialStable(g, seen0, seen, n, k, out[me]);
      PartialNext(g, seen, n, k, out[me]);
      var c := out[me];
      out := out[me := Plain(c.isArray, if n.isArray then c.keys else c.keys + [n.keys[k]], c.children + [r])];
    }
  }

  // ---------------------------------------------------------------- the whole copy

  function AsGraph(out: seq<Node>): Graph { map i: nat | i < |out| :: out[i] }

  ghost predicate IsACopy(seen: map<nat, nat>, i: nat) { exists id :: id in seen && seen[id] == i }

  /** `seen` maps exactly the reachable plain nodes, one to one onto the copies, and every
      copy is a copy. */
  ghost predicate Scrubbed(g: Graph, v: Value, out: seq<Node>, r: Value, seen: map<nat, nat>) {
    Covered(g, seen, v) && r == Copy(g, seen, v) &&
    (forall id :: id in seen <==> id in g && g[id].Plain? && Reaches(g, v, id)) &&
    (forall id :: id in seen ==> seen[id] < |out| && CopyOf(g, seen, g[id], out[seen[id]])) &&
    (forall a, b :: a in seen && b in seen && seen[a] == seen[b] ==> a == b) &&
    (forall i :: 0 <= i < |out| ==> IsACopy(seen, i))
  }

  lemma {:induction false} EverythingReachedIsCovered(g: Graph, out: seq<Node>, seen: map<nat, nat>, v: Value, path: seq<nat>)
    requires Covered(g, seen, v)
    requires forall id :: id in seen ==> id in g && seen[id] < |out| && CopyOf(g, seen, g[id], out[seen[id]])
    ensures var w := Follow(g, v, path); w.Some? ==> Covered(g, seen, w.value)
    decreases |path|
  {
    if path != [] && Follow(g, v, path).Some? {
      EverythingReachedIsCovered(g, out, seen, g[v.id].children[path[0]], path[1..]);
    }
  }

  method ScrubSecrets(g: Graph, v: Value) returns (out: seq<Node>, r: Value, seen: map<nat, nat>)
    requires Closed(g) && Inside(g, v)
    ensures Scrubbed(g, v, out, r, seen)
  {
    var s := new Scrubber(g);
    r := s.Walk(v);
    out, seen := s.out, s.seen;
    forall id | id in g && g[id].Plain? && Reaches(g, v, id) ensures id in seen {
      var path :| Follow(g, v, path) == Some(Ref(id));
      EverythingReachedIsCovered(g, out, seen, v, path);
    }
    forall i | 0 <= i < |out| ensures IsACopy(seen, i) {
      assert s.origin[i] in seen;
    }
    forall id | id in seen ensures CopyOf(g, seen, g[id], out[seen[id]]) && Reaches(g, v, id) {
      assert s.Done(seen[id]);
    }
  }

  // ---------------------------------------------------------------- what a reader of the copy sees

  /** Every path means in the copy what it means in the input, copied: same members, same
      lengths, same back-edges; nothing below a key. */
  lemma {:induction false} PathsAgree(g: Graph, v: Value, out: seq<Node>, r: Value, seen: map<nat, nat>,
                                      from: Value, path: seq<nat>)
    requires Scrubbed(g, v, out, r, seen) && Covered(g, seen, from)
    ensures var w := Follow(g, from, path);
      (w.Some? ==> Covered(g, seen, w.value)) &&
      Follow(AsGraph(out), Copy(g, seen, from), path) == if w.Some? then Some(Copy(g, seen, w.value)) else None
    decreases |path|
  {
    if path != [] && from.Ref? && g[from.id].Plain? {
      var n, c := g[from.id], out[seen[from.id]];
      assert CopyOf(g, seen, n, c) && AsGraph(out)[seen[from.id]] == c;
      if path[0] < |n.children| {
        PathsAgree(g, v, out, r, seen, n.children[path[0]], path[1..]);
      }
    }
  }

  /** What a path leads to in the copy, by what it leads to in the input: text is scrubbed, a key is
      the marker, an array or object is one of the same kind, keys and length, and anything else is
      itself; a path that leads nowhere leads nowhere. */
  lemma {:induction false} PathsCarryValues(g: Graph, v: Value, out: seq<Node>, r: Value, seen: map<nat, nat>, path: seq<nat>)
    requires Scrubbed(g, v, out, r, seen)
    ensures var w, c := Follow(g, v, path), Follow(AsGraph(out), r, path);
      match w
      case None => c.None?
      case Some(Atom(a)) => c == Some(Atom(a))
      case Some(Text(s)) => c == Some(Text(ScrubString(s)))
      case Some(Ref(id)) =>
        id in g &&
        match g[id]
        case Branded => c == Some(Text("<redacted:relayer-key>"))
        case Plain(isArray, keys, children) =>
          c.Some? && c.value.Ref? && c.value.id < |out| && out[c.value.id].Plain? &&
          out[c.value.id].isArray == isArray && out[c.value.id].keys == keys && |out[c.value.id].children| == |children|
  {
    PathsAgree(g, v, out, r, seen, v, path);
    var w := Follow(g, v, path);
    if w.Some? && w.value.Ref? && g[w.value.id].Plain? {
      assert CopyOf(g, seen, g[w.value.id], out[seen[w.value.id]]);
    }
  }

  /** Two paths meet in the copy exactly when they meet in the input: sharing and cycles are kept. */
  lemma {:induction false} SharingIsKept(g: Graph, v: Value, out: seq<Node>, r: Value, seen: map<nat, nat>, p: seq<nat>, q: seq<nat>)
    requires Scrubbed(g, v, out, r, seen)
    requires var a, b := Follow(g, v, p), Follow(g, v, q);
      a.Some? && b.Some? && a.value.Ref? && b.value.Ref? && a.value.id in g && b.value.id in g &&
      g[a.value.id].Plain? && g[b.value.id].Plain?
    ensures Follow(g, v, p) == Follow(g, v, q) <==> Follow(AsGraph(out), r, p) == Follow(AsGraph(out), r, q)
  {
    PathsAgree(g, v, out, r, seen, v, p);
    PathsAgree(g, v, out, r, seen, v, q);
  }

  /** No key object and no 64-digit hex run can be reached in the copy. */
  lemma {:induction false} NoSecretIsReachable(g: Graph, v: Value, out: seq<Node>, r: Value, seen: map<nat, nat>, path: seq<nat>)
    requires Scrubbed(g, v, out, r, seen)
    ensures forall i :: 0 <= i < |out| ==> !out[i].Branded?
    ensures var w := Follow(AsGraph(out), r, path);
      w.Some? ==> (w.value.Text? ==> NoLongRun(w.value.s)) && (w.value.Ref? ==> w.value.id < |out|)
  {
    PathsAgree(g, v, out, r, seen, v, path);
    var w := Follow(g, v, path);
    if w.Some? && w.value.Text? {
      OutputHasNoLongRun(w.value.s);
    }
    forall i | 0 <= i < |out| ensures !out[i].Branded? {
      assert IsACopy(seen, i);
      var id :| id in seen && seen[id] == i;
      assert CopyOf(g, seen, g[id], out[i]);
    }
  }

  /** Scrubbing the scrubbed copy changes no string. */
  lemma {:induction false} ScrubbedStringsAreStable(g: Graph, v: Value, out: seq<Node>, r: Value, seen: map<nat, nat>, path: seq<nat>)
    requires Scrubbed(g, v, out, r, seen)
    ensures var w := Follow(AsGraph(out), r, path);
      w.Some? && w.value.Text? ==> ScrubString(w.value.s) == w.value.s
  {
    NoSecretIsReachable(g, v, out, r, seen, path);
    var w := Follow(AsGraph(out), r, path);
    if w.Some? && w.value.Text? {
      UnchangedWithoutLongRun(w.value.s);
    }
  }
}
