/** Under which names a loaded configuration tree reaches the variables, told by the keys that lead to a node. */
module ConfigPaths {
  import opened ConfigTree

  // ---------------------------------------------------------------- paths and their parts

  /** What stands between the dots. */
  function Parts(p: string): (ps: seq<string>)
    ensures |ps| > 0
  {
    if p == "" then [""]
    else
      var ps := Parts(p[1..]);
      if p[0] == '.' then [""] + ps else [[p[0]] + ps[0]] + ps[1..]
  }

  function KeysOf(path: string): seq<string> { if path == "" then [] else Parts(path) }

  lemma {:induction false} PartsDot(p: string, q: string)
    ensures Parts(p + "." + q) == Parts(p) + Parts(q)
  {
    if p == "" {
      assert p + "." + q == "." + q && ("." + q)[1..] == q;
    } else {
      PartsDot(p[1..], q);
      PartsFirst(p, p + "." + q, p[1..] + "." + q, Parts(q));
    }
  }

  lemma PartsFirst(p: string, pq: string, rest: string, tail: seq<string>)
    requires p != "" && pq != "" && pq[0] == p[0] && pq[1..] == rest && Parts(rest) == Parts(p[1..]) + tail
    ensures Parts(pq) == Parts(p) + tail
  {
  }

  lemma {:induction false} PartsInjective(p: string, q: string)
    requires Parts(p) == Parts(q)
    ensures p == q
    decreases |p|
  {
    if p != "" && q != "" {
      assert Parts(p)[0] == Parts(q)[0] && Parts(p)[1..] == Parts(q)[1..];
      if p[0] != '.' && q[0] != '.' {
        assert Parts(p)[0][1..] == Parts(p[1..])[0] && Parts(q)[0][1..] == Parts(q[1..])[0];
        assert Parts(p[1..]) == [Parts(p[1..])[0]] + Parts(p[1..])[1..];
        assert Parts(q[1..]) == [Parts(q[1..])[0]] + Parts(q[1..])[1..];
      }
      PartsInjective(p[1..], q[1..]);
      assert p == [p[0]] + p[1..] && q == [q[0]] + q[1..];
    }
  }

  lemma KeysInjective(p: string, q: string)
    requires KeysOf(p) == KeysOf(q)
    ensures p == q
  {
    if p != "" && q != "" { PartsInjective(p, q); }
  }

  lemma {:induction false} PartsPlain(k: string)
    requires '.' !in k
    ensures Parts(k) == [k]
  {
    if k != "" {
      PartsPlain(k[1..]);
      assert k == [k[0]] + k[1..];
    }
  }

  // ---------------------------------------------------------------- keys

  /** The keys lead from `node` to `n`. */
  ghost predicate Reaches(node: Node, ks: seq<string>, n: Node)
    decreases |ks|
  {
    if ks == [] then n == node
    else node.Map? && exists i :: 0 <= i < |node.pairs| && Leads(node.pairs[i], ks, n)
  }

  ghost predicate Leads(p: Pair, ks: seq<string>, n: Node)
    requires ks != []
    decreases |ks|, 0
  {
    p.key == ks[0] && Reaches(p.node, ks[1..], n)
  }

  /** The parts of all keys, one after the other. */
  function Flat(ks: seq<string>): seq<string> { if ks == [] then [] else Parts(ks[0]) + Flat(ks[1..]) }

  /** Empty keys at the start leave no trace. */
  function Trim(ks: seq<string>): seq<string> { if ks != [] && ks[0] == "" then Trim(ks[1..]) else ks }

  predicate Plain(ks: seq<string>) { forall i :: 0 <= i < |ks| ==> ks[i] != "" && '.' !in ks[i] }

  lemma {:induction false} PlainFlat(ks: seq<string>)
    requires Plain(ks)
    ensures Trim(ks) == ks && Flat(ks) == ks
  {
    if ks != [] {
      PartsPlain(ks[0]);
      PlainFlat(ks[1..]);
    }
  }

  /** The parts of the path of the node that `ks` lead to, from a node with path `prefix`. */
  function Under(prefix: string, ks: seq<string>): seq<string> {
    if prefix == "" then Flat(Trim(ks)) else Parts(prefix) + Flat(ks)
  }

  lemma UnderJoin(prefix: string, ks: seq<string>)
    requires ks != []
    ensures Under(Join(prefix, ks[0]), ks[1..]) == Under(prefix, ks)
  {
    if prefix != "" { PartsDot(prefix, ks[0]); }
  }

  // ---------------------------------------------------------------- what is listed

  lemma {:induction false} PreorderOfAt(prefix: string, pairs: seq<Pair>, e: Entry)
    ensures e in PreorderOf(prefix, pairs)
       <==> exists i :: 0 <= i < |pairs| && e in Preorder(Join(prefix, pairs[i].key), pairs[i].node)
    decreases |pairs|
  {
    if pairs != [] {
      PreorderOfAt(prefix, pairs[1..], e);
      if i :| 0 <= i < |pairs| && e in Preorder(Join(prefix, pairs[i].key), pairs[i].node) {
        if i > 0 { assert pairs[1..][i-1] == pairs[i]; }
      }
      if e in PreorderOf(prefix, pairs[1..]) {
        var i :| 0 <= i < |pairs[1..]| && e in Preorder(Join(prefix, pairs[1..][i].key), pairs[1..][i].node);
        assert pairs[i+1] == pairs[1..][i];
      }
    }
  }

  /** Every entry is that of some node, */
  lemma {:induction false} ListedReaches(prefix: string, node: Node, e: Entry) returns (ks: seq<string>)
    requires e in Preorder(prefix, node)
    ensures Reaches(node, ks, e.node) && KeysOf(e.path) == Under(prefix, ks)
    decreases node
  {
    if e == Entry(prefix, node) {
      ks := [];
    } else {
      PreorderOfAt(prefix, node.pairs, e);
      var i :| 0 <= i < |node.pairs| && e in Preorder(Join(prefix, node.pairs[i].key), node.pairs[i].node);
      var p := node.pairs[i];
      var rest := ListedReaches(Join(prefix, p.key), p.node, e);
      ks := [p.key] + rest;
      assert ks[1..] == rest && Leads(p, ks, e.node);
      UnderJoin(prefix, ks);
    }
  }

  /** and every node has its entry. */
  lemma {:induction false} ReachedIsListed(prefix: string, node: Node, ks: seq<string>, e: Entry)
    requires Reaches(node, ks, e.node) && KeysOf(e.path) == Under(prefix, ks)
    ensures e in Preorder(prefix, node)
    decreases |ks|
  {
    if ks == [] {
      KeysInjective(e.path, prefix);
    } else {
      var i :| 0 <= i < |node.pairs| && Leads(node.pairs[i], ks, e.node);
      UnderJoin(prefix, ks);
      ReachedIsListed(Join(prefix, ks[0]), node.pairs[i].node, ks[1..], e);
      PreorderOfAt(prefix, node.pairs, e);
    }
  }

  /** Some keys lead to `n`, and the path is made of their parts. */
  ghost predicate Named(root: Node, path: string, n: Node) {
    exists ks :: Reaches(root, ks, n) && KeysOf(path) == Flat(Trim(ks))
  }

  lemma {:induction false} KeptMember(es: seq<Entry>, e: Entry)
    ensures e in Kept(es) <==> e in es && ValidPath(e.path)
  {
    if es != [] { KeptMember(es[1..], e); }
  }

  /** What ListAllMember lists, for any tree: a node under a path exactly if the path is valid and consists of the
      dot-separated parts of the keys that lead there, empty keys at the start left out. */
  lemma ListedExactly(root: Node, path: string, n: Node)
    ensures Entry(path, n) in Members("", root) <==> ValidPath(path) && Named(root, path, n)
  {
    var e := Entry(path, n);
    PruningLosesNothing("", root);
    KeptMember(Preorder("", root), e);
    if e in Preorder("", root) { var ks := ListedReaches("", root, e); }
    if Named(root, path, n) {
      var ks :| Reaches(root, ks, n) && KeysOf(path) == Flat(Trim(ks));
      ReachedIsListed("", root, ks, e);
    }
  }

  /** With keys that are neither empty nor hold a dot the parts are the keys: different ways have different paths. */
  lemma PlainKeys(root: Node, ks: seq<string>, n: Node, path: string)
    requires Reaches(root, ks, n) && Plain(ks) && KeysOf(path) == ks && ValidPath(path)
    ensures Entry(path, n) in Members("", root)
    ensures forall other :: KeysOf(other) == ks ==> other == path
  {
    PlainFlat(ks);
    ListedExactly(root, path, n);
    forall other | KeysOf(other) == ks ensures other == path { KeysInjective(other, path); }
  }

  /** What LoadFromYaml tells a variable: nothing if no keys lead to its name; else the text of the scalar, or the
      dump of the node, that they lead to -- of one of them, if there are several. */
  lemma ToldExactly(root: Node, name: string, before: Assigned) returns (n: Node)
    ensures var t := Told(Kept(Preorder("", root)), name, before);
            if name != "" && ValidPath(name) && exists x :: Named(root, name, x)
            then Named(root, name, n) && t == (if n.Scalar? then FromScalar(n.s) else FromDump(n))
            else t == before
  {
    var es := Kept(Preorder("", root));
    PruningLosesNothing("", root);
    var r := LastFor(es, name);
    n := if r >= 0 then es[r].node else root;
    if r >= 0 {
      assert es[r] == Entry(name, n) && es[r] in es;
      ListedExactly(root, name, n);
    }
    if x :| Named(root, name, x) {
      ListedExactly(root, name, x);
      assert ValidPath(name) ==> Entry(name, x) in es;
    }
  }

  /** Every key is plain, and no map has one twice. */
  ghost predicate Tidy(node: Node) {
    node.Map? ==>
      && (forall i :: 0 <= i < |node.pairs| ==> Plain([node.pairs[i].key]) && Tidy(node.pairs[i].node))
      && (forall i, j :: 0 <= i < j < |node.pairs| ==> node.pairs[i].key != node.pairs[j].key)
  }

  lemma {:induction false} TidyPlain(node: Node, ks: seq<string>, n: Node)
    requires Tidy(node) && Reaches(node, ks, n)
    ensures Plain(ks)
    decreases |ks|
  {
    if ks != [] {
      var i :| 0 <= i < |node.pairs| && Leads(node.pairs[i], ks, n);
      TidyPlain(node.pairs[i].node, ks[1..], n);
      assert [node.pairs[i].key][0] == ks[0];
    }
  }

  lemma {:induction false} TidyOne(node: Node, ks: seq<string>, n: Node, x: Node)
    requires Tidy(node) && Reaches(node, ks, n) && Reaches(node, ks, x)
    ensures n == x
    decreases |ks|
  {
    if ks != [] {
      var i :| 0 <= i < |node.pairs| && Leads(node.pairs[i], ks, n);
      var j :| 0 <= j < |node.pairs| && Leads(node.pairs[j], ks, x);
      assert i == j;
      TidyOne(node.pairs[i].node, ks[1..], n, x);
    }
  }

  /** In a tidy tree the variable whose name consists of the keys is told what stands under them. */
  lemma ToldAtKeys(root: Node, ks: seq<string>, name: string, n: Node, before: Assigned)
    requires Tidy(root) && Reaches(root, ks, n) && ks != [] && KeysOf(name) == ks && ValidPath(name)
    ensures Told(Kept(Preorder("", root)), name, before) == if n.Scalar? then FromScalar(n.s) else FromDump(n)
  {
    TidyPlain(root, ks, n);
    PlainFlat(ks);
    assert Named(root, name, n);
    var m := ToldExactly(root, name, before);
    var ks' :| Reaches(root, ks', m) && KeysOf(name) == Flat(Trim(ks'));
    TidyPlain(root, ks', m);
    PlainFlat(ks');
    TidyOne(root, ks, n, m);
  }

  /** For two of them that is `k1.k2`. */
  lemma TwoKeys(k1: string, k2: string)
    requires Plain([k1, k2])
    ensures KeysOf(k1 + "." + k2) == [k1, k2] && (ValidPath(k1 + "." + k2) <==> ValidPath(k1) && ValidPath(k2))
  {
    assert '.' !in [k1, k2][0] && '.' !in [k1, k2][1];
    PartsDot(k1, k2);
    PartsPlain(k1);
    PartsPlain(k2);
    DottedValid(k1, k2);
  }

  lemma DottedValid(p: string, q: string)
    ensures ValidPath(p + "." + q) <==> ValidPath(p) && ValidPath(q)
  {
    assert ALLOWED[26] == '.';
    ValidAppend(p, ".");
    ValidAppend(p + ".", q);
  }
}
