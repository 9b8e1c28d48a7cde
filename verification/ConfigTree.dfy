/** Loading a configuration tree (`config.cc`): flattening with pruning, then setting variables. */
module ConfigTree {

  /** A YAML node; keys and scalars are strings, the order of a map is the order of iteration. */
  datatype Node = Scalar(s: string) | Map(pairs: seq<Pair>) | Other(s: string)

  datatype Pair = Pair(key: string, node: Node)

  datatype Entry = Entry(path: string, node: Node)

  const ALLOWED: string := "abcdefghikjlmnopqrstuvwxyz._012345678"

  /** `prefix.find_first_not_of(...) == npos`. The digit 9 is not in the list. */
  predicate ValidPath(p: string) { forall i :: 0 <= i < |p| ==> Allowed(p[i]) }

  predicate Allowed(c: char) { c in ALLOWED }

  /** The path of a child. */
  function Join(prefix: string, key: string): string { if prefix == "" then key else prefix + "." + key }

  // ---------------------------------------------------------------- what the code does, and what it means

  /** The list ListAllMember appends: a subtree whose own path is invalid is cut off. */
  function Members(prefix: string, node: Node): seq<Entry>
    decreases node, 1
  {
    if !ValidPath(prefix) then []
    else [Entry(prefix, node)] + if node.Map? then MembersOf(prefix, node.pairs) else []
  }

  function MembersOf(prefix: string, pairs: seq<Pair>): seq<Entry>
    decreases pairs, 0
  {
    if pairs == [] then []
    else Members(Join(prefix, pairs[0].key), pairs[0].node) + MembersOf(prefix, pairs[1..])
  }

  /** Every node with its full path, parents first. */
  function Preorder(prefix: string, node: Node): seq<Entry>
    decreases node, 1
  {
    [Entry(prefix, node)] + if node.Map? then PreorderOf(prefix, node.pairs) else []
  }

  function PreorderOf(prefix: string, pairs: seq<Pair>): seq<Entry>
    decreases pairs, 0
  {
    if pairs == [] then []
    else Preorder(Join(prefix, pairs[0].key), pairs[0].node) + PreorderOf(prefix, pairs[1..])
  }

  /** Keep the entries whose own path is valid. */
  function Kept(es: seq<Entry>): seq<Entry> {
    if es == [] then [] else (if ValidPath(es[0].path) then [es[0]] else []) + Kept(es[1..])
  }

  // ---------------------------------------------------------------- pruning loses nothing

  lemma Assoc(xs: seq<Entry>, ys: seq<Entry>, zs: seq<Entry>)
    ensures xs + ys + zs == xs + (ys + zs)
  {
  }

  lemma {:induction false} KeptAppend(xs: seq<Entry>, ys: seq<Entry>)
    ensures Kept(xs + ys) == Kept(xs) + Kept(ys)
  {
    if xs == [] {
      assert xs + ys == ys;
    } else {
      assert (xs + ys)[1..] == xs[1..] + ys;
      KeptAppend(xs[1..], ys);
      Assoc(if ValidPath(xs[0].path) then [xs[0]] else [], Kept(xs[1..]), Kept(ys));
    }
  }

  lemma InvalidJoin(prefix: string, key: string)
    requires !ValidPath(prefix)
    ensures !ValidPath(Join(prefix, key))
  {
    var i :| 0 <= i < |prefix| && !Allowed(prefix[i]);
    assert Join(prefix, key)[i] == prefix[i];
  }

  lemma {:induction false} InvalidSubtree(prefix: string, node: Node)
    requires !ValidPath(prefix)
    ensures Kept(Preorder(prefix, node)) == []
    decreases node, 1
  {
    if node.Map? { InvalidSubtrees(prefix, node.pairs); }
    KeptAppend([Entry(prefix, node)], if node.Map? then PreorderOf(prefix, node.pairs) else []);
  }

  lemma {:induction false} InvalidSubtrees(prefix: string, pairs: seq<Pair>)
    requires !ValidPath(prefix)
    ensures Kept(PreorderOf(prefix, pairs)) == []
    decreases pairs, 0
  {
    if pairs != [] {
      var path := Join(prefix, pairs[0].key);
      InvalidJoin(prefix, pairs[0].key);
      InvalidSubtree(path, pairs[0].node);
      InvalidSubtrees(prefix, pairs[1..]);
      KeptAppend(Preorder(path, pairs[0].node), PreorderOf(prefix, pairs[1..]));
    }
  }

  /** Pruned flattening: cutting off a subtree at an invalid prefix never loses a valid entry. */
  lemma {:induction false} PruningLosesNothing(prefix: string, node: Node)
    ensures Members(prefix, node) == Kept(Preorder(prefix, node))
    decreases node, 1
  {
    if !ValidPath(prefix) {
      InvalidSubtree(prefix, node);
    } else {
      if node.Map? { PruningLosesNothingOf(prefix, node.pairs); }
      KeptAppend([Entry(prefix, node)], if node.Map? then PreorderOf(prefix, node.pairs) else []);
    }
  }

  lemma {:induction false} PruningLosesNothingOf(prefix: string, pairs: seq<Pair>)
    ensures MembersOf(prefix, pairs) == Kept(PreorderOf(prefix, pairs))
    decreases pairs, 0
  {
    if pairs != [] {
      var path := Join(prefix, pairs[0].key);
      PruningLosesNothing(path, pairs[0].node);
      PruningLosesNothingOf(prefix, pairs[1..]);
      KeptAppend(Preorder(path, pairs[0].node), PreorderOf(prefix, pairs[1..]));
    }
  }

  /** The shared list of the recursion. */
  class Output {
    var entries: seq<Entry>

    constructor ()
      ensures entries == []
    {
      entries := [];
    }
  }

  lemma MembersOfNext(done: seq<Entry>, prefix: string, pairs: seq<Pair>, i: nat)
    requires i < |pairs|
    ensures done + MembersOf(prefix, pairs[i..])
         == done + Members(Join(prefix, pairs[i].key), pairs[i].node) + MembersOf(prefix, pairs[i+1..])
  {
    assert pairs[i..][1..] == pairs[i+1..];
  }

  /** ListAllMember. */
  method ListAllMember(prefix: string, node: Node, output: Output)
    modifies output
    ensures output.entries == old(output.entries) + Members(prefix, node)
    decreases node, 1
  {
    if !ValidPath(prefix) {
      return;
    }
    ghost var start := output.entries;
    output.entries := output.entries + [Entry(prefix, node)];
    if node.Map? {
      ListChildren(prefix, node.pairs, output);
      Assoc(start, [Entry(prefix, node)], MembersOf(prefix, node.pairs));
    }
  }

  /** The loop over the children of one node. */
  method ListChildren(prefix: string, pairs: seq<Pair>, output: Output)
    modifies output
    ensures output.entries == old(output.entries) + MembersOf(prefix, pairs)
    decreases pairs, 0
  {
    ghost var goal := output.entries + MembersOf(prefix, pairs);
    assert pairs[0..] == pairs;
    for i := 0 to |pairs|
      invariant output.entries + MembersOf(prefix, pairs[i..]) == goal
    {
      MembersOfNext(output.entries, prefix, pairs, i);
      ListAllMember(Join(prefix, pairs[i].key), pairs[i].node, output);
    }
  }

  // ---------------------------------------------------------------- LoadFromYaml

  function Lower(c: char): char { if 'A' <= c <= 'Z' then c - 'A' + 'a' else c }

  function ToLower(s: string): string { seq(|s|, i requires 0 <= i < |s| => Lower(s[i])) }

  /** What a variable was last given to parse: its default, a scalar's text, or the node written out. */
  datatype Assigned = Default(s: string) | FromScalar(s: string) | FromDump(node: Node)

  function ValueOf(node: Node): Assigned { if node.Scalar? then FromScalar(node.s) else FromDump(node) }

  /** The last node listed under a name, if any. */
  function LastFor(es: seq<Entry>, name: string): (r: int)
    ensures -1 <= r < |es|
    ensures r >= 0 ==> es[r].path == name
    ensures forall i :: r < i < |es| ==> es[i].path != name
  {
    if es == [] then -1
    else if es[|es|-1].path == name then |es| - 1 else LastFor(es[..|es|-1], name)
  }

  /** What variable `name` is told after the listed nodes: the last one of its name, else what it had. */
  function Told(es: seq<Entry>, name: string, before: Assigned): Assigned {
    var r := if name == "" then -1 else LastFor(es, name);
    if r >= 0 then ValueOf(es[r].node) else before
  }

  lemma ToldNext(es: seq<Entry>, i: nat, name: string, before: Assigned)
    requires i < |es|
    ensures Told(es[..i+1], name, before)
         == if name != "" && es[i].path == name then ValueOf(es[i].node) else Told(es[..i], name, before)
  {
    assert es[..i+1][..i] == es[..i];
  }

  /** A registered variable: the name of its type, which stays, and what it was last told to parse. */
  datatype Var = Var(kind: string, told: Assigned)

  /** What Lookup with a default comes to: the variable that was there, null for one of another type,
      a new one, or invalid_argument. */
  datatype Found = Existing | OtherType | Created | InvalidArgument

  /** The registered variables, by name. */
  class Config {
    var vars: map<string, Var>

    /** No variable has a name with a character that is not on the list. */
    ghost predicate Valid()
      reads this
    {
      forall name :: name in vars ==> ValidPath(name)
    }

    constructor ()
      ensures Valid() && vars == map[]
    {
      vars := map[];
    }

    /** Lookup of a variable of type `kind` with a default: a registered name has to have that type, and one that
        is not registered yet has to be valid. */
    method Lookup(name: string, kind: string, default: string) returns (found: Found)
      requires Valid()
      modifies this
      ensures Valid()
      ensures found.Existing? <==> name in old(vars) && old(vars)[name].kind == kind
      ensures found.OtherType? <==> name in old(vars) && old(vars)[name].kind != kind
      ensures found.InvalidArgument? <==> !ValidPath(name)
      ensures vars == if found.Created? then old(vars)[name := Var(kind, Default(default))] else old(vars)
    {
      if name in vars {
        return if vars[name].kind == kind then Existing else OtherType;
      }
      if !ValidPath(name) {
        return InvalidArgument;
      }
      vars := vars[name := Var(kind, Default(default))];
      return Created;
    }

    /** LoadFromYaml: every registered variable takes the last valid node of its name, in tree order; the
        others keep what they had. */
    method LoadFromYaml(root: Node)
      requires Valid()
      modifies this
      ensures Valid() && vars.Keys == old(vars).Keys
      ensures forall name :: name in vars ==> vars[name].kind == old(vars)[name].kind
      ensures forall name :: name in vars ==>
                vars[name].told == Told(Kept(Preorder("", root)), name, old(vars)[name].told)
    {
      var output := new Output();
      ListAllMember("", root, output);
      PruningLosesNothing("", root);
      assert output.entries == Kept(Preorder("", root));
      forall i: nat | i < |output.entries| ensures ValidPath(output.entries[i].path) {
        ValidAt(Preorder("", root), i);
      }
      LoadAll(output.entries);
    }

    /** The loop over the flattened list. */
    method LoadAll(es: seq<Entry>)
      requires forall i :: 0 <= i < |es| ==> ValidPath(es[i].path)
      modifies this
      ensures vars.Keys == old(vars).Keys
      ensures forall name :: name in vars ==> vars[name].kind == old(vars)[name].kind
      ensures forall name :: name in vars ==> vars[name].told == Told(es, name, old(vars)[name].told)
    {
      for i := 0 to |es|
        invariant vars.Keys == old(vars).Keys
        invariant forall name :: name in vars ==> vars[name].kind == old(vars)[name].kind
        invariant forall name :: name in vars ==> vars[name].told == Told(es[..i], name, old(vars)[name].told)
      {
        forall name: string, before: Assigned
          ensures Told(es[..i+1], name, before)
               == if name != "" && es[i].path == name then ValueOf(es[i].node) else Told(es[..i], name, before)
        {
          ToldNext(es, i, name, before);
        }
        LoadOne(es[i]);
      }
      assert es[..|es|] == es;
    }

    /** The loop body: a nonempty name is looked up in lower case, and set if registered. */
    method LoadOne(e: Entry)
      requires ValidPath(e.path)
      modifies this
      ensures vars.Keys == old(vars).Keys
      ensures forall name :: name in vars ==>
                vars[name] == if name != "" && e.path == name then old(vars)[name].(told := ValueOf(e.node))
                              else old(vars)[name]
    {
      if e.path == "" {
        return;
      }
      LowerOfValid(e.path);
      var key := ToLower(e.path);
      if key in vars {
        vars := vars[key := vars[key].(told := ValueOf(e.node))];
      }
    }
  }

  lemma {:induction false} ValidAt(es: seq<Entry>, i: nat)
    requires i < |Kept(es)|
    ensures ValidPath(Kept(es)[i].path)
  {
    if es != [] {
      var n := if ValidPath(es[0].path) then 1 else 0;
      if i >= n { ValidAt(es[1..], i - n); }
    }
  }

  lemma AllowedIsLower(c: char)
    requires Allowed(c)
    ensures Lower(c) == c
  {
    assert forall i :: 0 <= i < |ALLOWED| ==> Lower(ALLOWED[i]) == ALLOWED[i];
  }

  /** A valid path is in lower case already. */
  lemma LowerOfValid(p: string)
    requires ValidPath(p)
    ensures ToLower(p) == p
  {
    forall i | 0 <= i < |p| ensures Lower(p[i]) == p[i] { AllowedIsLower(p[i]); }
  }

  // ---------------------------------------------------------------- keys that are not allowed

  lemma ValidAppend(p: string, q: string)
    ensures ValidPath(p + q) <==> ValidPath(p) && ValidPath(q)
  {
    assert forall i :: 0 <= i < |p| ==> (p + q)[i] == p[i];
    assert forall i :: 0 <= i < |q| ==> (p + q)[|p| + i] == q[i];
  }

  lemma ValidJoin(prefix: string, key: string)
    ensures ValidPath(Join(prefix, key)) <==> ValidPath(prefix) && ValidPath(key)
  {
    assert ALLOWED[26] == '.';
    ValidAppend(prefix, ".");
    ValidAppend(prefix + ".", key);
  }

  /** A key that is not allowed loses its whole subtree, and only such a key does: nothing under it is listed,
      whatever it holds, and it may as well not be there. */
  lemma SubtreeLostExactly(prefix: string, pairs: seq<Pair>, i: nat)
    requires i < |pairs| && ValidPath(prefix)
    ensures Members(Join(prefix, pairs[i].key), pairs[i].node) == [] <==> !ValidPath(pairs[i].key)
    ensures MembersOf(prefix, pairs) == MembersOf(prefix, pairs[..i] + pairs[i+1..]) <==> !ValidPath(pairs[i].key)
  {
    var key := Join(prefix, pairs[i].key);
    ValidJoin(prefix, pairs[i].key);
    SplitAt(prefix, pairs, i);
    MembersAppend(prefix, pairs[..i], pairs[i+1..]);
    SameWithout(MembersOf(prefix, pairs[..i]), Members(key, pairs[i].node), MembersOf(prefix, pairs[i+1..]));
  }

  lemma SplitAt(prefix: string, pairs: seq<Pair>, i: nat)
    requires i < |pairs|
    ensures MembersOf(prefix, pairs) == MembersOf(prefix, pairs[..i])
              + (Members(Join(prefix, pairs[i].key), pairs[i].node) + MembersOf(prefix, pairs[i+1..]))
  {
    assert pairs == pairs[..i] + pairs[i..];
    assert pairs[i..][1..] == pairs[i+1..];
    MembersAppend(prefix, pairs[..i], pairs[i..]);
  }

  lemma SameWithout(xs: seq<Entry>, ys: seq<Entry>, zs: seq<Entry>)
    ensures xs + (ys + zs) == xs + zs <==> ys == []
  {
    if ys == [] {
      assert ys + zs == zs;
    } else {
      assert |xs + (ys + zs)| == |xs + zs| + |ys|;
    }
  }

  lemma {:induction false} MembersAppend(prefix: string, xs: seq<Pair>, ys: seq<Pair>)
    ensures MembersOf(prefix, xs + ys) == MembersOf(prefix, xs) + MembersOf(prefix, ys)
    decreases |xs|
  {
    if xs == [] {
      assert xs + ys == ys;
    } else {
      assert (xs + ys)[1..] == xs[1..] + ys;
      MembersAppend(prefix, xs[1..], ys);
      Assoc(Members(Join(prefix, xs[0].key), xs[0].node), MembersOf(prefix, xs[1..]), MembersOf(prefix, ys));
    }
  }

  /** The characters on the list. */
  lemma AllowedExactly(c: char)
    ensures Allowed(c) <==> 'a' <= c <= 'z' || c == '.' || c == '_' || '0' <= c <= '8'
  {
    if 'a' <= c <= 'z' || c == '.' || c == '_' || '0' <= c <= '8' {
      var i := if c == '.' then 26 else if c == '_' then 27 else if c <= '8' then 28 + (c - '0') as int
               else if c == 'k' then 9 else if c == 'j' then 10 else (c - 'a') as int;
      assert ALLOWED[i] == c;
    }
    assert forall i :: 0 <= i < |ALLOWED| ==>
             'a' <= ALLOWED[i] <= 'z' || ALLOWED[i] == '.' || ALLOWED[i] == '_' || '0' <= ALLOWED[i] <= '8';
  }

  /** A key with a capital letter or a 9 is not allowed. */
  lemma NotAllowed(key: string, i: nat)
    requires i < |key| && (key[i] == '9' || 'A' <= key[i] <= 'Z')
    ensures !ValidPath(key)
  {
    assert forall j :: 0 <= j < |ALLOWED| ==> ALLOWED[j] != '9' && !('A' <= ALLOWED[j] <= 'Z');
    assert !Allowed(key[i]);
  }
}
