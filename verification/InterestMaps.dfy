// The interest map with its trie of nodes in the heap, changed in place.

module InterestMaps {
  import opened Messages
  import opened Segments
  import opened Tries

  class TrieNode {
    var value: set<EndpointAddr>
    var children: map<Bytes, TrieNode>
    var anyChild: TrieNode?
    var recursiveAnyChild: TrieNode?
    // The nodes of the tree below and including this one, and the tree as a value.
    ghost var repr: set<TrieNode>
    ghost var view: Trie

    function ChildNode(pat: Pattern): TrieNode?
      reads this
    {
      match pat
      case Specific(seg) => if seg in children then children[seg] else null
      case Any => anyChild
      case RecursiveAny => recursiveAnyChild
    }

    // The child is the root of a tree of its own.
    ghost predicate Owns(pat: Pattern)
      requires ChildNode(pat) != null
      reads this, repr
      decreases repr, 0
    {
      var child := ChildNode(pat);
      && this in repr && child in repr && child in child.repr && child.repr <= repr - {this}
      && child.Valid() && view.Child(pat) == Some(child.view)
    }

    ghost predicate ValidBut(skip: set<Pattern>)
      reads this, repr
      decreases repr, 1
    {
      && this in repr
      && view.value == value
      && (forall pat :: pat !in skip && ChildNode(pat) == null ==> view.Child(pat).None?)
      && (forall pat :: pat !in skip && ChildNode(pat) != null ==> Owns(pat))
      && (forall p, q :: p !in skip && q !in skip && p != q && ChildNode(p) != null && ChildNode(q) != null ==>
            ChildNode(p).repr !! ChildNode(q).repr)
    }

    ghost predicate Valid()
      reads this, repr
      decreases repr, 2
    {
      ValidBut({})
    }

    constructor ()
      ensures Valid() && fresh(repr) && view == EmptyTrie
    {
      value, children, anyChild, recursiveAnyChild := {}, map[], null, null;
      repr, view := {this}, EmptyTrie;
    }

    // A tree of its own for one of the children.
    ghost method Adopt(pat: Pattern)
      requires ValidBut({pat}) && ChildNode(pat) != null
      requires ChildNode(pat).Valid() && this !in ChildNode(pat).repr && ChildNode(pat) in ChildNode(pat).repr
      requires forall p :: p != pat && ChildNode(p) != null ==> ChildNode(p).repr !! ChildNode(pat).repr
      modifies `repr, `view
      ensures Valid() && repr == old(repr) + ChildNode(pat).repr && view == old(view).WithChild(pat, ChildNode(pat).view)
    {
      repr := repr + ChildNode(pat).repr;
      view := view.WithChild(pat, ChildNode(pat).view);
      forall p | ChildNode(p) != null ensures Owns(p) {
        if p != pat {
          assert old(Owns(p)) && old(ChildNode(p)) == ChildNode(p);
          assert ChildNode(p).Valid();
        }
      }
    }

    method GetOrInsert(pat: Pattern) returns (child: TrieNode)
      requires Valid()
      modifies this
      ensures Valid() && fresh(repr - old(repr))
      ensures child == ChildNode(pat) && view == old(view).WithChild(pat, old(view).ChildOrEmpty(pat))
    {
      if ChildNode(pat) != null {
        child := ChildNode(pat);
        assert Owns(pat);
        assert view == view.WithChild(pat, child.view);
        return;
      }
      child := new TrieNode();
      match pat {
        case Specific(seg) => children := children[seg := child];
        case Any => anyChild := child;
        case RecursiveAny => recursiveAnyChild := child;
      }
      forall p | p != pat ensures ChildNode(p) == old(ChildNode(p)) {
      }
      forall p | p != pat && ChildNode(p) != null ensures Owns(p) {
        assert old(Owns(p));
      }
      assert ValidBut({pat});
      Adopt(pat);
    }

    method InsertRecursive(path: seq<Pattern>, v: EndpointAddr)
      requires Valid()
      modifies repr
      ensures Valid() && fresh(repr - old(repr)) && view == old(view).Insert(path, v)
      decreases |path|, 1
    {
      if path == [] {
        value := value + {v};
        view := view.(value := value);
        forall p | ChildNode(p) != null ensures Owns(p) {
          assert old(ChildNode(p)) == ChildNode(p) && old(Owns(p));
        }
        return;
      }
      var child := GetOrInsert(path[0]);
      InsertBelow(path[0], child, path[1..], v);
    }

    method InsertBelow(pat: Pattern, child: TrieNode, rest: seq<Pattern>, v: EndpointAddr)
      requires Valid() && child == ChildNode(pat)
      modifies repr
      ensures Valid() && fresh(repr - old(repr))
      ensures old(view).Child(pat).Some? && view == old(view).WithChild(pat, old(view).Child(pat).value.Insert(rest, v))
      decreases |rest| + 1, 0
    {
      assert Owns(pat);
      child.InsertRecursive(rest, v);
      forall p | p != pat && ChildNode(p) != null
        ensures Owns(p) && ChildNode(p).repr == old(ChildNode(p).repr) && ChildNode(p).repr !! child.repr
      {
        assert old(Owns(p)) && unchanged(ChildNode(p));
      }
      Adopt(pat);
    }

    method DeleteRecursive(path: seq<Pattern>, v: EndpointAddr)
      requires Valid()
      modifies repr
      ensures Valid() && repr == old(repr) && view == old(view).Delete(path, v)
      decreases |path|, 1
    {
      if path == [] {
        value := value - {v};
        view := view.(value := value);
        forall p | ChildNode(p) != null ensures Owns(p) {
          assert old(ChildNode(p)) == ChildNode(p) && old(Owns(p));
        }
        return;
      }
      var child := ChildNode(path[0]);
      if child != null {
        assert Owns(path[0]);
        DeleteBelow(path[0], child, path[1..], v);
      }
    }

    method DeleteBelow(pat: Pattern, child: TrieNode, rest: seq<Pattern>, v: EndpointAddr)
      requires Valid() && child == ChildNode(pat)
      modifies repr
      ensures Valid() && repr == old(repr)
      ensures old(view).Child(pat).Some? && view == old(view).WithChild(pat, old(view).Child(pat).value.Delete(rest, v))
      decreases |rest| + 1, 0
    {
      assert Owns(pat);
      child.DeleteRecursive(rest, v);
      forall p | p != pat && ChildNode(p) != null
        ensures Owns(p) && ChildNode(p).repr == old(ChildNode(p).repr) && ChildNode(p).repr !! child.repr
      {
        assert old(Owns(p)) && unchanged(ChildNode(p));
      }
      Adopt(pat);
    }

    // What is found is added to `collector`. The loop tries the literal children of the `**` child at
    // every later position.
    method FindAllRecursive(path: seq<Bytes>, collector: set<EndpointAddr>) returns (found: set<EndpointAddr>)
      requires Valid()
      ensures found == collector + view.Find(path)
      decreases |path|
    {
      hide Trie.Find, Trie.FindBelow, Trie.Child;
      found := collector;
      if path == [] {
        FindHere(view);
        found := found + value;
        return;
      }
      FindParts(view, path);
      if recursiveAnyChild != null {
        var rac := recursiveAnyChild;
        assert Owns(RecursiveAny) && ChildNode(RecursiveAny) == rac;
        assert rac.Valid() && rac.ValidBut({});
        found := found + rac.value;
        var rest := path[1..];
        while rest != []
          invariant |rest| < |path| && rac.ValidBut({})
          invariant found + Trie.FindBelow(rac.view, rest) ==
                    collector + rac.view.value + Trie.FindBelow(rac.view, path[1..])
          decreases |rest|
        {
          var seg := rest[0];
          FindBelowParts(rac.view, rest);
          rest := rest[1..];
          if seg in rac.children {
            assert rac.ChildNode(Specific(seg)) != null && rac.Owns(Specific(seg));
            found := rac.children[seg].FindAllRecursive(rest, found);
          } else {
            assert rac.view.Child(Specific(seg)).None?;
          }
        }
        FindBelowNone(rac.view);
      } else {
        assert view.Child(RecursiveAny).None?;
      }
      if anyChild != null {
        assert Owns(Any) && ChildNode(Any) == anyChild;
        found := anyChild.FindAllRecursive(path[1..], found);
      } else {
        assert view.Child(Any).None?;
      }
      if path[0] in children {
        assert ChildNode(Specific(path[0])) != null && Owns(Specific(path[0]));
        found := children[path[0]].FindAllRecursive(path[1..], found);
      } else {
        assert view.Child(Specific(path[0])).None?;
      }
    }
  }

  // What the search finds under a child.
  function Under(t: Trie, pat: Pattern, rest: seq<Bytes>): set<EndpointAddr> {
    if t.Child(pat).Some? then t.Child(pat).value.Find(rest) else {}
  }

  lemma FindHere(t: Trie)
    ensures t.Find([]) == t.value
  {
  }

  lemma FindParts(t: Trie, path: seq<Bytes>)
    requires path != []
    ensures t.Find(path) ==
            (if t.Child(RecursiveAny).Some?
             then t.Child(RecursiveAny).value.value + Trie.FindBelow(t.Child(RecursiveAny).value, path[1..]) else {})
            + Under(t, Any, path[1..]) + Under(t, Specific(path[0]), path[1..])
  {
  }

  lemma FindBelowNone(t: Trie)
    ensures Trie.FindBelow(t, []) == {}
  {
  }

  lemma FindBelowParts(t: Trie, rest: seq<Bytes>)
    requires rest != []
    ensures Trie.FindBelow(t, rest) == Under(t, Specific(rest[0]), rest[1..]) + Trie.FindBelow(t, rest[1..])
  {
  }

  // ----- The order of a hash walk does not matter -----

  lemma SetChildTwice(t: Trie, p: Pattern, a: Trie, q: Pattern, b: Trie)
    ensures p != q ==> t.WithChild(p, a).WithChild(q, b) == t.WithChild(q, b).WithChild(p, a)
    ensures t.WithChild(p, a).WithChild(p, b) == t.WithChild(p, b)
  {
  }

  lemma {:induction false} InsertsCommute(t: Trie, p: seq<Pattern>, v: EndpointAddr, q: seq<Pattern>, w: EndpointAddr)
    ensures t.Insert(p, v).Insert(q, w) == t.Insert(q, w).Insert(p, v)
    decreases |p|
  {
    if p == [] {
      assert {v} + {w} == {w} + {v};
    } else if q != [] {
      if p[0] == q[0] {
        var c := t.ChildOrEmpty(p[0]);
        InsertsCommute(c, p[1..], v, q[1..], w);
        SetChildTwice(t, p[0], c.Insert(p[1..], v), p[0], c.Insert(p[1..], v).Insert(q[1..], w));
        SetChildTwice(t, p[0], c.Insert(q[1..], w), p[0], c.Insert(q[1..], w).Insert(p[1..], v));
      } else {
        SetChildTwice(t, p[0], t.ChildOrEmpty(p[0]).Insert(p[1..], v), q[0], t.ChildOrEmpty(q[0]).Insert(q[1..], w));
      }
    }
  }

  lemma {:induction false} DeletesCommute(t: Trie, p: seq<Pattern>, v: EndpointAddr, q: seq<Pattern>, w: EndpointAddr)
    ensures t.Delete(p, v).Delete(q, w) == t.Delete(q, w).Delete(p, v)
    decreases |p|
  {
    if p != [] && q != [] && t.Child(p[0]).Some? && t.Child(q[0]).Some? {
      var c, d := t.Child(p[0]).value, t.Child(q[0]).value;
      if p[0] == q[0] {
        DeletesCommute(c, p[1..], v, q[1..], w);
        SetChildTwice(t, p[0], c.Delete(p[1..], v), p[0], c.Delete(p[1..], v).Delete(q[1..], w));
        SetChildTwice(t, p[0], c.Delete(q[1..], w), p[0], c.Delete(q[1..], w).Delete(p[1..], v));
      } else {
        SetChildTwice(t, p[0], c.Delete(p[1..], v), q[0], d.Delete(q[1..], w));
      }
    }
  }

  lemma {:induction false} DeleteAllAny(t: Trie, interests: set<Bytes>, v: EndpointAddr, i: Bytes)
    requires i in interests
    ensures DeleteAll(t, interests, v) == DeleteAll(t.Delete(InterestSegments(i), v), interests - {i}, v)
    decreases interests
  {
    var j := Pick(interests);
    if i != j {
      var pi, pj := InterestSegments(i), InterestSegments(j);
      DeletesCommute(t, pi, v, pj, v);
      hide InterestSegments, Trie.Delete;
      DeleteAllAny(t.Delete(pj, v), interests - {j}, v, i);
      DeleteAllAny(t.Delete(pi, v), interests - {i}, v, j);
      assert interests - {j} - {i} == interests - {i} - {j};
    }
  }

  lemma {:induction false} InsertAllAny(t: Trie, interests: set<Bytes>, v: EndpointAddr, i: Bytes)
    requires i in interests
    ensures InsertAll(t, interests, v) == InsertAll(t.Insert(InterestSegments(i), v), interests - {i}, v)
    decreases interests
  {
    var j := Pick(interests);
    if i != j {
      var pi, pj := InterestSegments(i), InterestSegments(j);
      InsertsCommute(t, pi, v, pj, v);
      hide InterestSegments, Trie.Insert;
      InsertAllAny(t.Insert(pj, v), interests - {j}, v, i);
      InsertAllAny(t.Insert(pi, v), interests - {i}, v, j);
      assert interests - {j} - {i} == interests - {i} - {j};
    }
  }

  lemma {:induction false} InsertBeforeAll(t: Trie, p: seq<Pattern>, w: EndpointAddr, interests: set<Bytes>, v: EndpointAddr)
    ensures InsertAll(t.Insert(p, w), interests, v) == InsertAll(t, interests, v).Insert(p, w)
    decreases interests
  {
    if interests != {} {
      var pj := InterestSegments(Pick(interests));
      InsertsCommute(t, p, w, pj, v);
      hide InterestSegments, Trie.Insert;
      InsertBeforeAll(t.Insert(pj, v), p, w, interests - {Pick(interests)}, v);
    }
  }

  lemma {:induction false} InsertAllsCommute(t: Trie, a: set<Bytes>, v: EndpointAddr, b: set<Bytes>, w: EndpointAddr)
    ensures InsertAll(InsertAll(t, a, v), b, w) == InsertAll(InsertAll(t, b, w), a, v)
    decreases a
  {
    if a != {} {
      var p := InterestSegments(Pick(a));
      InsertBeforeAll(t, p, v, b, w);
      hide InterestSegments, Trie.Insert;
      InsertAllsCommute(t.Insert(p, v), a - {Pick(a)}, v, b, w);
    }
  }

  lemma {:induction false} LoadAny(t: Trie, raw: RawInterests, todo: set<EndpointAddr>, v: EndpointAddr)
    requires v in todo && todo <= raw.Keys
    ensures Load(t, raw, todo) == Load(InsertAll(t, raw[v], v), raw, todo - {v})
    decreases todo
  {
    var w := Pick(todo);
    if v != w {
      InsertAllsCommute(t, raw[v], v, raw[w], w);
      hide InsertAll;
      LoadAny(InsertAll(t, raw[w], w), raw, todo - {w}, v);
      LoadAny(InsertAll(t, raw[v], v), raw, todo - {v}, w);
      assert todo - {w} - {v} == todo - {v} - {w};
    }
  }

  lemma OneLess(from: RawInterests, todo: set<EndpointAddr>, v: EndpointAddr)
    requires v in todo && todo <= from.Keys
    ensures (from - todo)[v := from[v]] == from - (todo - {v})
  {
  }

  lemma RawIsLoaded(from: RawInterests)
    ensures Tries.FromRaw(from) == Index(Load(EmptyTrie, from, from.Keys), from)
  {
  }

  lemma LoadNone(t: Trie, raw: RawInterests)
    ensures Load(t, raw, {}) == t
  {
  }

  class InterestMap {
    const root: TrieNode
    var raw: RawInterests

    ghost predicate Valid()
      reads this, root, root.repr
    {
      root.Valid() && Value().Valid()
    }

    ghost function Value(): Index
      reads this, root
    {
      Index(root.view, raw)
    }

    constructor ()
      ensures Valid() && fresh(root) && fresh(root.repr) && Value() == EmptyIndex
    {
      root := new TrieNode();
      raw := map[];
      EmptyIsValid();
    }

    method Insert(interest: Bytes, v: EndpointAddr)
      requires Valid()
      modifies this, root.repr
      ensures Valid() && fresh(root.repr - old(root.repr)) && Value() == old(Value()).Insert(interest, v)
    {
      InsertKeepsValid(Value(), interest, v);
      root.InsertRecursive(InterestSegments(interest), v);
      raw := raw[v := (if v in raw then raw[v] else {}) + {interest}];
    }

    method Find(subject: Bytes) returns (found: set<EndpointAddr>)
      requires Valid()
      ensures found == Value().Find(subject)
      ensures found == Tries.Scan(raw, subject)
    {
      FindIsScan(Value(), subject);
      found := root.FindAllRecursive(SubjectSegments(subject), {});
    }

    // The interests are walked in the order of a hash set.
    method Delete(v: EndpointAddr)
      requires Valid()
      modifies this, root.repr
      ensures Valid() && root.repr == old(root.repr) && Value() == old(Value()).Delete(v)
    {
      DeleteKeepsValid(Value(), v);
      if v in raw {
        var interests := raw[v];
        raw := raw - {v};
        while interests != {}
          invariant root.Valid() && root.repr == old(root.repr) && raw == old(raw) - {v}
          invariant DeleteAll(root.view, interests, v) == DeleteAll(old(root.view), old(raw)[v], v)
          decreases interests
        {
          ghost var some := Pick(interests);
          assert some in interests;
          var interest :| interest in interests;
          DeleteAllAny(root.view, interests, v, interest);
          root.DeleteRecursive(InterestSegments(interest), v);
          interests := interests - {interest};
        }
      }
    }

    // The inner and the outer loop both walk hash tables.
    static method InsertEvery(root: TrieNode, interests: set<Bytes>, v: EndpointAddr)
      requires root.Valid()
      modifies root.repr
      ensures root.Valid() && fresh(root.repr - old(root.repr))
      ensures root.view == InsertAll(old(root.view), interests, v)
    {
      ghost var all := InsertAll(root.view, interests, v);
      var todo := interests;
      while todo != {}
        invariant root.Valid() && fresh(root.repr - old(root.repr))
        invariant InsertAll(root.view, todo, v) == all
        decreases todo
      {
        ghost var some := Pick(todo);
        assert some in todo;
        var interest :| interest in todo;
        InsertAllAny(root.view, todo, v, interest);
        root.InsertRecursive(InterestSegments(interest), v);
        todo := todo - {interest};
      }
    }

    constructor FromRaw(from: RawInterests)
      ensures Valid() && fresh(root) && fresh(root.repr) && Value() == Tries.FromRaw(from)
    {
      root := new TrieNode();
      raw := map[];
      new;
      hide Load, InsertAll, TrieNode.ValidBut, TrieNode.Valid, Index.Valid, Tries.FromRaw;
      FromRawIsValid(from);
      RawIsLoaded(from);
      ghost var whole := Load(root.view, from, from.Keys);
      assert from - from.Keys == map[] && from - {} == from;
      var todo := from.Keys;
      while todo != {}
        invariant root.Valid() && fresh(root.repr)
        invariant todo <= from.Keys && raw == from - todo
        invariant Load(root.view, from, todo) == whole
        decreases todo
      {
        ghost var some := Pick(todo);
        assert some in todo;
        var v :| v in todo;
        LoadAny(root.view, from, todo, v);
        InsertEvery(root, from[v], v);
        OneLess(from, todo, v);
        raw, todo := raw[v := from[v]], todo - {v};
      }
      LoadNone(root.view, from);
    }
  }
}
