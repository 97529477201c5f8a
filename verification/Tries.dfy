// The interest trie as a value, and the plain map it indexes.

module Tries {
  import opened Messages
  import opened Segments
  import opened Globs
  import opened Texts

  datatype Trie = Trie(
    value: set<EndpointAddr>,
    children: map<Bytes, Trie>,
    any: Option<Trie>,
    recursiveAny: Option<Trie>
  ) {
    function Child(pat: Pattern): Option<Trie> {
      match pat
      case Specific(seg) => if seg in children then Some(children[seg]) else None
      case Any => any
      case RecursiveAny => recursiveAny
    }

    function WithChild(pat: Pattern, child: Trie): (t: Trie)
      ensures t.value == value && t.Child(pat) == Some(child)
      ensures forall other :: other != pat ==> t.Child(other) == Child(other)
    {
      match pat
      case Specific(seg) => this.(children := children[seg := child])
      case Any => this.(any := Some(child))
      case RecursiveAny => this.(recursiveAny := Some(child))
    }

    function ChildOrEmpty(pat: Pattern): Trie {
      if Child(pat).Some? then Child(pat).value else EmptyTrie
    }

    // The endpoints stored at the end of a path.
    function Lookup(path: seq<Pattern>): set<EndpointAddr>
      decreases |path|
    {
      if path == [] then value
      else if Child(path[0]).None? then {}
      else Child(path[0]).value.Lookup(path[1..])
    }

    function Insert(path: seq<Pattern>, v: EndpointAddr): Trie
      decreases |path|
    {
      if path == [] then this.(value := value + {v})
      else WithChild(path[0], ChildOrEmpty(path[0]).Insert(path[1..], v))
    }

    // Nodes left empty stay where they are.
    function Delete(path: seq<Pattern>, v: EndpointAddr): Trie
      decreases |path|
    {
      if path == [] then this.(value := value - {v})
      else if Child(path[0]).None? then this
      else WithChild(path[0], Child(path[0]).value.Delete(path[1..], v))
    }

    // The search: what is found under `**`, under `*` and under the literal child.
    function Find(s: seq<Bytes>): set<EndpointAddr>
      decreases |s|, 1
    {
      if s == [] then value
      else
        (if recursiveAny.Some? then recursiveAny.value.value + FindBelow(recursiveAny.value, s[1..]) else {})
        + (if any.Some? then any.value.Find(s[1..]) else {})
        + (if s[0] in children then children[s[0]].Find(s[1..]) else {})
    }

    static function FindBelow(node: Trie, rest: seq<Bytes>): set<EndpointAddr>
      decreases |rest|, 0
    {
      if rest == [] then {}
      else
        (if rest[0] in node.children then node.children[rest[0]].Find(rest[1..]) else {})
        + FindBelow(node, rest[1..])
    }
  }

  const EmptyTrie: Trie := Trie({}, map[], None, None)

  // ----- The search finds exactly what is stored on matching paths -----

  lemma {:induction false} InsertLookup(t: Trie, path: seq<Pattern>, v: EndpointAddr, q: seq<Pattern>)
    ensures t.Insert(path, v).Lookup(q) == t.Lookup(q) + (if q == path then {v} else {})
    decreases |path|
  {
    if path != [] && q != [] {
      var child := t.ChildOrEmpty(path[0]);
      if q[0] == path[0] {
        InsertLookup(child, path[1..], v, q[1..]);
        assert q == [q[0]] + q[1..] && path == [path[0]] + path[1..];
        EmptyLookup(q[1..]);
      }
    }
  }

  lemma EmptyLookup(q: seq<Pattern>)
    ensures EmptyTrie.Lookup(q) == {}
  {
  }

  lemma {:induction false} DeleteLookup(t: Trie, path: seq<Pattern>, v: EndpointAddr, q: seq<Pattern>)
    ensures t.Delete(path, v).Lookup(q) == t.Lookup(q) - (if q == path then {v} else {})
    decreases |path|
  {
    if path == [] {
    } else if q == [] {
    } else if t.Child(path[0]).Some? && q[0] == path[0] {
      DeleteLookup(t.Child(path[0]).value, path[1..], v, q[1..]);
      assert q == [q[0]] + q[1..] && path == [path[0]] + path[1..];
    } else if q == path {
      assert t.Lookup(q) == {};
    }
  }

  ghost predicate Stored(t: Trie, s: seq<Bytes>, v: EndpointAddr) {
    exists p :: v in t.Lookup(p) && SearchMatch(p, s)
  }

  ghost predicate MatchesBelow(p: seq<Pattern>, rest: seq<Bytes>) {
    p != [] && p[0].Specific? && SearchBelow(p, rest)
  }

  ghost predicate StoredBelow(node: Trie, rest: seq<Bytes>, v: EndpointAddr) {
    exists p :: v in node.Lookup(p) && MatchesBelow(p, rest)
  }

  lemma ThroughChild(t: Trie, pat: Pattern, p: seq<Pattern>)
    ensures t.Lookup([pat] + p) == if t.Child(pat).Some? then t.Child(pat).value.Lookup(p) else {}
  {
    assert ([pat] + p)[1..] == p;
  }

  lemma {:induction false} FindIsStored(t: Trie, s: seq<Bytes>, v: EndpointAddr)
    ensures v in t.Find(s) <==> Stored(t, s, v)
    decreases |s|, 1
  {
    if s == [] {
      if v in t.value {
        assert v in t.Lookup([]) && SearchMatch([], s);
      }
    } else {
      if v in t.Find(s) {
        FindOnlyStored(t, s, v);
      }
      if p :| v in t.Lookup(p) && SearchMatch(p, s) {
        StoredIsFound(t, p, s, v);
      }
    }
  }

  lemma {:induction false} FindOnlyStored(t: Trie, s: seq<Bytes>, v: EndpointAddr)
    requires s != [] && v in t.Find(s)
    ensures Stored(t, s, v)
    decreases |s|, 0
  {
    if t.recursiveAny.Some? && v in t.recursiveAny.value.value {
      ThroughChild(t, RecursiveAny, []);
      assert v in t.recursiveAny.value.Lookup([]);
      assert v in t.Lookup([RecursiveAny] + []) && SearchMatch([RecursiveAny] + [], s);
    } else if t.recursiveAny.Some? && v in Trie.FindBelow(t.recursiveAny.value, s[1..]) {
      FindBelowIsStored(t.recursiveAny.value, s[1..], v);
      var p :| v in t.recursiveAny.value.Lookup(p) && MatchesBelow(p, s[1..]);
      ThroughChild(t, RecursiveAny, p);
      assert ([RecursiveAny] + p)[1..] == p;
      assert v in t.Lookup([RecursiveAny] + p) && SearchMatch([RecursiveAny] + p, s);
    } else {
      var pat := if t.any.Some? && v in t.any.value.Find(s[1..]) then Any else Specific(s[0]);
      FindIsStored(t.Child(pat).value, s[1..], v);
      var p :| v in t.Child(pat).value.Lookup(p) && SearchMatch(p, s[1..]);
      ThroughChild(t, pat, p);
      assert ([pat] + p)[1..] == p;
      assert v in t.Lookup([pat] + p) && SearchMatch([pat] + p, s);
    }
  }

  lemma {:induction false} StoredIsFound(t: Trie, p: seq<Pattern>, s: seq<Bytes>, v: EndpointAddr)
    requires s != [] && v in t.Lookup(p) && SearchMatch(p, s)
    ensures v in t.Find(s)
    decreases |s|, 0
  {
    var child := t.Child(p[0]).value;
    assert v in child.Lookup(p[1..]);
    match p[0]
    case Specific(_) =>
      assert Stored(child, s[1..], v);
      FindIsStored(child, s[1..], v);
    case Any =>
      assert Stored(child, s[1..], v);
      FindIsStored(child, s[1..], v);
    case RecursiveAny =>
      if |p| > 1 {
        assert StoredBelow(child, s[1..], v);
        FindBelowIsStored(child, s[1..], v);
      }
  }

  lemma {:induction false} FindBelowIsStored(node: Trie, rest: seq<Bytes>, v: EndpointAddr)
    ensures v in Trie.FindBelow(node, rest) <==> StoredBelow(node, rest, v)
    decreases |rest|, 2
  {
    if rest != [] {
      FindBelowIsStored(node, rest[1..], v);
      var pat := Specific(rest[0]);
      if rest[0] in node.children && v in node.children[rest[0]].Find(rest[1..]) {
        FindIsStored(node.children[rest[0]], rest[1..], v);
        var p :| v in node.children[rest[0]].Lookup(p) && SearchMatch(p, rest[1..]);
        ThroughChild(node, pat, p);
        assert ([pat] + p)[1..] == p;
        assert v in node.Lookup([pat] + p) && MatchesBelow([pat] + p, rest);
      } else if v in Trie.FindBelow(node, rest[1..]) {
        var p :| v in node.Lookup(p) && MatchesBelow(p, rest[1..]);
        assert MatchesBelow(p, rest);
      }
      if p :| v in node.Lookup(p) && MatchesBelow(p, rest) {
        if SearchBelow(p, rest[1..]) {
          assert StoredBelow(node, rest[1..], v);
        } else {
          assert v in node.children[rest[0]].Lookup(p[1..]);
          assert Stored(node.children[rest[0]], rest[1..], v);
          FindIsStored(node.children[rest[0]], rest[1..], v);
        }
      }
    }
  }

  // ----- The trie as an index of a plain map -----

  type RawInterests = map<EndpointAddr, set<Bytes>>

  ghost predicate HasPath(raw: RawInterests, v: EndpointAddr, p: seq<Pattern>) {
    v in raw && exists i :: i in raw[v] && InterestSegments(i) == p
  }

  // The naive scan of the plain map.
  ghost predicate Wants(raw: RawInterests, v: EndpointAddr, subject: Bytes) {
    v in raw && exists i :: i in raw[v] && SearchMatch(InterestSegments(i), SubjectSegments(subject))
  }

  ghost function Scan(raw: RawInterests, subject: Bytes): set<EndpointAddr> {
    set v | v in raw && Wants(raw, v, subject)
  }

  // Some order in which a hash map or hash set may be walked.
  ghost function Pick<T>(s: set<T>): (x: T)
    requires s != {}
    ensures x in s
  {
    var x :| x in s; x
  }

  ghost function InsertAll(t: Trie, interests: set<Bytes>, v: EndpointAddr): Trie
    decreases interests
  {
    if interests == {} then t
    else var i := Pick(interests); InsertAll(t.Insert(InterestSegments(i), v), interests - {i}, v)
  }

  ghost function DeleteAll(t: Trie, interests: set<Bytes>, v: EndpointAddr): Trie
    decreases interests
  {
    if interests == {} then t
    else var i := Pick(interests); DeleteAll(t.Delete(InterestSegments(i), v), interests - {i}, v)
  }

  ghost function Load(t: Trie, raw: RawInterests, todo: set<EndpointAddr>): Trie
    requires todo <= raw.Keys
    decreases todo
  {
    if todo == {} then t
    else var v := Pick(todo); Load(InsertAll(t, raw[v], v), raw, todo - {v})
  }

  datatype Index = Index(root: Trie, raw: RawInterests) {
    ghost predicate Valid() {
      forall p, v :: v in root.Lookup(p) <==> HasPath(raw, v, p)
    }

    function Find(subject: Bytes): set<EndpointAddr> {
      root.Find(SubjectSegments(subject))
    }

    function Insert(interest: Bytes, v: EndpointAddr): Index {
      Index(root.Insert(InterestSegments(interest), v),
            raw[v := (if v in raw then raw[v] else {}) + {interest}])
    }

    ghost function Delete(v: EndpointAddr): Index {
      if v in raw then Index(DeleteAll(root, raw[v], v), raw - {v}) else this
    }

    function InsertEach(interests: seq<Bytes>, v: EndpointAddr): Index
      decreases interests
    {
      if interests == [] then this else Insert(interests[0], v).InsertEach(interests[1..], v)
    }
  }

  const EmptyIndex: Index := Index(EmptyTrie, map[])

  ghost function FromRaw(raw: RawInterests): Index {
    Index(Load(EmptyTrie, raw, raw.Keys), raw)
  }

  // ----- Index equals scan -----

  lemma FindIsScan(ix: Index, subject: Bytes)
    requires ix.Valid()
    ensures ix.Find(subject) == Scan(ix.raw, subject)
  {
    var s := SubjectSegments(subject);
    forall v ensures v in ix.Find(subject) <==> v in Scan(ix.raw, subject) {
      FindIsStored(ix.root, s, v);
      if p :| v in ix.root.Lookup(p) && SearchMatch(p, s) {
        assert HasPath(ix.raw, v, p);
      }
      if v in ix.raw && Wants(ix.raw, v, subject) {
        var i :| i in ix.raw[v] && SearchMatch(InterestSegments(i), s);
        assert HasPath(ix.raw, v, InterestSegments(i));
        assert v in ix.root.Lookup(InterestSegments(i));
      }
    }
  }

  lemma EmptyIsValid()
    ensures EmptyIndex.Valid()
  {
    forall p ensures EmptyTrie.Lookup(p) == {} {
      EmptyLookup(p);
    }
  }

  lemma InsertKeepsValid(ix: Index, interest: Bytes, v: EndpointAddr)
    requires ix.Valid()
    ensures ix.Insert(interest, v).Valid()
  {
    var path, after := InterestSegments(interest), ix.Insert(interest, v);
    forall p, w ensures w in after.root.Lookup(p) <==> HasPath(after.raw, w, p) {
      InsertLookup(ix.root, path, v, p);
      assert w in ix.root.Lookup(p) <==> HasPath(ix.raw, w, p);
      if w == v {
        assert interest in after.raw[v];
        assert v in ix.raw ==> forall i :: i in ix.raw[v] ==> i in after.raw[v];
      }
    }
  }

  lemma {:induction false} DeleteAllLookup(t: Trie, interests: set<Bytes>, v: EndpointAddr,
                                           p: seq<Pattern>, w: EndpointAddr)
    ensures w in DeleteAll(t, interests, v).Lookup(p) <==>
            w in t.Lookup(p) && !(w == v && exists i :: i in interests && InterestSegments(i) == p)
    decreases interests
  {
    if interests != {} {
      var i := Pick(interests);
      DeleteLookup(t, InterestSegments(i), v, p);
      DeleteAllLookup(t.Delete(InterestSegments(i), v), interests - {i}, v, p, w);
      assert forall j :: j in interests <==> j == i || j in interests - {i};
    }
  }

  lemma {:induction false} InsertAllLookup(t: Trie, interests: set<Bytes>, v: EndpointAddr,
                                           p: seq<Pattern>, w: EndpointAddr)
    ensures w in InsertAll(t, interests, v).Lookup(p) <==>
            w in t.Lookup(p) || (w == v && exists i :: i in interests && InterestSegments(i) == p)
    decreases interests
  {
    if interests != {} {
      var i := Pick(interests);
      InsertLookup(t, InterestSegments(i), v, p);
      InsertAllLookup(t.Insert(InterestSegments(i), v), interests - {i}, v, p, w);
      assert forall j :: j in interests <==> j == i || j in interests - {i};
    }
  }

  lemma {:induction false} LoadLookup(t: Trie, raw: RawInterests, todo: set<EndpointAddr>,
                                      p: seq<Pattern>, w: EndpointAddr)
    requires todo <= raw.Keys
    ensures w in Load(t, raw, todo).Lookup(p) <==> w in t.Lookup(p) || (w in todo && HasPath(raw, w, p))
    decreases todo
  {
    if todo != {} {
      var v := Pick(todo);
      InsertAllLookup(t, raw[v], v, p, w);
      LoadLookup(InsertAll(t, raw[v], v), raw, todo - {v}, p, w);
    }
  }

  lemma DeleteKeepsValid(ix: Index, v: EndpointAddr)
    requires ix.Valid()
    ensures ix.Delete(v).Valid() && ix.Delete(v).raw == ix.raw - {v}
  {
    if v in ix.raw {
      forall p, w ensures w in ix.Delete(v).root.Lookup(p) <==> HasPath(ix.Delete(v).raw, w, p) {
        DeleteAllLookup(ix.root, ix.raw[v], v, p, w);
        assert w in ix.root.Lookup(p) <==> HasPath(ix.raw, w, p);
      }
    }
  }

  // Rebuilding from the plain map, as deserialising a snapshot does.
  lemma FromRawIsValid(raw: RawInterests)
    ensures FromRaw(raw).Valid()
  {
    forall p, w ensures w in FromRaw(raw).root.Lookup(p) <==> HasPath(raw, w, p) {
      LoadLookup(EmptyTrie, raw, raw.Keys, p, w);
      EmptyLookup(p);
    }
  }

  lemma {:induction false} InsertEachKeepsValid(ix: Index, interests: seq<Bytes>, v: EndpointAddr)
    requires ix.Valid()
    ensures ix.InsertEach(interests, v).Valid()
    decreases interests
  {
    if interests != [] {
      InsertKeepsValid(ix, interests[0], v);
      InsertEachKeepsValid(ix.Insert(interests[0], v), interests[1..], v);
    }
  }

  // ----- Runs of the index -----

  datatype IndexOp = OpInsert(interest: Bytes, v: EndpointAddr) | OpDelete(v: EndpointAddr) | OpReload

  ghost function RunIndex(ix: Index, ops: seq<IndexOp>): Index
    decreases ops
  {
    if ops == [] then ix
    else
      var next := match ops[0]
        case OpInsert(i, v) => ix.Insert(i, v)
        case OpDelete(v) => ix.Delete(v)
        case OpReload => FromRaw(ix.raw);
      RunIndex(next, ops[1..])
  }

  lemma {:induction false} RunKeepsValid(ix: Index, ops: seq<IndexOp>)
    requires ix.Valid()
    ensures RunIndex(ix, ops).Valid()
    decreases ops
  {
    if ops != [] {
      match ops[0]
      case OpInsert(i, v) => InsertKeepsValid(ix, i, v); RunKeepsValid(ix.Insert(i, v), ops[1..]);
      case OpDelete(v) => DeleteKeepsValid(ix, v); RunKeepsValid(ix.Delete(v), ops[1..]);
      case OpReload => FromRawIsValid(ix.raw); RunKeepsValid(FromRaw(ix.raw), ops[1..]);
    }
  }

  // The interests that an endpoint has declared and not withdrawn.
  function Declared(ops: seq<IndexOp>, v: EndpointAddr): set<Bytes>
    decreases |ops|
  {
    if ops == [] then {} else DeclaredNext(Declared(ops[..|ops| - 1], v), ops[|ops| - 1], v)
  }

  function DeclaredNext(before: set<Bytes>, op: IndexOp, v: EndpointAddr): set<Bytes> {
    if op.OpInsert? && op.v == v then before + {op.interest}
    else if op.OpDelete? && op.v == v then {}
    else before
  }

  function RawOf(ix: Index, v: EndpointAddr): set<Bytes> {
    if v in ix.raw then ix.raw[v] else {}
  }

  lemma RunIndexCons(ix: Index, op: IndexOp, ops: seq<IndexOp>)
    ensures RunIndex(ix, [op] + ops) == RunIndex(RunIndex(ix, [op]), ops)
    ensures RunIndex(ix, []) == ix
  {
    hide Index.Insert, Index.Delete, FromRaw;
    assert ([op] + ops)[1..] == ops && [op][1..] == [];
  }

  lemma {:induction false} RunIndexMore(ix: Index, ops: seq<IndexOp>, op: IndexOp)
    ensures RunIndex(ix, ops + [op]) == RunIndex(RunIndex(ix, ops), [op])
    decreases ops
  {
    hide *;
    RunIndexCons(ix, op, []);
    if ops == [] {
      assert [] + [op] == [op];
    } else {
      assert ops == [ops[0]] + ops[1..];
      assert ops + [op] == [ops[0]] + (ops[1..] + [op]);
      RunIndexCons(ix, ops[0], ops[1..]);
      RunIndexCons(ix, ops[0], ops[1..] + [op]);
      RunIndexMore(RunIndex(ix, [ops[0]]), ops[1..], op);
    }
  }

  lemma {:induction false} RawIsDeclared(ops: seq<IndexOp>, v: EndpointAddr)
    ensures RawOf(RunIndex(EmptyIndex, ops), v) == Declared(ops, v)
    decreases |ops|
  {
    if ops != [] {
      var init, last := ops[..|ops| - 1], ops[|ops| - 1];
      assert ops == init + [last];
      RunIndexMore(EmptyIndex, init, last);
      RawIsDeclared(init, v);
      OneIndexOp(RunIndex(EmptyIndex, init), last, v);
    }
  }

  lemma OneIndexOp(ix: Index, op: IndexOp, v: EndpointAddr)
    ensures RawOf(RunIndex(ix, [op]), v) == DeclaredNext(RawOf(ix, v), op, v)
  {
    assert [op][1..] == [];
    hide DeleteAll, Load, Trie.Insert;
  }

  // After any run of inserts, deletes and reloads a search returns exactly the endpoints that have
  // declared, and not withdrawn, some interest whose text finds the text of the subject.
  lemma IndexEqualsScan(ops: seq<IndexOp>, subject: Bytes, v: EndpointAddr)
    ensures v in RunIndex(EmptyIndex, ops).Find(subject) <==> exists i :: i in Declared(ops, v) && TextFinds(i, subject)
  {
    EmptyIsValid();
    RunKeepsValid(EmptyIndex, ops);
    RawIsDeclared(ops, v);
    var ix := RunIndex(EmptyIndex, ops);
    FoundIff(ix, subject, v);
  }

  // The same of any coherent index and its plain map.
  lemma FoundIff(ix: Index, subject: Bytes, v: EndpointAddr)
    requires ix.Valid()
    ensures v in ix.Find(subject) <==> exists i :: i in RawOf(ix, v) && TextFinds(i, subject)
  {
    FindIsScan(ix, subject);
    hide Index.Valid, Index.Find, TextFinds;
    forall i: Bytes ensures SearchMatch(InterestSegments(i), SubjectSegments(subject)) <==> TextFinds(i, subject) {
      SearchIsTextual(i, subject);
    }
  }

  // ----- Interest replacement -----

  lemma {:induction false} InsertEachRaw(ix: Index, interests: seq<Bytes>, v: EndpointAddr, w: EndpointAddr)
    ensures var raw := ix.InsertEach(interests, v).raw;
            && (w != v ==> (w in raw <==> w in ix.raw) && (w in raw ==> raw[w] == ix.raw[w]))
            && (v in raw <==> v in ix.raw || interests != [])
            && (v in raw ==> raw[v] == (if v in ix.raw then ix.raw[v] else {}) + (set i | i in interests))
    decreases interests
  {
    if interests != [] {
      InsertEachRaw(ix.Insert(interests[0], v), interests[1..], v, w);
      assert interests == [interests[0]] + interests[1..];
      assert (set i | i in interests) == {interests[0]} + set i | i in interests[1..];
    }
  }

  // Deleting an endpoint and inserting a list makes it findable by exactly that list, and changes
  // nothing for any other endpoint, however many interest strings share one path.
  lemma InterestReplacement(ix: Index, v: EndpointAddr, interests: seq<Bytes>, subject: Bytes, w: EndpointAddr)
    requires ix.Valid()
    ensures var after := ix.Delete(v).InsertEach(interests, v);
            && (v in after.Find(subject) <==>
                exists i :: i in interests && SearchMatch(InterestSegments(i), SubjectSegments(subject)))
            && (w != v ==> (w in after.Find(subject) <==> w in ix.Find(subject)))
  {
    DeleteKeepsValid(ix, v);
    InsertEachKeepsValid(ix.Delete(v), interests, v);
    var after := ix.Delete(v).InsertEach(interests, v);
    InsertEachRaw(ix.Delete(v), interests, v, w);
    FindIsScan(ix, subject);
    FindIsScan(after, subject);
    if w != v {
      assert Wants(after.raw, w, subject) <==> Wants(ix.raw, w, subject);
    }
    if i :| i in interests && SearchMatch(InterestSegments(i), SubjectSegments(subject)) {
      assert i in after.raw[v];
    }
  }

  // ----- Catching everything -----

  const Everything: seq<Bytes> := [[STAR, STAR], []]

  lemma EverythingIs()
    ensures InterestSegments(Everything[0]) == [RecursiveAny] && InterestSegments(Everything[1]) == []
  {
    var stars: Bytes := [STAR, STAR];
    SplitWhole(stars);
    NonEmptyCons(stars, []);
    SplitWhole([]);
    assert TrimStart(stars) == stars && TrimEnd(stars) == stars;
    assert NonEmpty(Split(stars)) == [stars];
    assert InterestSegments(Everything[0]) == [Classify(stars)];
    assert InterestSegments(Everything[1]) == [];
  }

  // An endpoint with the interests `**` and the empty one is found by every subject.
  lemma EverythingIsFound(ix: Index, v: EndpointAddr, subject: Bytes)
    requires ix.Valid()
    ensures v in ix.InsertEach(Everything, v).Find(subject)
  {
    EverythingIs();
    var after, i := ix.InsertEach(Everything, v), if SubjectSegments(subject) == [] then Everything[1] else Everything[0];
    InsertEachKeepsValid(ix, Everything, v);
    InsertEachRaw(ix, Everything, v, v);
    FindIsScan(after, subject);
    hide Index.Valid, Index.Find, Index.InsertEach, InterestSegments, SubjectSegments;
    assert i in Everything && i in after.raw[v];
    assert SearchMatch(InterestSegments(i), SubjectSegments(subject));
  }
}
