// Cutting subjects and interests into segments.

module Segments {
  import opened Messages

  const SLASH: byte := 47
  const STAR: byte := 42

  datatype Pattern = Specific(seg: Bytes) | Any | RecursiveAny

  // ----- Reference: splitting on '/' and dropping the empty pieces -----

  function Split(s: Bytes): (r: seq<Bytes>)
    ensures r != []
  {
    if s == [] then [[]]
    else
      var rest := Split(s[1..]);
      if s[0] == SLASH then [[]] + rest else [[s[0]] + rest[0]] + rest[1..]
  }

  function NonEmpty(pieces: seq<Bytes>): seq<Bytes> {
    if pieces == [] then []
    else (if pieces[0] == [] then [] else [pieces[0]]) + NonEmpty(pieces[1..])
  }

  // The pieces joined by slashes.
  function Joined(pieces: seq<Bytes>): Bytes
    requires pieces != []
  {
    if |pieces| == 1 then pieces[0] else pieces[0] + [SLASH] + Joined(pieces[1..])
  }

  // Splitting is the inverse of joining, into pieces without slashes.
  lemma {:induction false} SplitIsPieces(s: Bytes)
    ensures SLASH == 47 && Joined(Split(s)) == s && forall piece :: piece in Split(s) ==> SLASH !in piece
  {
    if s != [] {
      var rest := Split(s[1..]);
      SplitIsPieces(s[1..]);
      if s[0] == SLASH {
        assert Split(s)[1..] == rest;
      } else {
        assert Split(s)[1..] == rest[1..];
        assert rest[0] in rest;
        if |rest| > 1 {
          assert [s[0]] + rest[0] + [SLASH] + Joined(rest[1..]) == [s[0]] + (rest[0] + [SLASH] + Joined(rest[1..]));
        }
      }
    }
  }

  // ----- Subjects: the iterator -----

  // The position of the first byte of `s` that is a slash (`slash`) or is not one, or |s|.
  function Scan(s: Bytes, slash: bool): (n: nat)
    ensures n <= |s|
    ensures n < |s| ==> (s[n] == SLASH) == slash
    ensures forall i :: 0 <= i < n ==> (s[i] == SLASH) != slash
  {
    if s == [] || (s[0] == SLASH) == slash then 0 else 1 + Scan(s[1..], slash)
  }

  lemma {:induction false} ScanIs(s: Bytes, slash: bool, n: nat)
    requires n <= |s|
    requires n < |s| ==> (s[n] == SLASH) == slash
    requires forall i :: 0 <= i < n ==> (s[i] == SLASH) != slash
    ensures Scan(s, slash) == n
  {
    if 0 < n {
      ScanIs(s[1..], slash, n - 1);
    }
  }

  // What one call of the iterator yields and what it leaves to iterate over.
  function Cut(s: Bytes): (Bytes, Bytes)
    requires s != []
  {
    var n := Scan(s, true);
    (s[..n], s[n..][Scan(s[n..], false)..])
  }

  lemma CutShrinks(s: Bytes)
    requires s != []
    ensures |Cut(s).1| < |s|
  {
    var n := Scan(s, true);
    if n < |s| {
      assert s[n..][0] == SLASH;
    }
  }

  // Everything the iterator yields.
  function SubjectSegments(s: Bytes): seq<Bytes>
    decreases |s|
  {
    if s == [] then []
    else
      CutShrinks(s);
      [Cut(s).0] + SubjectSegments(Cut(s).1)
  }

  class SubjectIterator {
    var inner: Bytes

    constructor (subject: Bytes)
      ensures inner == subject
    {
      inner := subject;
    }

    method Next() returns (r: Option<Bytes>)
      modifies this
      ensures old(inner) == [] ==> r == None && inner == []
      ensures old(inner) != [] ==> (r, inner) == (Some(Cut(old(inner)).0), Cut(old(inner)).1)
    {
      if inner == [] {
        return None;
      }
      var slashIndex: Option<nat> := None;
      for index := 0 to |inner|
        invariant slashIndex == None && inner == old(inner)
        invariant forall i :: 0 <= i < index ==> inner[i] != SLASH
      {
        if inner[index] == SLASH {
          slashIndex := Some(index);
          break;
        }
      }
      ScanIs(inner, true, if slashIndex.Some? then slashIndex.value else |inner|);
      if slashIndex.Some? {
        var next := inner[..slashIndex.value];
        var nextStart: Option<nat> := None;
        var rest := inner[slashIndex.value..];
        for bias := 0 to |rest|
          invariant nextStart == None && inner == old(inner)
          invariant forall i :: 0 <= i < bias ==> rest[i] == SLASH
        {
          if rest[bias] != SLASH {
            nextStart := Some(slashIndex.value + bias);
            break;
          }
        }
        ScanIs(rest, false, if nextStart.Some? then nextStart.value - slashIndex.value else |rest|);
        assert inner[slashIndex.value..][Scan(rest, false)..] ==
               if nextStart.Some? then inner[nextStart.value..] else [];
        inner := if nextStart.Some? then inner[nextStart.value..] else [];
        r := Some(next);
      } else {
        assert inner[..|inner|] == inner;
        r := Some(inner);
        inner := [];
      }
    }
  }

  // ----- Interests -----

  predicate IsAsciiWhitespace(b: byte) {
    b == 32 || b == 9 || b == 10 || b == 12 || b == 13
  }

  function TrimStart(s: Bytes): Bytes {
    if s != [] && IsAsciiWhitespace(s[0]) then TrimStart(s[1..]) else s
  }

  function TrimEnd(s: Bytes): Bytes {
    if s != [] && IsAsciiWhitespace(s[|s| - 1]) then TrimEnd(s[..|s| - 1]) else s
  }

  function Classify(seg: Bytes): Pattern {
    var trimmed := TrimEnd(TrimStart(seg));
    if trimmed == [STAR] then Any
    else if trimmed == [STAR, STAR] then RecursiveAny
    else Specific(trimmed)
  }

  function ClassifyAll(segs: seq<Bytes>): (r: seq<Pattern>)
    ensures |r| == |segs| && forall i :: 0 <= i < |segs| ==> r[i] == Classify(segs[i])
  {
    seq(|segs|, i requires 0 <= i < |segs| => Classify(segs[i]))
  }

  function InterestSegments(interest: Bytes): seq<Pattern> {
    ClassifyAll(NonEmpty(Split(interest)))
  }

  // ----- What the two have in common -----

  lemma {:induction false} SplitPrefix(s: Bytes, n: nat)
    requires n < |s| && s[n] == SLASH && forall i :: 0 <= i < n ==> s[i] != SLASH
    ensures Split(s) == [s[..n]] + Split(s[n + 1..])
  {
    if n == 0 {
    } else {
      SplitPrefix(s[1..], n - 1);
      assert s[1..][n..] == s[n + 1..];
      assert s[..n] == [s[0]] + s[1..][..n - 1];
    }
  }

  lemma {:induction false} SplitWhole(s: Bytes)
    requires forall i :: 0 <= i < |s| ==> s[i] != SLASH
    ensures Split(s) == [s]
  {
    if s != [] {
      SplitWhole(s[1..]);
      assert [s[0]] + s[1..] == s;
    }
  }

  lemma {:induction false} NonEmptySlashes(s: Bytes)
    ensures NonEmpty(Split(s)) == NonEmpty(Split(s[Scan(s, false)..]))
  {
    if s != [] && s[0] == SLASH {
      assert Split(s)[1..] == Split(s[1..]);
      NonEmptySlashes(s[1..]);
      assert s[1..][Scan(s[1..], false)..] == s[Scan(s, false)..];
    }
  }

  lemma NonEmptyCons(piece: Bytes, rest: seq<Bytes>)
    ensures NonEmpty([piece] + rest) == (if piece == [] then [] else [piece]) + NonEmpty(rest)
    ensures NonEmpty([]) == [] && NonEmpty([[]]) == []
  {
    assert ([piece] + rest)[1..] == rest;
    var one: seq<Bytes> := [[]];
    assert one[1..] == [];
  }

  lemma SplitCons(s: Bytes)
    ensures s == [] ==> Split(s) == [[]]
    ensures s != [] && s[0] == SLASH ==> Split(s) == [[]] + Split(s[1..])
  {
  }

  // A piece without a slash is the last.
  lemma CutLast(s: Bytes)
    requires s != [] && Scan(s, true) == |s|
    ensures Cut(s) == (s, []) && Split(s) == [s] + [] && s[0] != SLASH
  {
    SplitWhole(s);
    assert s[..|s|] == s && s[|s|..] == [];
  }

  lemma CutAtSlash(s: Bytes)
    requires s != [] && Scan(s, true) < |s|
    ensures var n := Scan(s, true);
            && Cut(s).0 == s[..n] && (n == 0 <==> s[0] == SLASH)
            && Split(s) == [s[..n]] + Split(s[n..][1..])
            && NonEmpty(Split(s[n..])) == NonEmpty(Split(Cut(s).1))
            && s[n..] != [] && s[n..][0] == SLASH
            && (Cut(s).1 != [] ==> Cut(s).1[0] != SLASH)
  {
    var n := Scan(s, true);
    SplitPrefix(s, n);
    assert s[n..][1..] == s[n + 1..];
    NonEmptySlashes(s[n..]);
  }

  lemma NonEmptyCut(s: Bytes)
    requires s != []
    ensures NonEmpty(Split(s)) == (if Cut(s).0 == [] then [] else [Cut(s).0]) + NonEmpty(Split(Cut(s).1))
    ensures Cut(s).1 != [] ==> Cut(s).1[0] != SLASH
    ensures s[0] != SLASH ==> Cut(s).0 != []
    ensures s[0] == SLASH ==> Cut(s).0 == []
  {
    hide Split, NonEmpty, Cut, Scan;
    if Scan(s, true) == |s| {
      CutLast(s);
      NonEmptyCons(s, []);
      SplitCons([]);
    } else {
      CutAtSlash(s);
      var rest := s[Scan(s, true)..];
      NonEmptyCons(Cut(s).0, Split(rest[1..]));
      NonEmptyCons([], Split(rest[1..]));
      SplitCons(rest);
      assert [] + NonEmpty(Split(rest[1..])) == NonEmpty(Split(rest[1..]));
    }
  }

  lemma SegmentsCons(s: Bytes)
    ensures s == [] ==> SubjectSegments(s) == []
    ensures s != [] ==> |Cut(s).1| < |s| && SubjectSegments(s) == [Cut(s).0] + SubjectSegments(Cut(s).1)
  {
    if s != [] {
      CutShrinks(s);
    }
  }

  // The subject iterator yields the non-empty pieces between slashes, preceded by one empty segment
  // exactly when the subject starts with a slash.
  lemma {:induction false} SubjectSegmentsAreSplit(s: Bytes)
    ensures SubjectSegments(s) == (if s != [] && s[0] == SLASH then [[]] else []) + NonEmpty(Split(s))
    decreases |s|
  {
    hide Split, NonEmpty, Cut, SubjectSegments;
    SegmentsCons(s);
    if s == [] {
      SplitCons(s);
      NonEmptyCons([], []);
    } else {
      NonEmptyCut(s);
      SubjectSegmentsAreSplit(Cut(s).1);
      assert [] + NonEmpty(Split(Cut(s).1)) == NonEmpty(Split(Cut(s).1));
    }
  }
}
