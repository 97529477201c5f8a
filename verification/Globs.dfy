// What an interest means, and what the index search makes of it.

module Globs {
  import opened Messages
  import opened Segments

  // The meaning of an interest: `*` stands for one segment, `**` for one or more.
  predicate GlobMatch(p: seq<Pattern>, s: seq<Bytes>)
    decreases |p|
  {
    if p == [] then s == []
    else match p[0]
      case Specific(seg) => s != [] && s[0] == seg && GlobMatch(p[1..], s[1..])
      case Any => s != [] && GlobMatch(p[1..], s[1..])
      case RecursiveAny => exists k {:trigger s[k..]} :: 1 <= k <= |s| && GlobMatch(p[1..], s[k..])
  }

  // What the search follows: after `**` it stops at the end of the interest, or goes on with a
  // literal child; it never looks at wildcards below `**`.
  predicate SearchMatch(p: seq<Pattern>, s: seq<Bytes>)
    decreases |p|
  {
    if p == [] then s == []
    else if s == [] then false
    else match p[0]
      case Specific(seg) => s[0] == seg && SearchMatch(p[1..], s[1..])
      case Any => SearchMatch(p[1..], s[1..])
      case RecursiveAny => |p| == 1 || (p[1].Specific? && SearchBelow(p[1..], s[1..]))
  }

  // A literal-headed pattern below `**` is tried at every later position.
  predicate SearchBelow(p: seq<Pattern>, rest: seq<Bytes>)
    requires p != [] && p[0].Specific?
    decreases |p|, |rest|
  {
    rest != [] && ((rest[0] == p[0].seg && SearchMatch(p[1..], rest[1..])) || SearchBelow(p, rest[1..]))
  }

  predicate WellPlaced(p: seq<Pattern>) {
    forall i :: 0 <= i < |p| - 1 && p[i].RecursiveAny? ==> p[i + 1].Specific?
  }

  lemma {:induction false} SearchBelowIsSome(p: seq<Pattern>, rest: seq<Bytes>)
    requires p != [] && p[0].Specific?
    ensures SearchBelow(p, rest) <==>
            exists k {:trigger rest[k..]} :: 0 <= k < |rest| && SearchMatch(p, rest[k..])
    decreases |rest|
  {
    if rest != [] {
      SearchBelowIsSome(p, rest[1..]);
      assert rest[0..] == rest;
      if SearchBelow(p, rest[1..]) {
        var k :| 0 <= k < |rest[1..]| && SearchMatch(p, rest[1..][k..]);
        assert rest[1..][k..] == rest[k + 1..];
      }
      if k :| 0 <= k < |rest| && SearchMatch(p, rest[k..]) {
        if k > 0 {
          assert rest[1..][k - 1..] == rest[k..];
        }
      }
    }
  }

  // The search never reports what the glob does not match.
  lemma {:induction false} SearchIsSound(p: seq<Pattern>, s: seq<Bytes>)
    requires SearchMatch(p, s)
    ensures GlobMatch(p, s)
    decreases |p|
  {
    if p != [] {
      match p[0]
      case Specific(_) => SearchIsSound(p[1..], s[1..]);
      case Any => SearchIsSound(p[1..], s[1..]);
      case RecursiveAny =>
        if |p| == 1 {
          assert GlobMatch(p[1..], s[|s|..]);
        } else {
          SearchBelowIsSome(p[1..], s[1..]);
          var k :| 0 <= k < |s[1..]| && SearchMatch(p[1..], s[1..][k..]);
          assert s[1..][k..] == s[k + 1..];
          SearchIsSound(p[1..], s[k + 1..]);
        }
    }
  }

  // It reports everything when each `**` is last or followed by a literal.
  lemma {:induction false} SearchIsComplete(p: seq<Pattern>, s: seq<Bytes>)
    requires GlobMatch(p, s) && WellPlaced(p)
    ensures SearchMatch(p, s)
    decreases |p|
  {
    if p != [] {
      assert WellPlaced(p[1..]) by {
        forall i | 0 <= i < |p[1..]| - 1 && p[1..][i].RecursiveAny? ensures p[1..][i + 1].Specific? {
          assert p[i + 1].RecursiveAny?;
        }
      }
      match p[0]
      case Specific(_) => SearchIsComplete(p[1..], s[1..]);
      case Any => SearchIsComplete(p[1..], s[1..]);
      case RecursiveAny =>
        var k :| 1 <= k <= |s| && GlobMatch(p[1..], s[k..]);
        if |p| > 1 {
          assert p[0 + 1].Specific?;
          SearchIsComplete(p[1..], s[k..]);
          assert s[1..][k - 1..] == s[k..];
          SearchBelowIsSome(p[1..], s[1..]);
        }
    }
  }

  // An interest with a wildcard right after `**` matches nothing at all.
  lemma {:induction false} MisplacedNeverFound(p: seq<Pattern>, s: seq<Bytes>)
    requires SearchMatch(p, s)
    ensures WellPlaced(p)
    decreases |p|
  {
    if p != [] {
      if p[0].RecursiveAny? && |p| > 1 {
        SearchBelowIsSome(p[1..], s[1..]);
        var k :| 0 <= k < |s[1..]| && SearchMatch(p[1..], s[1..][k..]);
        MisplacedNeverFound(p[1..], s[1..][k..]);
      } else if |p| > 1 {
        MisplacedNeverFound(p[1..], s[1..]);
      }
      forall i | 0 <= i < |p| - 1 && p[i].RecursiveAny? ensures p[i + 1].Specific? {
        if i > 0 {
          assert p[1..][i - 1] == p[i] && p[1..][i] == p[i + 1];
        }
      }
    }
  }

  // A subject that the glob matches: every wildcard stands for one segment.
  function Sample(p: seq<Pattern>): (s: seq<Bytes>)
    ensures |s| == |p| && GlobMatch(p, s)
  {
    if p == [] then []
    else
      var rest := Sample(p[1..]);
      var s := [if p[0].Specific? then p[0].seg else [STAR]] + rest;
      assert s[1..] == rest;
      s
  }

  // The exact meaning of the search: the glob, for interests in which each `**` is last or followed
  // by a literal, and nothing for the others.
  lemma SearchIsPlacedGlob(p: seq<Pattern>, s: seq<Bytes>)
    ensures SearchMatch(p, s) <==> WellPlaced(p) && GlobMatch(p, s)
  {
    if SearchMatch(p, s) {
      SearchIsSound(p, s);
      MisplacedNeverFound(p, s);
    } else if WellPlaced(p) && GlobMatch(p, s) {
      SearchIsComplete(p, s);
    }
  }

  ghost predicate SearchIsGlob(p: seq<Pattern>) {
    forall s :: SearchMatch(p, s) <==> GlobMatch(p, s)
  }

  // The interests for which the search agrees with the glob on every subject are exactly those.
  lemma SearchIsGlobIff(p: seq<Pattern>)
    ensures SearchIsGlob(p) <==> WellPlaced(p)
  {
    forall s ensures SearchMatch(p, s) <==> WellPlaced(p) && GlobMatch(p, s) {
      SearchIsPlacedGlob(p, s);
    }
    assert SearchIsGlob(p) ==> SearchMatch(p, Sample(p));
  }

  // ----- Interests and subjects with the same text -----

  predicate Literal(seg: Bytes) {
    Classify(seg) == Specific(seg)
  }

  lemma {:induction false} LiteralsMatch(segs: seq<Bytes>, s: seq<Bytes>)
    requires forall seg :: seg in segs ==> Literal(seg)
    ensures SearchMatch(ClassifyAll(segs), s) <==> segs == s
  {
    if segs != [] && s != [] {
      assert ClassifyAll(segs)[1..] == ClassifyAll(segs[1..]);
      LiteralsMatch(segs[1..], s[1..]);
      assert segs == [segs[0]] + segs[1..] && s == [s[0]] + s[1..];
      assert segs[0] in segs;
    }
  }

  // A wildcard-free interest is found by the subject with the same text unless the text starts with
  // a slash: the subject then has an empty first segment and the interest has not.
  lemma SameTextFoundIff(text: Bytes)
    requires forall seg :: seg in NonEmpty(Split(text)) ==> Literal(seg)
    ensures SearchMatch(InterestSegments(text), SubjectSegments(text)) <==> !(text != [] && text[0] == SLASH)
  {
    SubjectSegmentsAreSplit(text);
    LiteralsMatch(NonEmpty(Split(text)), SubjectSegments(text));
    if text != [] && text[0] == SLASH {
      assert |SubjectSegments(text)| == |NonEmpty(Split(text))| + 1;
    } else {
      assert SubjectSegments(text) == NonEmpty(Split(text));
    }
  }
}
