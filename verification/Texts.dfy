// What the text of an interest means, read off its bytes.

module Texts {
  import opened Messages
  import opened Segments
  import opened Globs

  // Tab, line feed, form feed, carriage return, space.
  predicate Blank(s: Bytes) {
    forall i :: 0 <= i < |s| ==> s[i] == 9 || s[i] == 10 || s[i] == 12 || s[i] == 13 || s[i] == 32
  }

  // The piece is the core between blanks, and the core neither starts nor ends with one.
  ghost predicate TrimsTo(piece: Bytes, core: Bytes) {
    && (exists n, m :: Around(piece, core, n, m))
    && (core != [] ==> !Blank([core[0]]) && !Blank([core[|core| - 1]]))
  }

  ghost predicate Around(piece: Bytes, core: Bytes, n: nat, m: nat) {
    n <= m <= |piece| && Blank(piece[..n]) && piece[n..m] == core && Blank(piece[m..])
  }

  // A piece that is one star stands for one segment, one of two stars for one or more, any other for
  // itself without the blanks around it.
  ghost predicate PiecesMatch(pieces: seq<Bytes>, s: seq<Bytes>)
    decreases |pieces|
  {
    if pieces == [] then s == []
    else if TrimsTo(pieces[0], [42]) then s != [] && PiecesMatch(pieces[1..], s[1..])
    else if TrimsTo(pieces[0], [42, 42]) then exists k {:trigger s[k..]} :: 1 <= k <= |s| && PiecesMatch(pieces[1..], s[k..])
    else s != [] && TrimsTo(pieces[0], s[0]) && PiecesMatch(pieces[1..], s[1..])
  }

  ghost predicate Starred(piece: Bytes) {
    TrimsTo(piece, [42]) || TrimsTo(piece, [42, 42])
  }

  // After two stars comes nothing, or a piece without stars of its own.
  ghost predicate PiecesPlaced(pieces: seq<Bytes>) {
    forall i :: 0 <= i < |pieces| - 1 && TrimsTo(pieces[i], [42, 42]) ==> !Starred(pieces[i + 1])
  }

  // The pieces of a text are what is between its slashes, without the empty ones; a subject that starts
  // with a slash has an empty segment before them.
  ghost predicate TextFinds(interest: Bytes, subject: Bytes) {
    var pieces := NonEmpty(Split(interest));
    var segments := (if subject != [] && subject[0] == 47 then [[]] else []) + NonEmpty(Split(subject));
    PiecesPlaced(pieces) && PiecesMatch(pieces, segments)
  }

  // ----- Trimming -----

  lemma {:induction false} TrimStartIs(s: Bytes) returns (n: nat)
    ensures n <= |s| && Blank(s[..n]) && TrimStart(s) == s[n..]
    ensures TrimStart(s) != [] ==> !IsAsciiWhitespace(TrimStart(s)[0])
  {
    n := 0;
    if s != [] && IsAsciiWhitespace(s[0]) {
      var k := TrimStartIs(s[1..]);
      n := k + 1;
      assert s[..n] == [s[0]] + s[1..][..k];
      assert s[1..][k..] == s[n..];
    }
  }

  lemma {:induction false} TrimEndIs(s: Bytes) returns (m: nat)
    ensures m <= |s| && Blank(s[m..]) && TrimEnd(s) == s[..m]
    ensures TrimEnd(s) != [] ==> !IsAsciiWhitespace(TrimEnd(s)[|TrimEnd(s)| - 1])
    decreases |s|
  {
    m := |s|;
    if s != [] && IsAsciiWhitespace(s[|s| - 1]) {
      var init := s[..|s| - 1];
      m := TrimEndIs(init);
      assert s[m..] == init[m..] + [s[|s| - 1]];
      assert init[..m] == s[..m];
    }
  }

  lemma TrimmedIs(piece: Bytes)
    ensures TrimsTo(piece, TrimEnd(TrimStart(piece)))
  {
    var n := TrimStartIs(piece);
    var s := TrimStart(piece);
    var m := TrimEndIs(s);
    var core := TrimEnd(s);
    assert piece[n..][..m] == piece[n..n + m] && piece[n..][m..] == piece[n + m..];
    assert Around(piece, core, n, n + m);
    if core != [] {
      assert core[0] == s[0];
      assert [core[0]][0] == core[0] && [core[|core| - 1]][0] == core[|core| - 1];
    }
  }

  // A piece has one core.
  lemma OneCore(piece: Bytes, a: Bytes, b: Bytes)
    requires TrimsTo(piece, a) && TrimsTo(piece, b)
    ensures a == b
  {
    var n, m :| Around(piece, a, n, m);
    var k, l :| Around(piece, b, k, l);
    if a == [] {
      AllBlank(piece, n, m);
      CoreIsInside(piece, b, k, l);
    } else if b == [] {
      AllBlank(piece, k, l);
      CoreIsInside(piece, a, n, m);
    } else {
      CoreWithin(piece, a, n, m, b, k, l);
      CoreWithin(piece, b, k, l, a, n, m);
    }
  }

  lemma {:induction false} AllBlank(piece: Bytes, n: nat, m: nat)
    requires Around(piece, [], n, m)
    ensures Blank(piece)
  {
    assert |piece[n..m]| == 0;
    assert piece == piece[..n] + piece[m..];
  }

  lemma {:induction false} CoreIsInside(piece: Bytes, core: Bytes, k: nat, l: nat)
    requires Around(piece, core, k, l)
    ensures Blank(piece) && core != [] ==> Blank([core[0]])
  {
    assert core != [] ==> core[0] == piece[k];
  }

  // Outside of a core everything is blank.
  lemma {:induction false} OutsideIsBlank(piece: Bytes, core: Bytes, k: nat, l: nat, i: nat)
    requires Around(piece, core, k, l) && i < |piece|
    ensures i < k || l <= i ==> Blank([piece[i]])
  {
    assert i < k ==> piece[..k][i] == piece[i];
    assert l <= i ==> piece[l..][i - l] == piece[i];
  }

  // So the first and the last byte of one core are inside of the other.
  lemma {:induction false} CoreWithin(piece: Bytes, a: Bytes, n: nat, m: nat, b: Bytes, k: nat, l: nat)
    requires Around(piece, a, n, m) && Around(piece, b, k, l) && a != []
    requires !Blank([a[0]]) && !Blank([a[|a| - 1]])
    ensures k <= n && m <= l
  {
    assert a[0] == piece[n] && a[|a| - 1] == piece[m - 1];
    OutsideIsBlank(piece, b, k, l, n);
    OutsideIsBlank(piece, b, k, l, m - 1);
  }

  lemma TrimsToIff(piece: Bytes, core: Bytes)
    ensures TrimsTo(piece, core) <==> core == TrimEnd(TrimStart(piece))
  {
    TrimmedIs(piece);
    if TrimsTo(piece, core) {
      OneCore(piece, core, TrimEnd(TrimStart(piece)));
    }
  }

  // What a piece is taken for.
  lemma ClassifyIff(piece: Bytes)
    ensures Classify(piece).Any? <==> TrimsTo(piece, [42])
    ensures Classify(piece).RecursiveAny? <==> TrimsTo(piece, [42, 42])
    ensures Classify(piece).Specific? ==> forall core :: core == Classify(piece).seg <==> TrimsTo(piece, core)
  {
    TrimsToIff(piece, [42]);
    TrimsToIff(piece, [42, 42]);
    forall core ensures TrimsTo(piece, core) <==> core == TrimEnd(TrimStart(piece)) {
      TrimsToIff(piece, core);
    }
  }

  lemma {:induction false} PiecesMatchIff(pieces: seq<Bytes>, s: seq<Bytes>)
    ensures PiecesMatch(pieces, s) <==> GlobMatch(ClassifyAll(pieces), s)
    decreases |pieces|
  {
    hide TrimsTo, Classify;
    if pieces != [] {
      var rest := pieces[1..];
      assert ClassifyAll(pieces)[1..] == ClassifyAll(rest);
      ClassifyIff(pieces[0]);
      forall k {:trigger s[k..]} | 0 <= k <= |s| ensures PiecesMatch(rest, s[k..]) <==> GlobMatch(ClassifyAll(rest), s[k..]) {
        PiecesMatchIff(rest, s[k..]);
      }
    }
  }

  lemma PiecesPlacedIff(pieces: seq<Bytes>)
    ensures PiecesPlaced(pieces) <==> WellPlaced(ClassifyAll(pieces))
  {
    hide TrimsTo, Classify;
    var p := ClassifyAll(pieces);
    forall i | 0 <= i < |pieces|
      ensures p[i].RecursiveAny? <==> TrimsTo(pieces[i], [42, 42])
      ensures p[i].Specific? <==> !Starred(pieces[i])
    {
      ClassifyIff(pieces[i]);
    }
    if PiecesPlaced(pieces) {
      forall i | 0 <= i < |p| - 1 && p[i].RecursiveAny? ensures p[i + 1].Specific? {
        assert TrimsTo(pieces[i], [42, 42]);
      }
    } else {
      var i :| 0 <= i < |pieces| - 1 && TrimsTo(pieces[i], [42, 42]) && Starred(pieces[i + 1]);
      assert p[i].RecursiveAny? && !p[i + 1].Specific?;
    }
  }

  // The search finds an interest by a subject exactly when their texts say so.
  lemma SearchIsTextual(interest: Bytes, subject: Bytes)
    ensures SearchMatch(InterestSegments(interest), SubjectSegments(subject)) <==> TextFinds(interest, subject)
  {
    SearchIsPlacedGlob(InterestSegments(interest), SubjectSegments(subject));
    SubjectSegmentsAreSplit(subject);
    PiecesMatchIff(NonEmpty(Split(interest)), SubjectSegments(subject));
    PiecesPlacedIff(NonEmpty(Split(interest)));
  }
}
