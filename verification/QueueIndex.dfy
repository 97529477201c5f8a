// The two time indexes of the message queue, as values.

module QueueIndex {
  import opened Messages
  import opened Lists
  import opened HoldQueue
  import opened Topics

  // An ordered set of timed ids compares times only: it is a list with ascending times, and one
  // element at most for each time.
  datatype Timed = Timed(time: Time, id: MessageId)

  predicate Ascending(s: seq<Timed>) {
    forall i, j :: 0 <= i < j < |s| ==> s[i].time < s[j].time
  }

  ghost predicate TimeUsed(s: seq<Timed>, time: Time) {
    exists x :: x in s && x.time == time
  }

  // An element with an equal time is kept, whatever its id.
  function InsertTimed(s: seq<Timed>, t: Timed): seq<Timed> {
    if s == [] || t.time < s[0].time then [t] + s
    else if t.time == s[0].time then s
    else [s[0]] + InsertTimed(s[1..], t)
  }

  function RemoveTimed(s: seq<Timed>, time: Time): seq<Timed> {
    if s == [] then []
    else if time == s[0].time then s[1..]
    else [s[0]] + RemoveTimed(s[1..], time)
  }

  lemma AscendingCons(e: Timed, rest: seq<Timed>)
    ensures Ascending([e] + rest) <==> Ascending(rest) && forall x :: x in rest ==> e.time < x.time
  {
    var s := [e] + rest;
    assert forall i :: 0 <= i < |rest| ==> s[i + 1] == rest[i];
    if Ascending(s) {
      forall x | x in rest ensures e.time < x.time {
        var i :| 0 <= i < |rest| && rest[i] == x;
        assert s[0].time < s[i + 1].time;
      }
    }
  }

  lemma {:induction false} InsertTimedIs(s: seq<Timed>, t: Timed)
    requires Ascending(s)
    ensures Ascending(InsertTimed(s, t))
    ensures if TimeUsed(s, t.time) then InsertTimed(s, t) == s
            else |InsertTimed(s, t)| == |s| + 1 && forall x :: x in InsertTimed(s, t) <==> x == t || x in s
  {
    if s == [] {
      assert InsertTimed(s, t) == [t];
    } else {
      var e, rest := s[0], s[1..];
      assert s == [e] + rest;
      AscendingCons(e, rest);
      AscendingCons(t, s);
      InsertTimedCons(e, rest, t);
      hide Ascending, InsertTimed;
      if e.time < t.time {
        InsertTimedIs(rest, t);
        AscendingCons(e, InsertTimed(rest, t));
      }
    }
  }

  lemma InsertTimedCons(e: Timed, rest: seq<Timed>, t: Timed)
    ensures InsertTimed([e] + rest, t) ==
            if t.time < e.time then [t] + ([e] + rest)
            else if t.time == e.time then [e] + rest
            else [e] + InsertTimed(rest, t)
  {
    assert ([e] + rest)[1..] == rest;
  }

  lemma {:induction false} InsertLast(s: seq<Timed>, t: Timed)
    requires forall x :: x in s ==> x.time < t.time
    ensures InsertTimed(s, t) == s + [t]
  {
    if s != [] {
      assert s[0] in s;
      InsertLast(s[1..], t);
    }
  }

  lemma {:induction false} RemoveTimedAt(s: seq<Timed>, k: nat)
    requires Ascending(s) && k < |s|
    ensures RemoveTimed(s, s[k].time) == s[..k] + s[k + 1..]
  {
    if k > 0 {
      var rest := s[1..];
      assert forall i :: 0 <= i < |rest| ==> rest[i] == s[i + 1];
      RemoveTimedAt(rest, k - 1);
      assert [s[0]] + (rest[..k - 1] + rest[k..]) == s[..k] + s[k + 1..];
    }
  }

  lemma WithoutPlace(s: seq<Timed>, k: nat)
    requires Ascending(s) && k < |s|
    ensures var after := s[..k] + s[k + 1..];
            Ascending(after) && forall x :: x in after <==> x in s && x.time != s[k].time
  {
    var after := s[..k] + s[k + 1..];
    forall i | 0 <= i < |after| ensures after[i] == s[if i < k then i else i + 1] {
    }
    forall x | x in s && x.time != s[k].time ensures x in after {
      var i :| 0 <= i < |s| && s[i] == x;
      assert after[if i < k then i else i - 1] == x;
    }
  }

  // ----- Coherence of the indexes -----

  // Both indexes say the same, and they are about the held messages.
  ghost predicate Linked(timeId: seq<Timed>, idTime: map<MessageId, Time>, held: map<MessageId, HoldMessage>) {
    && Ascending(timeId)
    && held.Keys == idTime.Keys
    && (forall x :: x in timeId <==> x.id in idTime && idTime[x.id] == x.time)
    && (forall id :: id in held ==> held[id].Id() == id)
  }

  // The messages in the order of their times.
  function Listed(timeId: seq<Timed>, held: map<MessageId, HoldMessage>): (q: seq<HoldMessage>)
    requires forall x :: x in timeId ==> x.id in held
    ensures |q| == |timeId| && forall i :: 0 <= i < |q| ==> q[i] == held[timeId[i].id]
  {
    seq(|timeId|, i requires 0 <= i < |timeId| => held[timeId[i].id])
  }

  // Pushing keeps the indexes coherent, and their size in step with the count, exactly when the id is
  // new and the time is not in use.
  lemma PushLinks(timeId: seq<Timed>, idTime: map<MessageId, Time>, held: map<MessageId, HoldMessage>,
                  h: HoldMessage, time: Time)
    requires Linked(timeId, idTime, held)
    ensures var after := InsertTimed(timeId, Timed(time, h.Id()));
            Linked(after, idTime[h.Id() := time], held[h.Id() := h]) && |after| == |timeId| + 1 <==>
            h.Id() !in held && !TimeUsed(timeId, time)
  {
    var id, t := h.Id(), Timed(time, h.Id());
    var after, more := InsertTimed(timeId, t), idTime[h.Id() := time];
    InsertTimedIs(timeId, t);
    hide InsertTimed, Ascending;
    if !TimeUsed(timeId, time) && id in held {
      var x := Timed(idTime[id], id);
      assert x in timeId && x in after && x.time != time;
      assert !Linked(after, more, held[id := h]);
    }
  }

  // A message pushed later than all others comes last.
  lemma PushListed(timeId: seq<Timed>, idTime: map<MessageId, Time>, held: map<MessageId, HoldMessage>,
                   h: HoldMessage, time: Time)
    requires Linked(timeId, idTime, held) && h.Id() !in held
    requires forall x :: x in timeId ==> x.time < time
    ensures var after := InsertTimed(timeId, Timed(time, h.Id()));
            && (forall x :: x in after ==> x.id in held[h.Id() := h])
            && Listed(after, held[h.Id() := h]) == Listed(timeId, held) + [h]
  {
    InsertLast(timeId, Timed(time, h.Id()));
    assert forall i :: 0 <= i < |timeId| ==> timeId[i] in timeId;
  }

  // The position of a held message.
  lemma PlaceOf(timeId: seq<Timed>, idTime: map<MessageId, Time>, held: map<MessageId, HoldMessage>, id: MessageId)
    returns (k: nat)
    requires Linked(timeId, idTime, held) && id in held
    ensures k < |timeId| && timeId[k] == Timed(idTime[id], id)
  {
    assert Timed(idTime[id], id) in timeId;
    k :| 0 <= k < |timeId| && timeId[k] == Timed(idTime[id], id);
  }

  lemma RemoveLinks(timeId: seq<Timed>, idTime: map<MessageId, Time>, held: map<MessageId, HoldMessage>, k: nat)
    requires Linked(timeId, idTime, held) && k < |timeId|
    ensures var id := timeId[k].id; var q, after := Listed(timeId, held), RemoveTimed(timeId, timeId[k].time);
            && timeId[k] == Timed(idTime[id], id)
            && |after| == |timeId| - 1
            && Linked(after, idTime - {id}, held - {id})
            && Listed(after, held - {id}) == q[..k] + q[k + 1..]
            && forall x :: x in after ==> x in timeId
  {
    assert timeId[k] in timeId;
    RemovedIsLinked(timeId, idTime, held, timeId[k]);
    RemovedIsListed(timeId, held, k);
  }

  lemma RemovedIsLinked(timeId: seq<Timed>, idTime: map<MessageId, Time>, held: map<MessageId, HoldMessage>, t: Timed)
    requires Linked(timeId, idTime, held) && t in timeId
    ensures Linked(RemoveTimed(timeId, t.time), idTime - {t.id}, held - {t.id})
  {
    var k :| 0 <= k < |timeId| && timeId[k] == t;
    var after := RemoveTimed(timeId, t.time);
    RemoveTimedAt(timeId, k);
    WithoutPlace(timeId, k);
    forall x | x in timeId && x.time == t.time ensures x == t {
      SameTime(timeId, x, t);
    }
    hide RemoveTimed, Ascending;
    assert forall x :: x in after <==> x.id in idTime - {t.id} && (idTime - {t.id})[x.id] == x.time;
  }

  lemma {:induction false} RemovedIsListed(timeId: seq<Timed>, held: map<MessageId, HoldMessage>, k: nat)
    requires Ascending(timeId) && k < |timeId|
    requires forall x :: x in timeId ==> x.id in held
    requires forall x :: x in RemoveTimed(timeId, timeId[k].time) ==> x.id in held - {timeId[k].id}
    ensures var q, after := Listed(timeId, held), RemoveTimed(timeId, timeId[k].time);
            |after| == |timeId| - 1 && Listed(after, held - {timeId[k].id}) == q[..k] + q[k + 1..]
  {
    hide *;
    RemoveTimedAt(timeId, k);
    var id, after := timeId[k].id, timeId[..k] + timeId[k + 1..];
    assert forall i :: 0 <= i < |after| ==> after[i] in after;
    var q, r := Listed(timeId, held), Listed(after, held - {id});
    forall i | 0 <= i < |after| ensures r[i] == (q[..k] + q[k + 1..])[i] {
      assert after[i] == timeId[if i < k then i else i + 1];
    }
  }

  lemma SameTime(s: seq<Timed>, x: Timed, y: Timed)
    requires Ascending(s) && x in s && y in s && x.time == y.time
    ensures x == y
  {
    var i :| 0 <= i < |s| && s[i] == x;
    var j :| 0 <= j < |s| && s[j] == y;
  }

  lemma UpdateListed(timeId: seq<Timed>, idTime: map<MessageId, Time>, held: map<MessageId, HoldMessage>,
                     h: HoldMessage)
    requires Linked(timeId, idTime, held) && h.Id() in held
    ensures Linked(timeId, idTime, held[h.Id() := h])
    ensures var q, after := Listed(timeId, held), Listed(timeId, held[h.Id() := h]);
            |after| == |q| && forall i :: 0 <= i < |q| ==> after[i] == if q[i].Id() == h.Id() then h else q[i]
  {
    assert forall i :: 0 <= i < |timeId| ==> timeId[i] in timeId;
  }

  lemma ListedAt(timeId: seq<Timed>, idTime: map<MessageId, Time>, held: map<MessageId, HoldMessage>, k: nat)
    requires Linked(timeId, idTime, held) && k < |timeId|
    ensures var q := Listed(timeId, held); q[k].Id() in held && held[q[k].Id()] == q[k]
  {
    assert timeId[k] in timeId;
  }

  lemma ListedHeld(timeId: seq<Timed>, idTime: map<MessageId, Time>, held: map<MessageId, HoldMessage>)
    requires Linked(timeId, idTime, held)
    ensures forall id :: id in held ==> held[id] in Listed(timeId, held) && held[id].Id() == id
    ensures forall h :: h in Listed(timeId, held) ==> h.Id() in held && held[h.Id()] == h
  {
    var q := Listed(timeId, held);
    forall id | id in held ensures held[id] in q {
      var k := PlaceOf(timeId, idTime, held, id);
      assert q[k] == held[id];
    }
    forall h | h in q ensures h.Id() in held && held[h.Id()] == h {
      var k :| 0 <= k < |q| && q[k] == h;
      ListedAt(timeId, idTime, held, k);
    }
  }

  lemma LinkedKeys(timeId: seq<Timed>, idTime: map<MessageId, Time>, held: map<MessageId, HoldMessage>)
    requires Linked(timeId, idTime, held)
    ensures held.Keys == idTime.Keys
    ensures |Listed(timeId, held)| == |timeId|
    ensures forall id :: id in held ==> held[id].Id() == id
    ensures timeId != [] ==>
              var front := Listed(timeId, held)[0];
              front.Id() == timeId[0].id && timeId[0].id in held && front == held[timeId[0].id]
  {
    if timeId != [] {
      assert timeId[0] in timeId;
    }
  }

  // Each message is listed once.
  lemma ListedOnce(timeId: seq<Timed>, idTime: map<MessageId, Time>, held: map<MessageId, HoldMessage>)
    requires Linked(timeId, idTime, held)
    ensures NoRepeats(Ids(Listed(timeId, held)))
    ensures forall id :: id in held <==> id in Ids(Listed(timeId, held))
  {
    var ids := Ids(Listed(timeId, held));
    assert forall i :: 0 <= i < |timeId| ==> timeId[i] in timeId;
    assert |ids| == |timeId| && forall i :: 0 <= i < |ids| ==> ids[i] == timeId[i].id;
    forall i, j | 0 <= i < j < |ids| ensures ids[i] != ids[j] {
      assert timeId[i].time < timeId[j].time;
    }
    forall id | id in held ensures id in ids {
      var k := PlaceOf(timeId, idTime, held, id);
      assert ids[k] == id;
    }
  }
}
