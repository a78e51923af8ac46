/**
  scripts/probe_workflow_journal.py: the append-only, hash-chained audit journal.
  Events carry data of any type D.  The hash is a parameter; where its being
  injective matters, that is a hypothesis.
 */
module Journal {
  import opened Prelude

  datatype EventType = Begin | Finish | Abandon | Reconcile

  /** What makes two events the same transition report (`_semantic_identity`). */
  datatype Entry<D> = Entry(kind: EventType, incident: string, session: string, data: D)

  datatype Unsigned<D> = Unsigned(sequence: nat, recordedAt: int, entry: Entry<D>, previous: Option<string>)

  datatype Event<D> = Event(body: Unsigned<D>, hash: string)

  type Hash<!D> = Unsigned<D> -> string

  function HeadHash<D>(events: seq<Event<D>>): (r: Option<string>)
  {
    if events == [] then None else Some(events[|events| - 1].hash)
  }

  predicate Linked<D(==)>(h: Hash<D>, events: seq<Event<D>>, i: nat)
    requires i < |events|
  {
    && events[i].body.sequence == i + 1
    && events[i].body.previous == HeadHash(events[..i])
    && events[i].hash == h(events[i].body)
  }

  /** Every event carries its own number, its predecessor's hash and its own hash. */
  predicate Verified<D(==)>(h: Hash<D>, events: seq<Event<D>>)
  {
    forall i :: 0 <= i < |events| ==> Linked(h, events, i)
  }

  predicate SameTransition<D>(a: Entry<D>, b: Entry<D>)
  {
    a.kind == b.kind && a.session == b.session
  }

  /** At most one entry per transition of a session. */
  ghost predicate OncePerTransition<D>(entries: seq<Entry<D>>)
  {
    forall i, j :: 0 <= i < j < |entries| ==>
      entries[i].kind != entries[j].kind || entries[i].session != entries[j].session
  }

  function Entries<D>(events: seq<Event<D>>): (r: seq<Entry<D>>)
    ensures |r| == |events|
  {
    seq(|events|, i requires 0 <= i < |events| => events[i].body.entry)
  }

  /** `verify_probe_workflow_journal`: checks the chain event by event and returns the head hash. */
  method Verify<D(==)>(h: Hash<D>, events: seq<Event<D>>) returns (r: Result<Option<string>>)
    ensures r.Ok? <==> Verified(h, events)
    ensures r.Ok? ==> r.value == HeadHash(events)
  {
    var previous: Option<string> := None;
    for index := 0 to |events|
      invariant previous == HeadHash(events[..index])
      invariant forall i :: 0 <= i < index ==> Linked(h, events, i)
    {
      var event := events[index];
      if event.body.sequence != index + 1 || event.body.previous != previous || event.hash != h(event.body) {
        assert !Linked(h, events, index);
        return Raised;
      }
      previous := Some(event.hash);
    }
    assert events[..|events|] == events;
    return Ok(previous);
  }

  datatype Decision = New | Recorded(index: nat) | Conflict

  /** Positions of the entries that report the same transition. */
  function Reports<D>(entries: seq<Entry<D>>, e: Entry<D>): (r: seq<nat>)
    ensures forall i :: i in r <==> 0 <= i < |entries| && SameTransition(entries[i], e)
  {
    if entries == [] then []
    else
      var n := |entries| - 1;
      var rest := Reports(entries[..n], e);
      if SameTransition(entries[n], e) then rest + [n] else rest
  }

  function Decide<D(==)>(entries: seq<Entry<D>>, e: Entry<D>): (r: Decision)
    ensures r.New? <==> forall i :: 0 <= i < |entries| ==> entries[i].kind != e.kind || entries[i].session != e.session
    ensures forall n: nat :: r == Recorded(n) <==>
              && n < |entries| && entries[n] == e
              && forall i :: 0 <= i < |entries| && entries[i].kind == e.kind && entries[i].session == e.session ==>
                   i == n
  {
    var same := Reports(entries, e);
    if same == [] then New
    else
      assert same[0] in same;
      ReportedOnce(entries, e);
      if |same| == 1 && entries[same[0]] == e then Recorded(same[0]) else Conflict
  }

  /** There is one report exactly when all positions that report the transition are the same. */
  lemma {:induction false} ReportedOnce<D>(entries: seq<Entry<D>>, e: Entry<D>)
    ensures var same := Reports(entries, e);
            same != [] ==>
              (|same| == 1 <==> forall i :: 0 <= i < |entries| && SameTransition(entries[i], e) ==> i == same[0])
    decreases |entries|
  {
    if entries != [] {
      var n := |entries| - 1;
      var rest := Reports(entries[..n], e);
      ReportedOnce(entries[..n], e);
      if rest != [] {
        assert rest[0] in rest;
        assert forall i :: 0 <= i < n ==> entries[..n][i] == entries[i];
      }
    }
  }

  function Sign<D>(h: Hash<D>, events: seq<Event<D>>, e: Entry<D>, at: int): Event<D>
  {
    var body := Unsigned(|events| + 1, at, e, HeadHash(events));
    Event(body, h(body))
  }

  /** The journal after an append: extended, or exactly as it was. */
  function Appended<D(==)>(h: Hash<D>, events: seq<Event<D>>, e: Entry<D>, at: int): seq<Event<D>>
  {
    if e.incident != "" && Verified(h, events) && Decide(Entries(events), e).New? then events + [Sign(h, events, e, at)]
    else events
  }

  class JournalFile<D(==)> {
    const hash: Hash<D>
    var events: seq<Event<D>>

    constructor (hash: Hash<D>)
      ensures this.hash == hash && events == []
    {
      this.hash := hash;
      events := [];
    }

    /** `append_probe_workflow_event`; the result says whether the event was already recorded. */
    method Append(e: Entry<D>, at: int) returns (r: Result<(Event<D>, bool)>)
      modifies this
      ensures events == Appended(hash, old(events), e, at)
      ensures r.Raised? <==>
                e.incident == "" || !Verified(hash, old(events)) || Decide(Entries(old(events)), e).Conflict?
      ensures r.Ok? ==> r.value.0 in events && r.value.0.body.entry == e
      ensures r.Ok? ==> (r.value.1 <==> events == old(events))
      ensures r.Ok? && !r.value.1 ==> events == old(events) + [r.value.0] && r.value.0.body.recordedAt == at
    {
      if e.incident == "" { return Raised; }
      var verified := Verify(hash, events);
      if verified.Raised? { return Raised; }
      match Decide(Entries(events), e)
      case Conflict => return Raised;
      case Recorded(i) => return Ok((events[i], true));
      case New =>
        var event := Sign(hash, events, e, at);
        events := events + [event];
        return Ok((event, false));
    }
  }

  // ----- laws

  lemma AppendedKeeps<D>(h: Hash<D>, events: seq<Event<D>>, e: Entry<D>, at: int)
    requires Verified(h, events) && OncePerTransition(Entries(events))
    ensures var after := Appended(h, events, e, at);
            events <= after && Verified(h, after) && OncePerTransition(Entries(after))
  {
    var after := Appended(h, events, e, at);
    if after != events {
      assert Entries(after) == Entries(events) + [e];
      forall i | 0 <= i < |after| ensures Linked(h, after, i) {
        assert after[..i] == events[..i];
        if i < |events| { assert Linked(h, events, i); } else { assert events[..i] == events; }
      }
    }
  }

  /** What one request to append holds. */
  datatype Request<D> = Request(entry: Entry<D>, at: int)

  function Run<D(==)>(h: Hash<D>, events: seq<Event<D>>, requests: seq<Request<D>>): seq<Event<D>>
    decreases |requests|
  {
    if requests == [] then events
    else Run(h, Appended(h, events, requests[0].entry, requests[0].at), requests[1..])
  }

  /** Any run of appends keeps the old journal as a prefix, verifiable, with one event per transition. */
  lemma {:induction false} RunKeeps<D>(h: Hash<D>, events: seq<Event<D>>, requests: seq<Request<D>>)
    requires Verified(h, events) && OncePerTransition(Entries(events))
    ensures var after := Run(h, events, requests);
            events <= after && Verified(h, after) && OncePerTransition(Entries(after))
    decreases |requests|
  {
    if requests != [] {
      AppendedKeeps(h, events, requests[0].entry, requests[0].at);
      RunKeeps(h, Appended(h, events, requests[0].entry, requests[0].at), requests[1..]);
    }
  }

  lemma {:induction false} NoReports<D>(entries: seq<Entry<D>>, e: Entry<D>)
    requires forall i :: 0 <= i < |entries| ==> !SameTransition(entries[i], e)
    ensures Reports(entries, e) == []
    decreases |entries|
  {
    if entries != [] { NoReports(entries[..|entries| - 1], e); }
  }

  lemma {:induction false} OneReport<D>(entries: seq<Entry<D>>, e: Entry<D>, i: nat)
    requires OncePerTransition(entries) && i < |entries| && SameTransition(entries[i], e)
    ensures Reports(entries, e) == [i]
    decreases |entries|
  {
    var n := |entries| - 1;
    if i < n {
      OneReport(entries[..n], e, i);
      assert !SameTransition(entries[i], entries[n]);
    } else {
      forall j | 0 <= j < n ensures !SameTransition(entries[j], e) {
        assert !SameTransition(entries[j], entries[n]);
      }
      NoReports(entries[..n], e);
    }
  }

  /** Later attempts at a reported transition: the same report is a no-op, any other is rejected. */
  lemma RepeatOrConflict<D>(h: Hash<D>, events: seq<Event<D>>, e: Entry<D>, i: nat, at: int)
    requires OncePerTransition(Entries(events)) && i < |events|
    requires events[i].body.entry.kind == e.kind && events[i].body.entry.session == e.session
    ensures Decide(Entries(events), e) == if events[i].body.entry == e then Recorded(i) else Conflict
    ensures Appended(h, events, e, at) == events
  {
    OneReport(Entries(events), e, i);
  }

  ghost predicate Injective<D(!new)>(h: Hash<D>)
  {
    forall x, y :: h(x) == h(y) ==> x == y
  }

  /** Under an injective hash the head hash pins the whole journal. */
  lemma {:induction false} HeadPinsJournal<D(!new)>(h: Hash<D>, a: seq<Event<D>>, b: seq<Event<D>>)
    requires Injective(h) && Verified(h, a) && Verified(h, b) && HeadHash(a) == HeadHash(b)
    ensures a == b
    decreases |a|
  {
    if a != [] {
      var m, n := |a| - 1, |b| - 1;
      assert Linked(h, a, m) && Linked(h, b, n);
      assert a[m].body == b[n].body && m == n;
      PrefixVerified(h, a, m);
      PrefixVerified(h, b, n);
      HeadPinsJournal(h, a[..m], b[..n]);
      assert a == a[..m] + [a[m]] && b == b[..n] + [b[n]];
    }
  }

  lemma PrefixVerified<D>(h: Hash<D>, events: seq<Event<D>>, n: nat)
    requires Verified(h, events) && n <= |events|
    ensures Verified(h, events[..n])
  {
    forall i | 0 <= i < n ensures Linked(h, events[..n], i) {
      assert events[..n][..i] == events[..i];
      assert Linked(h, events, i);
    }
  }
}
