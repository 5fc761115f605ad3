/** Artist events as the pipelines pass them around, and removal of repeated artist names that
    keeps the first event of each name, as the `seen`-set loops do. */
module Events {
  import opened Calendar

  /** An artist playing on a date; the venue is empty where the record does not carry one. */
  datatype Event = Event(name: string, date: DateTime, venue: string)

  /** The artist names of the events, collected one event at a time: one name per event, in
      event order. */
  function Names(es: seq<Event>): (r: seq<string>)
    ensures |r| == |es| && forall i :: 0 <= i < |es| ==> r[i] == es[i].name
  {
    if es == [] then [] else Names(es[..|es| - 1]) + [es[|es| - 1].name]
  }

  /** No artist name occurs twice. */
  predicate NoDupNames(es: seq<Event>) {
    forall i, j :: 0 <= i < j < |es| ==> es[i].name != es[j].name
  }

  /** The events whose name has not been seen before, in their original order. */
  function DedupNames(es: seq<Event>): seq<Event>
  {
    if es == [] then []
    else
      var kept := DedupNames(es[..|es| - 1]);
      if es[|es| - 1].name in Names(kept) then kept else kept + [es[|es| - 1]]
  }

  /** The names of two lists are the names of each, in order. */
  lemma NamesAppend(a: seq<Event>, b: seq<Event>)
    ensures Names(a + b) == Names(a) + Names(b)
  {
  }

  /** The kept events are events of the input, one per name, and every name of the input is kept. */
  lemma {:induction false} DedupNamesSound(es: seq<Event>)
    ensures NoDupNames(DedupNames(es))
    ensures forall e :: e in DedupNames(es) ==> e in es
    ensures forall n :: n in Names(DedupNames(es)) <==> n in Names(es)
  {
    if es != [] {
      var init := es[..|es| - 1];
      var last := es[|es| - 1];
      DedupNamesSound(init);
      var kept := DedupNames(init);
      assert es == init + [last];
      NamesAppend(init, [last]);
      if last.name !in Names(kept) {
        NamesAppend(kept, [last]);
      }
    }
  }

  /** Each kept event is the first event of its name in the input. */
  lemma {:induction false} DedupNamesKeepsFirst(es: seq<Event>, e: Event)
    requires e in DedupNames(es)
    ensures exists i :: 0 <= i < |es| && es[i] == e && forall j :: 0 <= j < i ==> es[j].name != e.name
  {
    var init := es[..|es| - 1];
    var last := es[|es| - 1];
    var kept := DedupNames(init);
    if e in kept {
      DedupNamesKeepsFirst(init, e);
      var i :| 0 <= i < |init| && init[i] == e && forall j :: 0 <= j < i ==> init[j].name != e.name;
      forall j | 0 <= j < i ensures es[j].name != e.name {
        assert es[j] == init[j];
      }
      assert es[i] == e;
    } else {
      assert e == last && last.name !in Names(kept);
      DedupNamesSound(init);
      forall j | 0 <= j < |init| ensures es[j].name != e.name {
        assert es[j] == init[j] && Names(init)[j] == init[j].name;
      }
      assert es[|es| - 1] == e;
    }
  }

  /** Appending events whose names were all seen changes nothing. */
  lemma {:induction false} DedupNamesSeenSuffix(a: seq<Event>, b: seq<Event>)
    requires forall e :: e in b ==> e.name in Names(a)
    ensures DedupNames(a + b) == DedupNames(a)
    decreases |b|
  {
    if b == [] {
      assert a + b == a;
    } else {
      var b' := b[..|b| - 1];
      assert (a + b)[..|a + b| - 1] == a + b';
      DedupNamesSeenSuffix(a, b');
      DedupNamesSound(a);
      assert b[|b| - 1] in b;
      assert (a + b)[|a + b| - 1] == b[|b| - 1];
      assert b[|b| - 1].name in Names(DedupNames(a + b'));
    }
  }

  /** Removing repeated names a second time changes nothing. */
  lemma DedupNamesIdempotent(es: seq<Event>)
    ensures DedupNames(DedupNames(es)) == DedupNames(es)
  {
    DedupNamesSound(es);
    DedupOfNoDup(DedupNames(es));
  }

  /** A list without repeated names is left as it is. */
  lemma {:induction false} DedupOfNoDup(es: seq<Event>)
    requires NoDupNames(es)
    ensures DedupNames(es) == es
  {
    if es != [] {
      var init := es[..|es| - 1];
      DedupOfNoDup(init);
      assert es[|es| - 1].name !in Names(init);
      assert init + [es[|es| - 1]] == es;
    }
  }

  /** The same events listed twice give what they give once. */
  lemma EventsTwice(es: seq<Event>)
    ensures DedupNames(es + es) == DedupNames(es)
  {
    forall e | e in es
      ensures e.name in Names(es)
    {
      var i :| 0 <= i < |es| && es[i] == e;
    }
    DedupNamesSeenSuffix(es, es);
  }

  /** The loop in process_venue: an event is kept when its name is not yet in `seen`. */
  method Dedup(events: seq<Event>) returns (unique: seq<Event>)
    ensures unique == DedupNames(events)
  {
    var seen: set<string> := {};
    unique := [];
    for i := 0 to |events|
      invariant unique == DedupNames(events[..i])
      invariant forall n :: n in seen <==> n in Names(unique)
    {
      DedupNamesPrefix(events, i);
      if events[i].name !in seen {
        NamesSnoc(unique, events[i]);
        seen := seen + {events[i].name};
        unique := unique + [events[i]];
      }
    }
    assert events[..|events|] == events;
  }

  /** One more event of a prefix is kept exactly when its name is new. */
  lemma DedupNamesPrefix(events: seq<Event>, i: nat)
    requires i < |events|
    ensures var kept := DedupNames(events[..i]);
      DedupNames(events[..i + 1]) == if events[i].name in Names(kept) then kept else kept + [events[i]]
  {
    assert events[..i + 1][..i] == events[..i];
  }

  /** The names after one more event are the earlier ones and its own. */
  lemma NamesSnoc(es: seq<Event>, e: Event)
    ensures forall n :: n in Names(es + [e]) <==> n in Names(es) || n == e.name
  {
    NamesAppend(es, [e]);
    assert Names([e]) == [e.name];
  }
}
