/**
  Start-up of the telemetry extension (src/extension.ts, `activate`): the
  exporters from the configuration are resolved against the global list of
  active events, their ids are collected for the consent message, and one
  listener is started for every (exporter, producer) pair the exporter asks for.
 */
module Extension {
  import opened Wrappers

  /** An entry of an active-event list; only its `name` is consulted here. */
  datatype ActiveEvent = ActiveEvent(name: string)

  /** The `args` block of an exporter descriptor; only its `id` is consulted here. */
  datatype ExporterArgs = ExporterArgs(id: Option<string>)

  /** An exporter descriptor from `telemetry.exporters`. */
  datatype Exporter = Exporter(args: Option<ExporterArgs>, activeEvents: Option<seq<ActiveEvent>>)

  /** A listener started by `new producer().listen(context, exporter)`. */
  datatype Listener = Listener(exporter: Exporter, producer: string)

  /** `b` contains the elements of `a` in the same order, possibly with others in between. */
  predicate IsSubsequence<T(==)>(a: seq<T>, b: seq<T>)
    decreases |b|
  {
    if a == [] then true
    else if b == [] then false
    else if a[0] == b[0] then IsSubsequence(a[1..], b[1..])
    else IsSubsequence(a, b[1..])
  }

  // ---------------------------------------------------------------------
  // Exporter resolution (`processedExporters`)
  // ---------------------------------------------------------------------

  /** A list is truthy and has a truthy length: present and non-empty. */
  predicate NonEmpty(events: Option<seq<ActiveEvent>>) {
    events.Some? && |events.value| > 0
  }

  /** The `map` callback: an exporter without its own list takes the global one.
      An explicit empty list is truthy in the source, so it is kept as it is. */
  function WithDefault(global: seq<ActiveEvent>, e: Exporter): (r: Exporter)
    ensures r.args == e.args && r.activeEvents.Some?
    ensures e.activeEvents.None? ==> r.activeEvents == Some(global)
    ensures e.activeEvents.Some? ==> r == e
  {
    if e.activeEvents.None? then e.(activeEvents := Some(global)) else e
  }

  /** The branch taken when the global list is non-empty. */
  function ApplyGlobal(global: seq<ActiveEvent>, es: seq<Exporter>): (r: seq<Exporter>)
    ensures |r| == |es|
    ensures forall i :: 0 <= i < |es| && es[i].activeEvents.None? ==>
              r[i].activeEvents == Some(global) && r[i].args == es[i].args
    ensures forall i :: 0 <= i < |es| && es[i].activeEvents.Some? ==> r[i] == es[i]
  {
    seq(|es|, i requires 0 <= i < |es| => WithDefault(global, es[i]))
  }

  /** The branch taken otherwise: keep the exporters with a non-empty list of their own. */
  function KeepConfigured(es: seq<Exporter>): (r: seq<Exporter>)
    ensures forall e :: e in r ==> NonEmpty(e.activeEvents)
    ensures forall e :: multiset(r)[e] == if NonEmpty(e.activeEvents) then multiset(es)[e] else 0
    ensures IsSubsequence(r, es)
  {
    if es == [] then []
    else
      var rest := KeepConfigured(es[1..]);
      assert es == [es[0]] + es[1..];
      if NonEmpty(es[0].activeEvents) then [es[0]] + rest
      else
        assert rest != [] ==> rest[0] in rest && rest[0] != es[0];
        rest
  }

  /** `processedExporters`: undefined exactly when `exporters` is; every resolved
      exporter has its list populated. */
  function ResolveExporters(global: Option<seq<ActiveEvent>>, exporters: Option<seq<Exporter>>)
    : (r: Option<seq<Exporter>>)
    ensures r.Some? <==> exporters.Some?
    ensures r.Some? ==> forall e :: e in r.value ==> e.activeEvents.Some?
    ensures r.Some? && NonEmpty(global) ==> |r.value| == |exporters.value|
    ensures r.Some? && !NonEmpty(global) ==>
              IsSubsequence(r.value, exporters.value) && forall e :: e in r.value ==> NonEmpty(e.activeEvents)
    // the filter keeps every exporter with a non-empty list, as often as it occurs
    ensures r.Some? && !NonEmpty(global) ==>
              forall e :: multiset(r.value)[e] == if NonEmpty(e.activeEvents) then multiset(exporters.value)[e] else 0
  {
    if exporters.None? then None
    else if NonEmpty(global) then
      var r := ApplyGlobal(global.value, exporters.value);
      assert forall e :: e in r ==> e.activeEvents.Some? by {
        forall e | e in r ensures e.activeEvents.Some? {
          var i :| 0 <= i < |r| && r[i] == e;
        }
      }
      Some(r)
    else Some(KeepConfigured(exporters.value))
  }

  /** With a non-empty global list, an exporter whose list is absent gets exactly
      the global list, and one with a list of its own, even an empty one, is
      unchanged; order and length are kept. */
  lemma GlobalBranch(global: seq<ActiveEvent>, es: seq<Exporter>, i: nat)
    requires |global| > 0 && i < |es|
    ensures var r := ResolveExporters(Some(global), Some(es)).value;
            && |r| == |es|
            && (es[i].activeEvents.None? ==> r[i].activeEvents == Some(global) && r[i].args == es[i].args)
            && (es[i].activeEvents.Some? ==> r[i] == es[i])
  {
  }

  // ---------------------------------------------------------------------
  // `exporterIds`
  // ---------------------------------------------------------------------

  /** `each.args?.id`. */
  function ArgsId(e: Exporter): (id: Option<string>) {
    if e.args.Some? then e.args.value.id else None
  }

  /** The defined ids of the exporters, in order. Its own contract is only a
      bound; what it collects, and in which order, is stated by IdsOfComplete,
      IdsOfSound and IdsOfAppend below. */
  function IdsOf(es: seq<Exporter>): (ids: seq<string>)
    ensures |ids| <= |es|
  {
    if es == [] then []
    else
      match ArgsId(es[0])
      case Some(id) => [id] + IdsOf(es[1..])
      case None => IdsOf(es[1..])
  }

  /** Every defined id of an exporter is among the collected ids. */
  lemma {:induction false} IdsOfComplete(es: seq<Exporter>, i: nat)
    requires i < |es| && ArgsId(es[i]).Some?
    ensures ArgsId(es[i]).value in IdsOf(es)
  {
    if i > 0 {
      IdsOfComplete(es[1..], i - 1);
    }
  }

  /** Every collected id is the defined id of some exporter. */
  lemma {:induction false} IdsOfSound(es: seq<Exporter>, id: string) returns (i: nat)
    requires id in IdsOf(es)
    ensures i < |es| && ArgsId(es[i]) == Some(id)
  {
    if ArgsId(es[0]) == Some(id) {
      i := 0;
    } else {
      var j := IdsOfSound(es[1..], id);
      i := j + 1;
    }
  }

  /** `exporterIds`: undefined when the resolved exporters are. */
  function ExporterIds(processed: Option<seq<Exporter>>): (r: Option<seq<string>>)
    ensures r.Some? <==> processed.Some?
  {
    if processed.Some? then Some(IdsOf(processed.value)) else None
  }

  /** The ids are collected in exporter order: the ids of a concatenation are
      the concatenation of the ids. */
  lemma {:induction false} IdsOfAppend(a: seq<Exporter>, b: seq<Exporter>)
    ensures IdsOf(a + b) == IdsOf(a) + IdsOf(b)
  {
    if a == [] {
      assert a + b == b;
    } else {
      var ab := a + b;
      assert ab[0] == a[0] && ab[1..] == a[1..] + b;
      IdsOfAppend(a[1..], b);
      if ArgsId(a[0]).Some? {
        var x := [ArgsId(a[0]).value];
        assert IdsOf(ab) == x + IdsOf(a[1..] + b);
        assert IdsOf(a) == x + IdsOf(a[1..]);
        assert x + (IdsOf(a[1..]) + IdsOf(b)) == (x + IdsOf(a[1..])) + IdsOf(b);
      } else {
        assert IdsOf(ab) == IdsOf(a[1..] + b);
        assert IdsOf(a) == IdsOf(a[1..]);
      }
    }
  }

  // ---------------------------------------------------------------------
  // Producer dispatch
  // ---------------------------------------------------------------------

  /** `activeEvents.map((o) => o.name)`. */
  function Names(events: seq<ActiveEvent>): (r: seq<string>) {
    seq(|events|, i requires 0 <= i < |events| => events[i].name)
  }

  /** The dispatch test: the exporter has a list and the producer's id is one of its names. */
  predicate Listens(e: Exporter, producer: string) {
    e.activeEvents.Some? && producer in Names(e.activeEvents.value)
  }

  /** The listeners the inner loop starts for one exporter, in producer order. */
  function ListenersOf(e: Exporter, producers: seq<string>): (r: seq<Listener>) {
    if producers == [] then []
    else
      var p := producers[|producers| - 1];
      ListenersOf(e, producers[..|producers| - 1]) + (if Listens(e, p) then [Listener(e, p)] else [])
  }

  /** The listeners both loops start, exporter-major. */
  function Dispatch(es: seq<Exporter>, producers: seq<string>): (r: seq<Listener>) {
    if es == [] then []
    else Dispatch(es[..|es| - 1], producers) + ListenersOf(es[|es| - 1], producers)
  }

  /** For one exporter, a listener is started for a producer exactly when the
      producer is in the collection and the exporter listens to it. */
  lemma {:induction false} ListenersOfMembers(e: Exporter, producers: seq<string>, l: Listener)
    ensures l in ListenersOf(e, producers) <==> l.exporter == e && l.producer in producers && Listens(e, l.producer)
  {
    if producers != [] {
      var p := producers[|producers| - 1];
      ListenersOfMembers(e, producers[..|producers| - 1], l);
      assert producers == producers[..|producers| - 1] + [p];
    }
  }

  /** A listener (exporter, producer) is started exactly when the exporter is one
      of the resolved exporters, the producer is in the collection, and the
      exporter listens to it. */
  lemma {:induction false} DispatchMembers(es: seq<Exporter>, producers: seq<string>, l: Listener)
    ensures l in Dispatch(es, producers) <==> l.exporter in es && l.producer in producers && Listens(l.exporter, l.producer)
  {
    if es != [] {
      var last := es[|es| - 1];
      DispatchMembers(es[..|es| - 1], producers, l);
      ListenersOfMembers(last, producers, l);
      assert es == es[..|es| - 1] + [last];
    }
  }

  /** Exporter-major order: the listeners of a concatenation of exporters are
      those of the first part followed by those of the second. */
  lemma {:induction false} DispatchAppend(a: seq<Exporter>, b: seq<Exporter>, producers: seq<string>)
    ensures Dispatch(a + b, producers) == Dispatch(a, producers) + Dispatch(b, producers)
  {
    if b == [] {
      assert a + b == a;
    } else {
      var b' := b[..|b| - 1];
      DispatchAppend(a, b', producers);
      assert (a + b)[..|a + b| - 1] == a + b' && (a + b)[|a + b| - 1] == b[|b| - 1];
    }
  }

  /** Producer-minor order: one exporter's listeners follow the order of the producers. */
  lemma {:induction false} ListenersOfAppend(e: Exporter, p: seq<string>, q: seq<string>)
    ensures ListenersOf(e, p + q) == ListenersOf(e, p) + ListenersOf(e, q)
  {
    if q == [] {
      assert p + q == p;
    } else {
      var q' := q[..|q| - 1];
      ListenersOfAppend(e, p, q');
      assert (p + q)[..|p + q| - 1] == p + q';
    }
  }

  /** An exporter with an empty (or absent) list starts no listeners. */
  lemma {:induction false} EmptyListNoListeners(e: Exporter, producers: seq<string>)
    requires !NonEmpty(e.activeEvents)
    ensures ListenersOf(e, producers) == []
  {
    if producers != [] {
      EmptyListNoListeners(e, producers[..|producers| - 1]);
    }
  }

  /** With a non-empty global list, an exporter that brought an explicit empty
      list keeps it and is given no listener at all. */
  lemma EmptyOverrideIsSilent(global: seq<ActiveEvent>, es: seq<Exporter>, i: nat, producers: seq<string>)
    requires |global| > 0 && i < |es| && es[i].activeEvents == Some([])
    ensures var r := ResolveExporters(Some(global), Some(es)).value;
            r[i] == es[i] && forall l :: l in Dispatch(r, producers) ==> l.exporter != es[i]
  {
    var r := ResolveExporters(Some(global), Some(es)).value;
    forall l | l in Dispatch(r, producers) ensures l.exporter != es[i] {
      DispatchMembers(r, producers, l);
    }
  }

  /** The part of `activate` that this model covers: resolve the exporters,
      collect their ids, and run the nested loops that start the listeners. */
  method Activate(global: Option<seq<ActiveEvent>>, exporters: Option<seq<Exporter>>, producers: seq<string>)
    returns (ids: Option<seq<string>>, started: seq<Listener>)
    ensures ids == ExporterIds(ResolveExporters(global, exporters))
    ensures exporters.None? ==> ids.None? && started == []
    ensures exporters.Some? ==> started == Dispatch(ResolveExporters(global, exporters).value, producers)
  {
    var processed := ResolveExporters(global, exporters);
    ids := ExporterIds(processed);
    started := [];
    if processed.Some? {
      var es := processed.value;
      var i := 0;
      while i < |es|
        invariant 0 <= i <= |es|
        invariant started == Dispatch(es[..i], producers)
      {
        var exporter := es[i];
        var j := 0;
        while j < |producers|
          invariant 0 <= j <= |producers|
          invariant started == Dispatch(es[..i], producers) + ListenersOf(exporter, producers[..j])
        {
          var producer := producers[j];
          if exporter.activeEvents.Some? && producer in Names(exporter.activeEvents.value) {
            started := started + [Listener(exporter, producer)];
          }
          assert producers[..j + 1][..j] == producers[..j];
          j := j + 1;
        }
        assert producers[..j] == producers;
        assert es[..i + 1][..i] == es[..i];
        i := i + 1;
      }
      assert es[..i] == es;
    }
  }
}
