/**
  The document lifecycle handlers of the telemetry extension (src/events.ts):
  the per-process identity registry that gives every document URI a stable
  integer id, the gate every handler passes through, the event records the
  handlers hand to the exporters, and the status-bar text they display.
 */
module Events {
  import opened Wrappers

  // ---------------------------------------------------------------------
  // Identity registry: module state `nextId` and `uri2Id`, and the function
  // `updateAndGetId` that reads and grows it.
  // ---------------------------------------------------------------------

  /** A value of the registry state. */
  datatype IdState = IdState(uri2Id: map<string, int>, nextId: int)

  /** The registry when the extension is loaded: no URI known, counter at 1. */
  const Initial: IdState := IdState(map[], 1)

  /** The registry invariant: every id lies in [1, nextId), no two URIs share an
      id, and exactly one id has been handed out per known URI. */
  ghost predicate Inv(s: IdState) {
    && s.nextId - 1 == |s.uri2Id|
    && (forall u :: u in s.uri2Id ==> 1 <= s.uri2Id[u] < s.nextId)
    && (forall u, v :: u in s.uri2Id && v in s.uri2Id && u != v ==> s.uri2Id[u] != s.uri2Id[v])
  }

  /** One call of `updateAndGetId(uri)`: the id it returns and the registry after it. */
  function Lookup(s: IdState, uri: string): (r: (int, IdState))
    // the id returned is the one stored for the URI afterwards
    ensures uri in r.1.uri2Id && r.1.uri2Id[uri] == r.0
    // only the looked-up URI can become known, and no known id is ever reassigned
    ensures r.1.uri2Id.Keys == s.uri2Id.Keys + {uri}
    ensures forall u :: u in s.uri2Id ==> r.1.uri2Id[u] == s.uri2Id[u]
    // a known URI changes nothing; an unseen one takes the counter, which moves by one
    ensures uri in s.uri2Id ==> r.1 == s
    ensures uri !in s.uri2Id ==> r.0 == s.nextId && r.1.nextId == s.nextId + 1
  {
    if uri in s.uri2Id then (s.uri2Id[uri], s)
    else (s.nextId, IdState(s.uri2Id[uri := s.nextId], s.nextId + 1))
  }

  /** The registry after `updateAndGetId` has been called on the URIs of `h`, in
      order, starting from the state the extension is loaded with. */
  function Replay(h: seq<string>): (r: IdState)
    // the counter never drops below 1, and the URI looked up last is known
    ensures r.nextId >= 1
    ensures h != [] ==> h[|h| - 1] in r.uri2Id
  {
    if h == [] then Initial else Lookup(Replay(h[..|h| - 1]), h[|h| - 1]).1
  }

  /** The URIs of `h`, each once, in the order they first occur. */
  function FirstSeen(h: seq<string>): (r: seq<string>)
    ensures forall i, j :: 0 <= i < j < |r| ==> r[i] != r[j]
    ensures forall u :: u in r <==> u in h
  {
    if h == [] then []
    else
      var prev := FirstSeen(h[..|h| - 1]);
      assert h == h[..|h| - 1] + [h[|h| - 1]];
      if h[|h| - 1] in prev then prev else prev + [h[|h| - 1]]
  }

  /** A lookup keeps the registry invariant. */
  lemma LookupPreservesInv(s: IdState, uri: string)
    requires Inv(s)
    ensures Inv(Lookup(s, uri).1)
  {
  }

  /** Whatever URIs have been looked up, the registry invariant holds. */
  lemma {:induction false} ReplayInv(h: seq<string>)
    ensures Inv(Replay(h))
  {
    if h != [] {
      ReplayInv(h[..|h| - 1]);
      LookupPreservesInv(Replay(h[..|h| - 1]), h[|h| - 1]);
    }
  }

  /** `f` lists the known URIs of `s` in the order of their ids 1, 2, ... */
  ghost predicate NumberedBy(s: IdState, f: seq<string>) {
    && s.nextId == |f| + 1
    && (forall u :: u in s.uri2Id <==> u in f)
    && (forall k :: 0 <= k < |f| ==> f[k] in s.uri2Id && s.uri2Id[f[k]] == k + 1)
  }

  /** A lookup of an unseen URI numbers it next; a known URI changes nothing. */
  lemma LookupNumbers(s: IdState, f: seq<string>, uri: string)
    requires NumberedBy(s, f)
    ensures NumberedBy(Lookup(s, uri).1, if uri in f then f else f + [uri])
  {
  }

  /** Ids are handed out in first-seen order starting at 1: the k-th distinct URI
      looked up gets id k + 1, the known URIs are exactly those looked up, and the
      counter is one more than their number. */
  lemma {:induction false} ReplayFirstSeen(h: seq<string>)
    ensures NumberedBy(Replay(h), FirstSeen(h))
    ensures forall u :: u in Replay(h).uri2Id <==> u in h
  {
    if h != [] {
      var p := h[..|h| - 1];
      ReplayFirstSeen(p);
      LookupNumbers(Replay(p), FirstSeen(p), h[|h| - 1]);
    }
  }

  /** Stable identity: once a URI has an id, later lookups of any URIs leave it unchanged. */
  lemma {:induction false} IdStable(h: seq<string>, more: seq<string>, u: string)
    requires u in Replay(h).uri2Id
    ensures u in Replay(h + more).uri2Id && Replay(h + more).uri2Id[u] == Replay(h).uri2Id[u]
  {
    if more == [] {
      assert h + more == h;
    } else {
      var m := more[..|more| - 1];
      IdStable(h, m, u);
      assert (h + more)[..|h + more| - 1] == h + m;
    }
  }

  /** The registry object: the module-level `uri2Id` dictionary and `nextId`
      counter, with the URIs looked up so far as a ghost history. */
  class IdRegistry {
    var uri2Id: map<string, int>
    var nextId: int
    ghost var history: seq<string>

    function State(): IdState
      reads this
    {
      IdState(uri2Id, nextId)
    }

    ghost predicate Valid()
      reads this
    {
      State() == Replay(history) && Inv(State())
    }

    constructor ()
      ensures Valid() && history == []
      ensures uri2Id == map[] && nextId == 1
    {
      uri2Id := map[];
      nextId := 1;
      history := [];
    }

    /** `updateAndGetId`: the stored id of a known URI, or a fresh one for an unseen URI. */
    method UpdateAndGetId(uri: string) returns (id: int)
      requires Valid()
      modifies this
      ensures Valid() && history == old(history) + [uri]
      ensures (id, State()) == Lookup(old(State()), uri)
      ensures uri in old(uri2Id) ==> id == old(uri2Id)[uri] && uri2Id == old(uri2Id) && nextId == old(nextId)
      ensures uri !in old(uri2Id) ==> id == old(nextId) && nextId == old(nextId) + 1
                                      && uri2Id == old(uri2Id)[uri := id]
      ensures 1 <= id < nextId
    {
      if uri !in uri2Id {
        uri2Id := uri2Id[uri := nextId];
        nextId := nextId + 1;
      }
      id := uri2Id[uri];
      ghost var h0 := history;
      history := history + [uri];
      assert history[..|history| - 1] == h0;
      assert Replay(history) == Lookup(Replay(h0), uri).1;
      LookupPreservesInv(Replay(h0), uri);
    }
  }

  // ---------------------------------------------------------------------
  // Lifecycle signals, the gate, and the event records
  // ---------------------------------------------------------------------

  /** The four lifecycle categories; `Name` is both the configuration key
      under `telemetry.activeEvents` and the record's `eventName`. */
  datatype Category = DocumentOpen | DocumentChange | DocumentClose | DocumentSave {
    function Name(): string {
      match this
      case DocumentOpen => "documentOpen"
      case DocumentChange => "documentChange"
      case DocumentClose => "documentClose"
      case DocumentSave => "documentSave"
    }
  }

  datatype Position = Position(line: int, character: int)

  datatype Range = Range(start: Position, end: Position)

  /** One entry of `contentChanges`; `text` is None for an entry that is
      missing or has no `text` property. */
  datatype ContentChange = ContentChange(range: Range, text: Option<string>)

  /** What a handler sees of the document. */
  datatype Document = Document(scheme: string, uri: string, fileName: string)

  /** Facts read from the host: the global telemetry switch, the session and
      machine ids, and the clock reading `Date.now()` at the time of the call. */
  datatype Host = Host(telemetryEnabled: bool, sessionId: string, machineId: string, now: int)

  /** A signal a handler is called with, with its category-specific payload. */
  datatype Signal =
    | OpenSignal(content: string)
    | ChangeSignal(changes: seq<ContentChange>)
    | CloseSignal
    | SaveSignal
  {
    function Category(): Category {
      match this
      case OpenSignal(_) => DocumentOpen
      case ChangeSignal(_) => DocumentChange
      case CloseSignal => DocumentClose
      case SaveSignal => DocumentSave
    }
  }

  /** The `EventData` handed to `sendEvent`; `documentChanges` stands for the
      serialized change list. */
  datatype EventRecord = EventRecord(
    eventName: string,
    eventTime: int,
    sessionId: string,
    machineId: string,
    documentUri: string,
    documentId: int,
    documentContent: Option<string>,
    documentChanges: Option<seq<ContentChange>>)

  /** A category flag is on when the configuration holds `true` under its name;
      a missing key reads as undefined, which is off. */
  predicate CategoryEnabled(flags: map<string, bool>, c: Category) {
    c.Name() in flags && flags[c.Name()]
  }

  /** The gate shared by all four handlers: telemetry on, category on, and a
      `file` URI. */
  predicate Passes(host: Host, flags: map<string, bool>, c: Category, doc: Document) {
    host.telemetryEnabled && CategoryEnabled(flags, c) && doc.scheme == "file"
  }

  /** The record a handler builds once the gate has passed and the id is known. */
  function Envelope(sig: Signal, host: Host, doc: Document, id: int): (e: EventRecord)
    ensures e.eventName == sig.Category().Name() && e.documentUri == doc.uri && e.documentId == id
    // the time and the session and machine ids are the host's
    ensures e.eventTime == host.now && e.sessionId == host.sessionId && e.machineId == host.machineId
    // the text is carried exactly by open records, the change list exactly by change records
    ensures e.documentContent.Some? <==> sig.OpenSignal?
    ensures e.documentChanges.Some? <==> sig.ChangeSignal?
    ensures sig.OpenSignal? ==> e.documentContent == Some(sig.content)
    ensures sig.ChangeSignal? ==> e.documentChanges == Some(sig.changes)
  {
    EventRecord(
      sig.Category().Name(), host.now, host.sessionId, host.machineId, doc.uri, id,
      if sig.OpenSignal? then Some(sig.content) else None,
      if sig.ChangeSignal? then Some(sig.changes) else None)
  }

  /** What one handler call does to the registry and what it sends, as a value. */
  function Handle(s: IdState, host: Host, flags: map<string, bool>, doc: Document, sig: Signal)
    : (r: (Option<EventRecord>, IdState))
    // a closed gate: nothing sent, registry untouched
    ensures !Passes(host, flags, sig.Category(), doc) ==> r == (None, s)
    // an open gate registers the URI, even when nothing is sent
    ensures Passes(host, flags, sig.Category(), doc) ==> r.1 == Lookup(s, doc.uri).1
    // a record is sent exactly when the gate is open and, for a change, there is a change
    ensures r.0.Some? <==> Passes(host, flags, sig.Category(), doc) && !(sig.ChangeSignal? && sig.changes == [])
    // the record's id is the registry's id for its URI, its name the handler's category
    ensures r.0.Some? ==>
              && doc.uri in r.1.uri2Id
              && r.0.value.documentId == r.1.uri2Id[doc.uri]
              && r.0.value.documentUri == doc.uri
              && r.0.value.eventName == sig.Category().Name()
              && r.0.value.eventTime == host.now
              && r.0.value.sessionId == host.sessionId
              && r.0.value.machineId == host.machineId
    // open records carry the text, change records the changes, close and save neither
    ensures r.0.Some? ==>
              && r.0.value.documentContent == (if sig.OpenSignal? then Some(sig.content) else None)
              && r.0.value.documentChanges == (if sig.ChangeSignal? then Some(sig.changes) else None)
  {
    if !Passes(host, flags, sig.Category(), doc) then (None, s)
    else
      var (id, s') := Lookup(s, doc.uri);
      if sig.ChangeSignal? && |sig.changes| == 0 then (None, s')
      else (Some(Envelope(sig, host, doc, id)), s')
  }

  /** Two handler calls on the same document, whatever their categories, send
      records with the same document id, and a call on another document sends
      a different one. */
  lemma SameDocumentSameId(
    s: IdState, host: Host, flags: map<string, bool>, d1: Document, sig1: Signal, d2: Document, sig2: Signal)
    requires Inv(s)
    requires Handle(s, host, flags, d1, sig1).0.Some?
    requires Handle(Handle(s, host, flags, d1, sig1).1, host, flags, d2, sig2).0.Some?
    ensures var e1 := Handle(s, host, flags, d1, sig1).0.value;
            var e2 := Handle(Handle(s, host, flags, d1, sig1).1, host, flags, d2, sig2).0.value;
            e1.documentId == e2.documentId <==> d1.uri == d2.uri
  {
  }

  // ---------------------------------------------------------------------
  // Status-bar text
  // ---------------------------------------------------------------------

  /** The status-bar text as the handlers set it; `Other` is any text they did not set. */
  datatype Status =
    | Other(shown: string)
    | OpenStatus(id: int, fileName: string)
    | AddStatus(id: int, text: string)
    | DeleteStatus(id: int)
    | ReplaceStatus(id: int, text: string)
    | CloseStatus(id: int)
    | SaveStatus(id: int)

  /** The status-bar item the handlers write to. */
  class StatusBarItem {
    var text: Status

    constructor (text: Status)
      ensures this.text == text
    {
      this.text := text;
    }
  }

  /** How a change carrying text is shown: an empty range is an insertion,
      otherwise empty text is a deletion, otherwise a replacement. */
  function Classify(id: int, change: ContentChange): (st: Status)
    requires change.text.Some?
    ensures st.AddStatus? <==> change.range.start == change.range.end
    ensures st.DeleteStatus? <==> change.range.start != change.range.end && change.text.value == ""
    ensures st.ReplaceStatus? <==> change.range.start != change.range.end && change.text.value != ""
    ensures st.AddStatus? || st.DeleteStatus? || st.ReplaceStatus?
    ensures st.id == id
    ensures st.AddStatus? || st.ReplaceStatus? ==> st.text == change.text.value
  {
    if change.range.start == change.range.end then AddStatus(id, change.text.value)
    else if change.text.value == "" then DeleteStatus(id)
    else ReplaceStatus(id, change.text.value)
  }

  /** The index of the last change that carries text, if any. */
  function LastWithText(cs: seq<ContentChange>): (k: Option<nat>)
    ensures k.Some? ==> k.value < |cs| && cs[k.value].text.Some?
                        && forall j :: k.value < j < |cs| ==> cs[j].text.None?
    ensures k.None? ==> forall j :: 0 <= j < |cs| ==> cs[j].text.None?
  {
    if cs == [] then None
    else if cs[|cs| - 1].text.Some? then Some(|cs| - 1)
    else LastWithText(cs[..|cs| - 1])
  }

  /** The status text after the changes have been shown one after the other:
      the last change with text decides, and with none the text stays `prior`. */
  function ChangeStatus(id: int, cs: seq<ContentChange>, prior: Status): (st: Status)
    // with no change carrying text the status is left as it was
    ensures (forall j :: 0 <= j < |cs| ==> cs[j].text.None?) ==> st == prior
    // a last change carrying text decides the status on its own
    ensures cs != [] && cs[|cs| - 1].text.Some? ==> st == Classify(id, cs[|cs| - 1])
    // a last change without text leaves the status the earlier changes set
    ensures cs != [] && cs[|cs| - 1].text.None? ==> st == ChangeStatus(id, cs[..|cs| - 1], prior)
  {
    match LastWithText(cs)
    case None => prior
    case Some(k) => Classify(id, cs[k])
  }

  // ---------------------------------------------------------------------
  // The four handlers
  // ---------------------------------------------------------------------

  /** `handleDocumentOpen`; the status-bar item is optional here. */
  method HandleDocumentOpen(
    reg: IdRegistry, megaphone: StatusBarItem?, host: Host, flags: map<string, bool>, doc: Document, content: string)
    returns (sent: Option<EventRecord>)
    requires reg.Valid()
    modifies reg, megaphone
    ensures reg.Valid()
    ensures (sent, reg.State()) == Handle(old(reg.State()), host, flags, doc, OpenSignal(content))
    ensures reg.history == if Passes(host, flags, DocumentOpen, doc) then old(reg.history) + [doc.uri] else old(reg.history)
    ensures megaphone != null ==>
              megaphone.text == if Passes(host, flags, DocumentOpen, doc)
                                then OpenStatus(reg.uri2Id[doc.uri], doc.fileName)
                                else old(megaphone.text)
  {
    if !Passes(host, flags, DocumentOpen, doc) {
      return None;
    }
    var id := reg.UpdateAndGetId(doc.uri);
    if megaphone != null {
      megaphone.text := OpenStatus(id, doc.fileName);
    }
    sent := Some(Envelope(OpenSignal(content), host, doc, id));
  }

  /** The `forEach` over `contentChanges`: every change carrying text rewrites
      the status bar in turn. */
  method ShowChanges(megaphone: StatusBarItem, id: int, changes: seq<ContentChange>)
    modifies megaphone
    ensures megaphone.text == ChangeStatus(id, changes, old(megaphone.text))
  {
    var i := 0;
    while i < |changes|
      invariant 0 <= i <= |changes|
      invariant megaphone.text == ChangeStatus(id, changes[..i], old(megaphone.text))
    {
      var change := changes[i];
      if change.text.Some? {
        var text := change.text.value;
        if change.range.start == change.range.end {
          megaphone.text := AddStatus(id, text);
        } else if text == "" {
          megaphone.text := DeleteStatus(id);
        } else {
          megaphone.text := ReplaceStatus(id, text);
        }
      }
      assert changes[..i + 1][..i] == changes[..i];
      i := i + 1;
    }
    assert changes[..i] == changes;
  }

  /** `handleDocumentChange`: the id is taken before the empty-list check, and a
      non-empty change list is shown by `ShowChanges` and then sent. */
  method HandleDocumentChange(
    reg: IdRegistry, megaphone: StatusBarItem, host: Host, flags: map<string, bool>, doc: Document,
    changes: seq<ContentChange>)
    returns (sent: Option<EventRecord>)
    requires reg.Valid()
    modifies reg, megaphone
    ensures reg.Valid()
    ensures (sent, reg.State()) == Handle(old(reg.State()), host, flags, doc, ChangeSignal(changes))
    ensures reg.history == if Passes(host, flags, DocumentChange, doc) then old(reg.history) + [doc.uri] else old(reg.history)
    ensures megaphone.text == if Passes(host, flags, DocumentChange, doc)
                              then ChangeStatus(reg.uri2Id[doc.uri], changes, old(megaphone.text))
                              else old(megaphone.text)
  {
    if !Passes(host, flags, DocumentChange, doc) {
      return None;
    }
    var id := reg.UpdateAndGetId(doc.uri);
    sent := None;
    if |changes| > 0 {
      ShowChanges(megaphone, id, changes);
      sent := Some(Envelope(ChangeSignal(changes), host, doc, id));
    }
  }

  /** `handleDocumentClose`. */
  method HandleDocumentClose(
    reg: IdRegistry, megaphone: StatusBarItem, host: Host, flags: map<string, bool>, doc: Document)
    returns (sent: Option<EventRecord>)
    requires reg.Valid()
    modifies reg, megaphone
    ensures reg.Valid()
    ensures (sent, reg.State()) == Handle(old(reg.State()), host, flags, doc, CloseSignal)
    ensures reg.history == if Passes(host, flags, DocumentClose, doc) then old(reg.history) + [doc.uri] else old(reg.history)
    ensures megaphone.text == if Passes(host, flags, DocumentClose, doc)
                              then CloseStatus(reg.uri2Id[doc.uri])
                              else old(megaphone.text)
  {
    if !Passes(host, flags, DocumentClose, doc) {
      return None;
    }
    var id := reg.UpdateAndGetId(doc.uri);
    megaphone.text := CloseStatus(id);
    sent := Some(Envelope(CloseSignal, host, doc, id));
  }

  /** `handleDocumentSave`. */
  method HandleDocumentSave(
    reg: IdRegistry, megaphone: StatusBarItem, host: Host, flags: map<string, bool>, doc: Document)
    returns (sent: Option<EventRecord>)
    requires reg.Valid()
    modifies reg, megaphone
    ensures reg.Valid()
    ensures (sent, reg.State()) == Handle(old(reg.State()), host, flags, doc, SaveSignal)
    ensures reg.history == if Passes(host, flags, DocumentSave, doc) then old(reg.history) + [doc.uri] else old(reg.history)
    ensures megaphone.text == if Passes(host, flags, DocumentSave, doc)
                              then SaveStatus(reg.uri2Id[doc.uri])
                              else old(megaphone.text)
  {
    if !Passes(host, flags, DocumentSave, doc) {
      return None;
    }
    var id := reg.UpdateAndGetId(doc.uri);
    megaphone.text := SaveStatus(id);
    sent := Some(Envelope(SaveSignal, host, doc, id));
  }
}
