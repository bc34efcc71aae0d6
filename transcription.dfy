/**
 The transcription hook of the voice front end: every transcription event
 carries a batch of segments, which is reduced to an effective text and a
 finality flag; the batch then updates an interim slot (one for the local
 user, one shared by all remote participants) and, when final and non-empty,
 appends one message to an append-only history.
 */
module Transcription {

  /** One transcription segment as delivered by the SDK. */
  datatype Segment = Segment(text: string, final: bool)

  /** A finalised history entry (the `TranscriptMessage` record). */
  datatype TranscriptMessage = TranscriptMessage(
    participant: string,
    text: string,
    timestamp: int,
    isFinal: bool,
    isLocal: bool)

  /** Which handler an event reaches: the local participant's or a remote one's. */
  datatype Side = Local | Remote

  /** One handler invocation: the batch, the participant identity and `Date.now()`. */
  datatype Event = Event(side: Side, segments: seq<Segment>, identity: string, now: int)

  /** The hook's observable state: the history and the two interim slots. */
  datatype Transcript = Transcript(
    messages: seq<TranscriptMessage>,
    userText: string,
    aiText: string)

  const Initial := Transcript([], "", "")

  // ---------------------------------------------------------------------------
  // Reducing a batch: effective text and finality
  // ---------------------------------------------------------------------------

  /** The texts of the segments, in order. */
  function Texts(s: seq<Segment>): (r: seq<string>)
    ensures |r| == |s|
    ensures forall i :: 0 <= i < |s| ==> r[i] == s[i].text
  {
    if s == [] then [] else [s[0].text] + Texts(s[1..])
  }

  /** The summed length of the segment texts. */
  function TextLength(s: seq<Segment>): nat
  {
    if s == [] then 0 else |s[0].text| + TextLength(s[1..])
  }

  /**
   The segment texts joined in order with a single space between neighbours.
   Emptiness depends on the number of segments: two or more segments always
   give at least one separator.
   */
  function EffectiveText(s: seq<Segment>): (r: string)
    ensures |s| > 0 ==> |r| == TextLength(s) + |s| - 1
    ensures r == "" <==> |s| == 0 || (|s| == 1 && s[0].text == "")
  {
    if |s| == 0 then ""
    else if |s| == 1 then s[0].text
    else s[0].text + " " + EffectiveText(s[1..])
  }

  /**
   The join splits at any point: the effective text of two non-empty batches
   run together is the first's text, one space, and the second's text.
   */
  lemma {:induction false} EffectiveTextAppend(a: seq<Segment>, b: seq<Segment>)
    requires |a| > 0 && |b| > 0
    ensures EffectiveText(a + b) == EffectiveText(a) + " " + EffectiveText(b)
    decreases |a|
  {
    assert (a + b)[0] == a[0];
    if |a| == 1 {
      assert (a + b)[1..] == b;
    } else {
      assert (a + b)[1..] == a[1..] + b;
      EffectiveTextAppend(a[1..], b);
    }
  }

  /**
   Building the effective text segment by segment: one more segment adds a
   single space and its text at the end, whatever the texts contain.
   */
  lemma EffectiveTextSnoc(s: seq<Segment>, x: Segment)
    requires |s| > 0
    ensures EffectiveText(s + [x]) == EffectiveText(s) + " " + x.text
  {
    EffectiveTextAppend(s, [x]);
  }

  /** The batch's finality: some segment in it is marked final. */
  function IsFinal(s: seq<Segment>): (r: bool)
    ensures r <==> exists i :: 0 <= i < |s| && s[i].final
  {
    if s == [] then false else s[0].final || IsFinal(s[1..])
  }

  /** The index of the first space in `s`, or `|s|` when there is none. */
  function SpaceIndex(s: string): (i: nat)
    ensures i <= |s|
    ensures i < |s| ==> s[i] == ' '
    ensures forall j :: 0 <= j < i ==> s[j] != ' '
  {
    if s == [] || s[0] == ' ' then 0 else 1 + SpaceIndex(s[1..])
  }

  /**
   Splitting on single spaces. It undoes the join of EffectiveText only for
   non-empty batches whose texts contain no space.
   */
  function Split(s: string): (r: seq<string>)
    ensures |r| >= 1
    decreases |s|
  {
    var i := SpaceIndex(s);
    if i == |s| then [s] else [s[..i]] + Split(s[i + 1..])
  }

  /** No segment text contains the separator. */
  predicate SpaceFree(s: seq<Segment>)
  {
    forall i :: 0 <= i < |s| ==> ' ' !in s[i].text
  }

  /** A string whose first space is at `k` (or which has none, when `k == |s|`). */
  lemma {:induction false} SpaceIndexAt(s: string, k: nat)
    requires k <= |s| && (k < |s| ==> s[k] == ' ')
    requires forall j :: 0 <= j < k ==> s[j] != ' '
    ensures SpaceIndex(s) == k
  {
    if k > 0 {
      assert s[0] != ' ';
      forall j | 0 <= j < k - 1 ensures s[1..][j] != ' ' {
        assert s[1..][j] == s[j + 1];
      }
      SpaceIndexAt(s[1..], k - 1);
    }
  }

  lemma SpaceIndexOfJoin(t: string, rest: string)
    requires ' ' !in t
    ensures SpaceIndex(t + " " + rest) == |t|
    ensures (t + " " + rest)[..|t|] == t && (t + " " + rest)[|t| + 1..] == rest
  {
    var u := t + " " + rest;
    forall j | 0 <= j < |t| ensures u[j] != ' ' {
      assert u[j] == t[j];
    }
    SpaceIndexAt(u, |t|);
  }

  /**
   Round trip of the join: a non-empty batch whose texts contain no space
   splits back into exactly its texts, in order.
   */
  lemma {:induction false} SplitEffectiveText(s: seq<Segment>)
    requires |s| >= 1 && SpaceFree(s)
    ensures Split(EffectiveText(s)) == Texts(s)
  {
    if |s| == 1 {
      var t := s[0].text;
      assert ' ' !in t;
      SpaceIndexAt(t, |t|);
    } else {
      var t, rest := s[0].text, EffectiveText(s[1..]);
      assert ' ' !in t;
      SpaceIndexOfJoin(t, rest);
      assert SpaceFree(s[1..]) by {
        forall i | 0 <= i < |s[1..]| ensures ' ' !in s[1..][i].text {
          assert s[1..][i] == s[i + 1];
        }
      }
      SplitEffectiveText(s[1..]);
    }
  }

  // ---------------------------------------------------------------------------
  // One handler call as a state transition
  // ---------------------------------------------------------------------------

  function Other(side: Side): Side
  {
    if side == Local then Remote else Local
  }

  /** The interim slot a side writes: `currentUserText` or `currentAIText`. */
  function Slot(t: Transcript, side: Side): string
  {
    if side == Local then t.userText else t.aiText
  }

  function WithSlot(t: Transcript, side: Side, text: string): (r: Transcript)
    ensures r.messages == t.messages
    ensures Slot(r, side) == text && Slot(r, Other(side)) == Slot(t, Other(side))
  {
    if side == Local then t.(userText := text) else t.(aiText := text)
  }

  /** The message label: the identity, or "You" / "AI Agent" when it is empty. */
  function Label(identity: string, side: Side): (r: string)
    ensures r != ""
    ensures identity != "" ==> r == identity
    ensures identity == "" ==> r == (if side == Local then "You" else "AI Agent")
  {
    if identity != "" then identity
    else if side == Local then "You"
    else "AI Agent"
  }

  /** True iff the event appends a history entry: final with a non-empty text. */
  predicate Emits(e: Event)
  {
    IsFinal(e.segments) && EffectiveText(e.segments) != ""
  }

  /** The entry an emitting event appends. */
  function MessageOf(e: Event): (m: TranscriptMessage)
    ensures m.participant == Label(e.identity, e.side)
    ensures m.text == EffectiveText(e.segments) && m.timestamp == e.now
    ensures m.isFinal && m.isLocal == (e.side == Local)
  {
    TranscriptMessage(Label(e.identity, e.side), EffectiveText(e.segments), e.now, true, e.side == Local)
  }

  /**
   One call of `handleLocalTranscription` or `handleRemoteTranscription`,
   taken as one atomic transition: the side's slot gets the effective text;
   a final batch with text then appends a message and clears the slot.
   */
  function Ingest(t: Transcript, e: Event): (r: Transcript)
    // append-only: the old history is a prefix, at most one entry is added
    ensures t.messages <= r.messages && |r.messages| <= |t.messages| + 1
    // a non-final batch overwrites the slot and leaves the history alone
    ensures !IsFinal(e.segments) ==>
      r.messages == t.messages && Slot(r, e.side) == EffectiveText(e.segments)
    // a final batch with text appends exactly its message
    ensures Emits(e) ==> r.messages == t.messages + [MessageOf(e)]
    // a final batch without text appends nothing
    ensures IsFinal(e.segments) && EffectiveText(e.segments) == "" ==> r.messages == t.messages
    // any final batch leaves the slot empty
    ensures IsFinal(e.segments) ==> Slot(r, e.side) == ""
    // the other side's slot is never touched
    ensures Slot(r, Other(e.side)) == Slot(t, Other(e.side))
  {
    var text := EffectiveText(e.segments);
    var interim := WithSlot(t, e.side, text);
    if IsFinal(e.segments) && text != "" then
      WithSlot(interim.(messages := interim.messages + [MessageOf(e)]), e.side, "")
    else
      interim
  }

  /**
   Every remote participant writes the same slot: after two remote batches
   the AI slot is whatever the second batch alone would have left, whoever
   sent the first one.
   */
  lemma RemoteLastBatchWins(t: Transcript, first: Event, second: Event)
    requires first.side == Remote && second.side == Remote
    ensures Ingest(Ingest(t, first), second).aiText == Ingest(t, second).aiText
  {
  }

  // ---------------------------------------------------------------------------
  // Sequences of handler calls
  // ---------------------------------------------------------------------------

  /** The state after the handler calls of `evs`, in order. */
  function Replay(t: Transcript, evs: seq<Event>): Transcript
    decreases |evs|
  {
    if evs == [] then t else Replay(Ingest(t, evs[0]), evs[1..])
  }

  /** The number of events in `evs` that append a message. */
  function EmitCount(evs: seq<Event>): nat
  {
    if evs == [] then 0 else (if Emits(evs[0]) then 1 else 0) + EmitCount(evs[1..])
  }

  /**
   Append-only history over any run: the history at an earlier point is a
   prefix of the history at any later point, and it grows by exactly one
   entry per final, non-empty batch.
   */
  lemma {:induction false} ReplayAppendOnly(t: Transcript, evs: seq<Event>)
    ensures t.messages <= Replay(t, evs).messages
    ensures |Replay(t, evs).messages| == |t.messages| + EmitCount(evs)
    decreases |evs|
  {
    if evs != [] {
      ReplayAppendOnly(Ingest(t, evs[0]), evs[1..]);
    }
  }

  /** The events of `evs` that reach the handler of `side`, in order. */
  function OnSide(evs: seq<Event>, side: Side): (r: seq<Event>)
    ensures |r| <= |evs|
    ensures forall i :: 0 <= i < |r| ==> r[i].side == side
  {
    if evs == [] then []
    else if evs[0].side == side then [evs[0]] + OnSide(evs[1..], side)
    else OnSide(evs[1..], side)
  }

  /** The history entries produced by `side`'s handler, in order. */
  function MessagesOf(ms: seq<TranscriptMessage>, side: Side): (r: seq<TranscriptMessage>)
    ensures |r| <= |ms|
    ensures forall i :: 0 <= i < |r| ==> r[i].isLocal == (side == Local)
  {
    if ms == [] then []
    else if ms[0].isLocal == (side == Local) then [ms[0]] + MessagesOf(ms[1..], side)
    else MessagesOf(ms[1..], side)
  }

  lemma {:induction false} MessagesOfAppend(ms: seq<TranscriptMessage>, m: TranscriptMessage, side: Side)
    ensures MessagesOf(ms + [m], side) ==
      MessagesOf(ms, side) + (if m.isLocal == (side == Local) then [m] else [])
  {
    if ms != [] {
      assert (ms + [m])[1..] == ms[1..] + [m];
      MessagesOfAppend(ms[1..], m, side);
    }
  }

  /** Two states look the same from one side: same slot, same entries of that side. */
  predicate SameView(t1: Transcript, t2: Transcript, side: Side)
  {
    Slot(t1, side) == Slot(t2, side) && MessagesOf(t1.messages, side) == MessagesOf(t2.messages, side)
  }

  /** A handler call on `side` maps states that look alike from `side` to states that still do. */
  lemma IngestKeepsView(t1: Transcript, t2: Transcript, e: Event)
    requires SameView(t1, t2, e.side)
    ensures SameView(Ingest(t1, e), Ingest(t2, e), e.side)
  {
    if Emits(e) {
      MessagesOfAppend(t1.messages, MessageOf(e), e.side);
      MessagesOfAppend(t2.messages, MessageOf(e), e.side);
    }
  }

  /** A handler call on the other side changes nothing visible from `side`. */
  lemma IngestOtherKeepsView(t: Transcript, e: Event, side: Side)
    requires e.side != side
    ensures SameView(Ingest(t, e), t, side)
  {
    if Emits(e) {
      MessagesOfAppend(t.messages, MessageOf(e), side);
    }
  }

  lemma {:induction false} ReplayIsolationFrom(t1: Transcript, t2: Transcript, evs: seq<Event>, side: Side)
    requires SameView(t1, t2, side)
    ensures SameView(Replay(t1, evs), Replay(t2, OnSide(evs, side)), side)
    decreases |evs|
  {
    if evs != [] {
      var e := evs[0];
      if e.side == side {
        IngestKeepsView(t1, t2, e);
        ReplayIsolationFrom(Ingest(t1, e), Ingest(t2, e), evs[1..], side);
      } else {
        IngestOtherKeepsView(t1, e, side);
        ReplayIsolationFrom(Ingest(t1, e), t2, evs[1..], side);
      }
    }
  }

  /**
   Isolation: whatever the interleaving, a side's slot and the history
   entries it produced are those of running that side's events alone.
   */
  lemma ReplayIsolation(t: Transcript, evs: seq<Event>, side: Side)
    ensures Slot(Replay(t, evs), side) == Slot(Replay(t, OnSide(evs, side)), side)
    ensures MessagesOf(Replay(t, evs).messages, side) ==
      MessagesOf(Replay(t, OnSide(evs, side)).messages, side)
  {
    ReplayIsolationFrom(t, t, evs, side);
  }

  /** A whole run of events for one side leaves the other side's slot as it was. */
  lemma {:induction false} ReplayOtherSlotUnchanged(t: Transcript, evs: seq<Event>, side: Side)
    requires forall i :: 0 <= i < |evs| ==> evs[i].side == side
    ensures Slot(Replay(t, evs), Other(side)) == Slot(t, Other(side))
    decreases |evs|
  {
    if evs != [] {
      ReplayOtherSlotUnchanged(Ingest(t, evs[0]), evs[1..], side);
    }
  }

  /** An interim batch followed by a final one: the interim text shows, then becomes history. */
  lemma InterimThenFinal(t: Transcript, identity: string, n1: int, n2: int)
    ensures var t1 := Ingest(t, Event(Local, [Segment("hel", false)], identity, n1));
      t1.userText == "hel" && t1.messages == t.messages &&
      var t2 := Ingest(t1, Event(Local, [Segment("hello", true)], identity, n2));
      t2.userText == "" &&
      t2.messages == t.messages + [TranscriptMessage(Label(identity, Local), "hello", n2, true, true)]
  {
  }

  // ---------------------------------------------------------------------------
  // The hook's state, updated in place
  // ---------------------------------------------------------------------------

  /** A participant object; handlers are keyed by the object, not by its identity. */
  class Participant {
    const identity: string

    constructor (identity: string)
      ensures this.identity == identity
    {
      this.identity := identity;
    }
  }

  /** The per-participant closure that forwards a batch to the remote handler. */
  datatype Handler = RemoteHandler(participant: Participant)

  /** The handlers `setup` installs: one per remote participant, bound to it. */
  function Registered(ps: seq<Participant>): (m: map<Participant, Handler>)
    ensures m.Keys == set p | p in ps
    ensures forall p :: p in m ==> m[p].participant == p
  {
    map p | p in ps :: RemoteHandler(p)
  }

  /** No participant appears twice in the list. */
  predicate Distinct(ps: seq<Participant>)
  {
    forall i, j :: 0 <= i < j < |ps| ==> ps[i] != ps[j]
  }

  /**
   Setting up with distinct participants and then cleaning up removes exactly
   the listeners that were installed: the emitters are as before.
   */
  lemma SetupCleanupRestores(before: multiset<Participant>, ps: seq<Participant>)
    requires Distinct(ps)
    ensures (before + multiset(ps)) - multiset(Registered(ps).Keys) == before
  {
    DistinctMultiset(ps);
  }

  lemma {:induction false} DistinctMultiset(ps: seq<Participant>)
    requires Distinct(ps)
    ensures multiset(set p | p in ps) == multiset(ps)
  {
    if ps != [] {
      DistinctTail(ps);
      DistinctMultiset(ps[1..]);
      SetOfCons(ps);
    }
  }

  lemma DistinctTail(ps: seq<Participant>)
    requires ps != [] && Distinct(ps)
    ensures Distinct(ps[1..]) && ps[0] !in ps[1..]
  {
    var rest := ps[1..];
    forall i, j | 0 <= i < j < |rest| ensures rest[i] != rest[j] {
      assert rest[i] == ps[i + 1] && rest[j] == ps[j + 1];
    }
    forall k | 0 <= k < |rest| ensures rest[k] != ps[0] {
      assert rest[k] == ps[k + 1];
    }
  }

  lemma SetOfCons(ps: seq<Participant>)
    requires ps != []
    ensures ps == [ps[0]] + ps[1..]
    ensures (set p | p in ps) == {ps[0]} + (set p | p in ps[1..])
  {
    assert ps == [ps[0]] + ps[1..];
  }

  /**
   The forEach of the setup: one handler per participant goes into a fresh
   map, and one listener is attached to each participant, in list order.
   */
  method RegisterAll(before: multiset<Participant>, ps: seq<Participant>)
    returns (handlers: map<Participant, Handler>, after: multiset<Participant>)
    ensures handlers == Registered(ps)
    ensures after == before + multiset(ps)
  {
    handlers, after := map[], before;
    for i := 0 to |ps|
      invariant handlers == Registered(ps[..i])
      invariant after == before + multiset(ps[..i])
    {
      var p := ps[i];
      handlers := handlers[p := RemoteHandler(p)];
      after := after + multiset{p};
      assert ps[..i + 1] == ps[..i] + [p];
    }
    assert ps[..|ps|] == ps;
  }

  /**
   The loop of the remote cleanup over the handler map: one listener is
   taken off each participant in `keys`, in any order.
   */
  method DetachAll(before: multiset<Participant>, keys: set<Participant>) returns (after: multiset<Participant>)
    ensures after == before - multiset(keys)
    ensures forall p :: p !in keys ==> after[p] == before[p]
  {
    var pending := keys;
    after := before;
    ghost var done: set<Participant> := {};
    while pending != {}
      invariant done !! pending && done + pending == keys
      invariant after == before - multiset(done)
      decreases pending
    {
      var p :| p in pending;
      MultisetRemoveOneMore(before, done, p);
      after := after - multiset{p};
      done, pending := done + {p}, pending - {p};
    }
  }

  lemma MultisetRemoveOneMore(a: multiset<Participant>, done: set<Participant>, p: Participant)
    requires p !in done
    ensures a - multiset(done + {p}) == (a - multiset(done)) - multiset{p}
  {
    assert multiset(done + {p}) == multiset(done) + multiset{p};
  }

  /**
   The state of one mounted `useTranscription` hook: the three state
   variables, the remote handler map of the current effect run, the local
   participant the local handler is attached to, and, standing for the SDK's
   emitters, how many transcription listeners this hook holds on each remote
   participant.
   */
  class TranscriptionHook {
    var messages: seq<TranscriptMessage>
    var userText: string
    var aiText: string
    var handlers: map<Participant, Handler>
    var localListener: Participant?
    var attached: multiset<Participant>

    function State(): (t: Transcript)
      reads this`messages, this`userText, this`aiText
      ensures t.messages == messages && t.userText == userText && t.aiText == aiText
    {
      Transcript(messages, userText, aiText)
    }

    constructor ()
      ensures State() == Initial
      ensures handlers == map[] && localListener == null && attached == multiset{}
    {
      messages, userText, aiText := [], "", "";
      handlers, localListener, attached := map[], null, multiset{};
    }

    /** `handleLocalTranscription`: writes the user slot, may append a local message. */
    method IngestLocal(segments: seq<Segment>, identity: string, now: int)
      modifies this
      ensures State() == Ingest(old(State()), Event(Local, segments, identity, now))
      ensures old(messages) <= messages && aiText == old(aiText)
      ensures handlers == old(handlers) && localListener == old(localListener) && attached == old(attached)
    {
      var text := EffectiveText(segments);
      var isFinal := IsFinal(segments);
      userText := text;
      if isFinal && text != "" {
        messages := messages + [TranscriptMessage(Label(identity, Local), text, now, true, true)];
        userText := "";
      }
    }

    /** `handleRemoteTranscription`: writes the shared AI slot, may append a remote message. */
    method IngestRemote(segments: seq<Segment>, identity: string, now: int)
      modifies this
      ensures State() == Ingest(old(State()), Event(Remote, segments, identity, now))
      ensures old(messages) <= messages && userText == old(userText)
      ensures handlers == old(handlers) && localListener == old(localListener) && attached == old(attached)
    {
      var text := EffectiveText(segments);
      var isFinal := IsFinal(segments);
      aiText := text;
      if isFinal && text != "" {
        messages := messages + [TranscriptMessage(Label(identity, Remote), text, now, true, false)];
        aiText := "";
      }
    }

    /** The local effect's setup: nothing is registered without a local participant. */
    method SetupLocal(local: Participant?)
      modifies this
      ensures localListener == if local == null then old(localListener) else local
      ensures State() == old(State()) && handlers == old(handlers) && attached == old(attached)
    {
      if local == null {
        return;
      }
      localListener := local;
    }

    /** The local effect's cleanup: the local handler is detached. */
    method CleanupLocal()
      modifies this
      ensures localListener == null
      ensures State() == old(State()) && handlers == old(handlers) && attached == old(attached)
    {
      localListener := null;
    }

    /**
     The remote effect's setup: a fresh handler map gets one handler per
     participant, and each handler is attached to its participant.
     */
    method SetupRemote(ps: seq<Participant>)
      modifies this
      ensures handlers == Registered(ps)
      ensures attached == old(attached) + multiset(ps)
      ensures State() == old(State()) && localListener == old(localListener)
    {
      handlers, attached := RegisterAll(attached, ps);
    }

    /**
     The remote effect's cleanup: every handler in the map is detached from
     its participant; the transcript state is not touched, so a pending AI
     interim text survives.
     */
    method CleanupRemote()
      modifies this
      ensures attached == old(attached) - multiset(old(handlers).Keys)
      ensures handlers == map[]
      ensures State() == old(State()) && localListener == old(localListener)
    {
      var remaining := DetachAll(attached, handlers.Keys);
      attached, handlers := remaining, map[];
    }
  }
}
