/**
 * `MSScannerSession`: the per-presentation state machine over a scanner.
 * Its instance variables (`_state`, `_snap`, `_result`, `_losts`) are the
 * class's fields. The transitions are also written as functions on a value
 * of those fields, so that properties of whole call sequences can be stated
 * and proved; each method of the class is tied to its function.
 *
 * What the scanner answers for a frame (offline search and barcode
 * decoding) and the lifecycle events of an API search arrive as parameters.
 */
module Session {
  import opened Wrappers
  import Sdk
  import Results

  type MSResult = Results.MSResult

  /** `MSScanState` */
  datatype ScanState = Default | Search | Pause

  /**
   * The engine's answers for one frame: the error of the local calls, the
   * identifier the offline search found and the barcode the decoder read.
   */
  datatype LocalReply = LocalReply(err: Sdk.ErrCode, image: Option<Sdk.Id>, barcode: Option<Sdk.Barcode>)

  /** The API search lifecycle as the scanner reports it to the session. */
  datatype SearchEvent = WillSearch | DidSearch(result: Option<MSResult>) | FailedToSearch(err: Sdk.ErrCode)

  /** The session's instance variables as a value. */
  datatype Fields = Fields(state: ScanState, snap: bool, result: Option<MSResult>, losts: nat)

  /** A pending snap exists only while the session is in SEARCH. */
  predicate Coherent(f: Fields) {
    f.snap ==> f.state == Search
  }

  /** A freshly created session (`initWithScanner:`). */
  const Initial: Fields := Fields(Default, false, None, 0)

  /** A call on the session, or an event the scanner delivers to it. */
  datatype Call =
    | PauseCall
    | ResumeCall
    | SnapCall
    | CancelCall
    | ScanCall(qry: Sdk.Image, options: bv32, reply: LocalReply)
    | EventCall(event: SearchEvent)

  /**
   * What a call answers: a BOOL; or the result and error of a scan together
   * with the frame handed to the API search, if any; or the event forwarded
   * to the session's delegate, if any.
   */
  datatype Answer =
    | Flag(ok: bool)
    | Scanned(result: Option<MSResult>, err: Sdk.ErrCode, sent: Option<Sdk.Image>)
    | Forwarded(event: Option<SearchEvent>)

  datatype Transition = Transition(answer: Answer, next: Fields)

  /** What a scan answers when it does nothing with the frame. */
  const Ignored: Answer := Scanned(None, Sdk.Success, None)

  /**
   * The local result of one frame: an image found by the offline search
   * takes priority over a decoded barcode; only requested types are reported.
   */
  function LocalPick(options: bv32, reply: LocalReply): (r: Option<MSResult>)
    ensures r.Some? ==> Results.IsResultType(r.value.kind) && Results.Requested(options, r.value.kind)
    ensures Results.Requested(options, Results.TypeImage) && reply.image.Some? ==>
      r == Some(Results.MSResult(Results.TypeImage, reply.image.value))
    ensures r.Some? && r.value.kind == Results.TypeImage ==>
      reply.image.Some? && r.value == Results.MSResult(Results.TypeImage, reply.image.value)
    ensures r.Some? && r.value.kind != Results.TypeImage ==>
      reply.barcode.Some? && Sdk.Decodable(options, reply.barcode.value) &&
      r.value == Results.MSResult(reply.barcode.value.format, reply.barcode.value.data)
    ensures r.None? <==>
      !(Results.Requested(options, Results.TypeImage) && reply.image.Some?) &&
      !(reply.barcode.Some? && Sdk.Decodable(options, reply.barcode.value))
  {
    if Results.Requested(options, Results.TypeImage) && reply.image.Some? then
      Some(Results.FromImageId(reply.image.value))
    else if reply.barcode.Some? && Sdk.Decodable(options, reply.barcode.value) then
      Some(Results.InitWithBarcode(reply.barcode.value))
    else
      None
  }

  /** `pause`: answers a flag and keeps the session coherent. */
  function PauseStep(f: Fields): (t: Transition)
    ensures t.answer.Flag? && (Coherent(f) ==> Coherent(t.next))
  {
    if f.state == Search then Transition(Flag(false), f)
    else Transition(Flag(true), f.(state := Pause))
  }

  /** `resume`: answers a flag and keeps the session coherent. */
  function ResumeStep(f: Fields): (t: Transition)
    ensures t.answer.Flag? && (Coherent(f) ==> Coherent(t.next))
  {
    if f.state == Pause then Transition(Flag(true), f.(state := Default, result := None, losts := 0))
    else Transition(Flag(false), f)
  }

  /** `snap`: answers a flag; an accepted snap is the only way a snap becomes pending. */
  function SnapStep(f: Fields): (t: Transition)
    ensures t.answer.Flag? && (Coherent(f) ==> Coherent(t.next))
    ensures t.next.snap ==> f.snap || t.answer == Flag(true)
  {
    if f.state == Default then Transition(Flag(true), f.(state := Search, snap := true, result := None))
    else Transition(Flag(false), f)
  }

  /** `cancel`: answers a flag and, on a coherent session, leaves neither SEARCH nor a pending snap. */
  function CancelStep(f: Fields): (t: Transition)
    ensures t.answer.Flag?
    ensures Coherent(f) ==> !t.next.snap && t.next.state != Search
  {
    if f.state == Search then Transition(Flag(true), f.(state := Default, snap := false))
    else Transition(Flag(false), f)
  }

  /**
   * `scan:options:error:`: never makes a snap pending, and hands this frame
   * to the API search exactly when it consumes one.
   */
  function ScanStep(f: Fields, qry: Sdk.Image, options: bv32, reply: LocalReply): (t: Transition)
    ensures t.answer.Scanned? && (Coherent(f) ==> Coherent(t.next))
    ensures t.next.snap ==> f.snap
    ensures t.answer.sent.Some? <==> f.snap && f.state != Pause && !t.next.snap
    ensures t.answer.sent.Some? ==> t.answer.sent == Some(qry)
  {
    match f.state
    case Pause => Transition(Ignored, f)
    case Search =>
      if f.snap then Transition(Scanned(None, Sdk.Success, Some(qry)), f.(snap := false))
      else Transition(Ignored, f)
    case Default =>
      if reply.err != Sdk.Success then Transition(Scanned(None, reply.err, None), f)
      else
        var r := LocalPick(options, reply);
        if r.Some? then Transition(Scanned(r, Sdk.Success, None), f.(result := r, losts := 0))
        else Transition(Ignored, f.(losts := f.losts + 1))
  }

  /**
   * An API search event reaches the delegate only while the search the
   * session launched is pending; its end returns the session to DEFAULT.
   */
  function EventStep(f: Fields, e: SearchEvent): (t: Transition)
    ensures t.answer.Forwarded? && t.next.snap == f.snap && (Coherent(f) ==> Coherent(t.next))
    ensures t.answer.event.Some? ==> t.answer.event == Some(e) && f.state == Search
  {
    if f.state == Search && !f.snap then
      Transition(Forwarded(Some(e)), if e.WillSearch? then f else f.(state := Default))
    else
      Transition(Forwarded(None), f)
  }

  /** One call on the session: the answer has the call's kind, and coherence is kept. */
  function Step(f: Fields, c: Call): (t: Transition)
    ensures Coherent(f) ==> Coherent(t.next)
    ensures c.ScanCall? <==> t.answer.Scanned?
    ensures c.EventCall? <==> t.answer.Forwarded?
  {
    match c
    case PauseCall => PauseStep(f)
    case ResumeCall => ResumeStep(f)
    case SnapCall => SnapStep(f)
    case CancelCall => CancelStep(f)
    case ScanCall(qry, options, reply) => ScanStep(f, qry, options, reply)
    case EventCall(e) => EventStep(f, e)
  }

  /**
   * The answers of a sequence of calls and the fields after the last; the
   * sequence lemmas below are stated over it.
   */
  datatype Transcript = Transcript(answers: seq<Answer>, last: Fields)

  function Run(f: Fields, calls: seq<Call>): (t: Transcript)
    ensures |t.answers| == |calls|
    decreases |calls|
  {
    if calls == [] then Transcript([], f)
    else
      var s := Step(f, calls[0]);
      var rest := Run(s.next, calls[1..]);
      Transcript([s.answer] + rest.answers, rest.last)
  }

  // ------------------------------------------------------------------
  // Properties of single calls
  // ------------------------------------------------------------------

  /** `pause` is refused while an API search is pending and then changes nothing. */
  lemma PauseRefusedWhileSearching(f: Fields)
    ensures Step(f, PauseCall).answer == Flag(f.state != Search)
    ensures f.state == Search ==> Step(f, PauseCall).next == f
    ensures f.state != Search ==> Step(f, PauseCall).next.state == Pause
  {
  }

  /** `resume` answers YES exactly when the session was paused; it then accepts scans like a new session. */
  lemma ResumeExactlyWhenPaused(f: Fields)
    requires Coherent(f)
    ensures Step(f, ResumeCall).answer == Flag(f.state == Pause)
    ensures f.state == Pause ==> Step(f, ResumeCall).next == Initial
    ensures f.state != Pause ==> Step(f, ResumeCall).next == f
  {
  }

  /** `snap` is refused while paused or searching, and a refusal changes nothing. */
  lemma SnapRefusedUnlessDefault(f: Fields)
    ensures Step(f, SnapCall).answer == Flag(f.state == Default)
    ensures f.state != Default ==> Step(f, SnapCall).next == f
  {
  }

  /** `cancel` answers YES exactly in SEARCH, and afterwards the session is never in SEARCH. */
  lemma CancelLeavesSearch(f: Fields)
    ensures Step(f, CancelCall).answer == Flag(f.state == Search)
    ensures Step(f, CancelCall).next.state != Search
    ensures f.state != Search ==> Step(f, CancelCall).next == f
  {
  }

  /** An accepted snap is consumed by the next frame, which goes to the API search. */
  lemma SnapAppliesToNextFrame(f: Fields, qry: Sdk.Image, options: bv32, reply: LocalReply)
    requires Coherent(f) && f.state == Default
    ensures Step(f, SnapCall).answer == Flag(true)
    ensures Step(Step(f, SnapCall).next, ScanCall(qry, options, reply)).answer ==
      Scanned(None, Sdk.Success, Some(qry))
    ensures Step(Step(f, SnapCall).next, ScanCall(qry, options, reply)).next.state == Search
    ensures !Step(Step(f, SnapCall).next, ScanCall(qry, options, reply)).next.snap
  {
  }

  /** A scanned result only ever comes from the frame itself, never from the cached one. */
  lemma ScanReportsOnlyThisFrame(f: Fields, g: Fields, qry: Sdk.Image, options: bv32, reply: LocalReply)
    requires f.state == g.state && f.snap == g.snap
    ensures Step(f, ScanCall(qry, options, reply)).answer == Step(g, ScanCall(qry, options, reply)).answer
  {
  }

  // ------------------------------------------------------------------
  // Properties of call sequences
  // ------------------------------------------------------------------

  /** The session stays coherent through any sequence of calls. */
  lemma {:induction false} RunKeepsCoherent(f: Fields, calls: seq<Call>)
    requires Coherent(f)
    ensures Coherent(Run(f, calls).last)
    decreases |calls|
  {
    if calls != [] {
      RunKeepsCoherent(Step(f, calls[0]).next, calls[1..]);
    }
  }

  /** How a paused session answers a call other than `resume`. */
  predicate AnswerWhilePaused(c: Call, a: Answer) {
    match c
    case PauseCall => a == Flag(true)
    case ResumeCall => true
    case SnapCall => a == Flag(false)
    case CancelCall => a == Flag(false)
    case ScanCall(_, _, _) => a == Ignored
    case EventCall(_) => a == Forwarded(None)
  }

  /**
   * After a successful `pause`, scans and snaps are ignored and nothing
   * changes until `resume` is called.
   */
  lemma {:induction false} PausedIgnoresUntilResume(f: Fields, calls: seq<Call>)
    requires f.state == Pause
    requires forall i :: 0 <= i < |calls| ==> !calls[i].ResumeCall?
    ensures Run(f, calls).last == f
    ensures forall i :: 0 <= i < |calls| ==> AnswerWhilePaused(calls[i], Run(f, calls).answers[i])
    decreases |calls|
  {
    if calls != [] {
      var s := Step(f, calls[0]);
      assert s.next == f;
      assert AnswerWhilePaused(calls[0], s.answer);
      PausedIgnoresUntilResume(f, calls[1..]);
      var t := Run(f, calls);
      forall i | 0 <= i < |calls|
        ensures AnswerWhilePaused(calls[i], t.answers[i])
      {
        if i > 0 {
          assert calls[i] == calls[1..][i - 1];
          assert t.answers[i] == Run(f, calls[1..]).answers[i - 1];
        }
      }
    }
  }

  /** The number of frames a sequence of answers handed to the API search. */
  function FramesSent(answers: seq<Answer>): nat {
    if answers == [] then 0
    else (if answers[0].Scanned? && answers[0].sent.Some? then 1 else 0) + FramesSent(answers[1..])
  }

  /** The number of snaps a sequence of calls had accepted. */
  function SnapsAccepted(calls: seq<Call>, answers: seq<Answer>): nat
    requires |calls| == |answers|
  {
    if calls == [] then 0
    else (if calls[0].SnapCall? && answers[0] == Flag(true) then 1 else 0) + SnapsAccepted(calls[1..], answers[1..])
  }

  /**
   * Each accepted snap hands at most one frame to the API search: across
   * any run, frames sent plus a snap still pending never exceed the snaps
   * accepted plus the one pending at the start.
   */
  lemma {:induction false} OneFramePerSnap(f: Fields, calls: seq<Call>)
    requires Coherent(f)
    ensures FramesSent(Run(f, calls).answers) + (if Run(f, calls).last.snap then 1 else 0) <=
            SnapsAccepted(calls, Run(f, calls).answers) + (if f.snap then 1 else 0)
    decreases |calls|
  {
    if calls != [] {
      var s := Step(f, calls[0]);
      var t := Run(f, calls);
      OneFramePerSnap(s.next, calls[1..]);
      assert t.answers[1..] == Run(s.next, calls[1..]).answers;
      assert t.answers[0] == s.answer;
    }
  }

  /** Starting in SEARCH: `pause` answers NO, `cancel` YES, then `pause` YES, ending in PAUSE. */
  lemma PauseAfterCancel(f: Fields)
    requires f.state == Search
    ensures Run(f, [PauseCall, CancelCall, PauseCall]).answers == [Flag(false), Flag(true), Flag(true)]
    ensures Run(f, [PauseCall, CancelCall, PauseCall]).last.state == Pause
  {
    var calls := [PauseCall, CancelCall, PauseCall];
    var f1 := Step(f, PauseCall).next;
    var f2 := Step(f1, CancelCall).next;
    assert calls[1..] == [CancelCall, PauseCall];
    assert calls[1..][1..] == [PauseCall];
    assert Run(f2, [PauseCall]) == Transcript([Flag(true)], Step(f2, PauseCall).next);
  }

  // ------------------------------------------------------------------
  // The class
  // ------------------------------------------------------------------

  class MSScannerSession {
    var state: ScanState
    var snap: bool
    var result: Option<MSResult>
    var losts: nat

    function Model(): Fields
      reads this
    {
      Fields(state, snap, result, losts)
    }

    ghost predicate Valid()
      reads this
    {
      Coherent(Model())
    }

    /** The readonly `state` property: SEARCH whenever a snap is pending. */
    function State(): (s: ScanState)
      reads this
      ensures s == Model().state
      ensures Valid() && snap ==> s == Search
    {
      state
    }

    /** `initWithScanner:` */
    constructor ()
      ensures Valid() && Model() == Initial
    {
      state, snap, result, losts := Default, false, None, 0;
    }

    /** `pause` */
    method Pause() returns (ok: bool)
      requires Valid()
      modifies this
      ensures Valid()
      ensures Transition(Flag(ok), Model()) == PauseStep(old(Model()))
      ensures ok <==> old(state) != Search
      ensures !ok ==> Model() == old(Model())
    {
      if state == Search {
        return false;
      }
      state := ScanState.Pause;
      return true;
    }

    /** `resume` */
    method Resume() returns (ok: bool)
      requires Valid()
      modifies this
      ensures Valid()
      ensures Transition(Flag(ok), Model()) == ResumeStep(old(Model()))
      ensures ok <==> old(state) == ScanState.Pause
      ensures ok ==> Model() == Initial
      ensures !ok ==> Model() == old(Model())
    {
      if state != ScanState.Pause {
        return false;
      }
      state, result, losts := Default, None, 0;
      return true;
    }

    /** `snap`: defers an API search to the next frame. */
    method Snap() returns (ok: bool)
      requires Valid()
      modifies this
      ensures Valid()
      ensures Transition(Flag(ok), Model()) == SnapStep(old(Model()))
      ensures ok <==> old(state) == Default
      ensures ok ==> state == Search && snap && result == None
      ensures !ok ==> Model() == old(Model())
    {
      if state != Default {
        return false;
      }
      state, snap, result := Search, true, None;
      return true;
    }

    /** `cancel`: drops a pending snap or the API search it launched. */
    method Cancel() returns (ok: bool)
      requires Valid()
      modifies this
      ensures Valid()
      ensures Transition(Flag(ok), Model()) == CancelStep(old(Model()))
      ensures ok <==> old(state) == Search
      ensures state != Search && !snap
    {
      if state != Search {
        return false;
      }
      state, snap := Default, false;
      return true;
    }

    /**
     * `scan:options:error:`. Returns the local result, the error and the
     * frame handed to the API search when a snap was pending.
     */
    method Scan(qry: Sdk.Image, options: bv32, reply: LocalReply)
      returns (r: Option<MSResult>, err: Sdk.ErrCode, sent: Option<Sdk.Image>)
      requires Valid()
      modifies this
      ensures Valid()
      ensures Transition(Scanned(r, err, sent), Model()) == ScanStep(old(Model()), qry, options, reply)
      ensures sent.Some? <==> old(snap)
      ensures r.Some? ==> old(state) == Default && r == LocalPick(options, reply)
      ensures old(state) == ScanState.Pause ==> r.None? && Model() == old(Model())
    {
      r, err, sent := None, Sdk.Success, None;
      if state == ScanState.Pause {
        return;
      }
      if state == Search {
        if snap {
          snap := false;
          sent := Some(qry);
        }
        return;
      }
      if reply.err != Sdk.Success {
        err := reply.err;
        return;
      }
      r := LocalPick(options, reply);
      if r.Some? {
        result, losts := r, 0;
      } else {
        losts := losts + 1;
      }
    }

    /** The scanner delegate callbacks, forwarded to the session's delegate or dropped. */
    method OnSearchEvent(e: SearchEvent) returns (delivered: Option<SearchEvent>)
      requires Valid()
      modifies this
      ensures Valid()
      ensures Transition(Forwarded(delivered), Model()) == EventStep(old(Model()), e)
      ensures delivered.Some? <==> old(state) == Search && !old(snap)
      ensures delivered.Some? && !e.WillSearch? ==> state == Default
    {
      if state != Search || snap {
        return None;
      }
      if !e.WillSearch? {
        state := Default;
      }
      return Some(e);
    }
  }

  // ------------------------------------------------------------------
  // What a caller can rely on, shown on fresh sessions
  // ------------------------------------------------------------------

  /**
   * A snap is accepted, the next frame goes to the API search, the scanner
   * reports the search and its result once, and the session is back in
   * DEFAULT; a stray second completion is dropped.
   */
  method SnapSearchScenario(qry: Sdk.Image, options: bv32, reply: LocalReply, id: Sdk.Id)
    returns (snapped: bool, sent: Option<Sdk.Image>, will: Option<SearchEvent>, did: Option<SearchEvent>,
             stray: Option<SearchEvent>, last: ScanState)
    ensures snapped && sent == Some(qry) && will == Some(WillSearch)
    ensures did == Some(DidSearch(Some(Results.MSResult(Results.TypeImage, id))))
    ensures stray == None && last == Default
  {
    var session := new MSScannerSession();
    snapped := session.Snap();
    var r, err;
    r, err, sent := session.Scan(qry, options, reply);
    will := session.OnSearchEvent(WillSearch);
    var found := Results.FromImageId(id);
    did := session.OnSearchEvent(DidSearch(Some(found)));
    stray := session.OnSearchEvent(DidSearch(None));
    last := session.State();
  }

  /** `pause` is refused while searching; after `cancel` it succeeds. */
  method PauseWhileSearchingScenario() returns (first: bool, cancelled: bool, second: bool, last: ScanState)
    ensures !first && cancelled && second && last == Pause
  {
    var session := new MSScannerSession();
    var snapped := session.Snap();
    first := session.Pause();
    cancelled := session.Cancel();
    second := session.Pause();
    last := session.State();
  }

  /**
   * A result found before a pause is cached; while paused the same frame is
   * ignored; `resume` forgets the cached result, and a frame that misses
   * reports nothing.
   */
  method ResumeForgetsResultScenario(qry: Sdk.Image, id: Sdk.Id)
    returns (before: Option<MSResult>, cachedBefore: Option<MSResult>, paused: bool, ignored: Option<MSResult>,
             resumed: bool, cachedAfter: Option<MSResult>, after: Option<MSResult>)
    ensures before == Some(Results.MSResult(Results.TypeImage, id)) && cachedBefore == before
    ensures paused && ignored == None && resumed && cachedAfter == None && after == None
  {
    var session := new MSScannerSession();
    var hit := LocalReply(Sdk.Success, Some(id), None);
    var miss := LocalReply(Sdk.Success, None, None);
    var err, sent;
    before, err, sent := session.Scan(qry, Results.TypeImage, hit);
    cachedBefore := session.result;
    paused := session.Pause();
    ignored, err, sent := session.Scan(qry, Results.TypeImage, hit);
    resumed := session.Resume();
    cachedAfter := session.result;
    after, err, sent := session.Scan(qry, Results.TypeImage, miss);
  }
}
