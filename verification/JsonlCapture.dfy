/** Chunked capture of a worker's event stream: `_JsonlCapture` and `_CaptureThread`. */
module JsonlCapture {
  import opened Bytes
  import opened Processes

  const NEWLINE: Byte := 10
  const READ_SIZE := 64 * 1024

  /** What `bytes.strip` removes. */
  predicate IsSpace(b: Byte) {
    9 <= b <= 13 || b == 32
  }

  predicate Blank(line: seq<Byte>) {
    forall b | b in line :: IsSpace(b)
  }

  /** An event as the capture reads it; a thread id that is missing or blank is None. */
  datatype Event =
    | ThreadStarted(threadId: Option<string>)
    | TurnCompleted
    | TurnFailed
    | StreamError
    | ItemCompleted(isAgentMessage: bool)
    | OtherEvent

  datatype Decoded = Malformed | Untyped | Typed(event: Event)

  datatype CaptureError =
    | MalformedLine
    | UntypedEvent
    | MissingThreadId
    | ConflictingThreadIds
    | UnexpectedThread
    | SessionRefused

  /** The limits, the session to resume, and what JSON decoding and the session store answer. */
  datatype Setup = Setup(
    maxTotalBytes: nat,
    maxLineBytes: nat,
    expectedSession: Option<string>,
    decode: seq<Byte> -> Decoded,
    accepts: string -> bool)

  datatype Progress = Progress(
    threadId: Option<string>,
    turnCompleted: bool,
    agentMessageCompleted: bool,
    terminalError: Option<Event>)

  datatype Reading = Read(progress: Progress) | Rejected(error: CaptureError)

  const START := Progress(None, false, false, None)

  // ----- The simple form: a fold over the lines of the whole stream -----

  function StartThread(setup: Setup, seen: Progress, threadId: Option<string>): Reading {
    if threadId.None? then Rejected(MissingThreadId)
    else if seen.threadId.Some? && seen.threadId != threadId then Rejected(ConflictingThreadIds)
    else if setup.expectedSession.Some? && setup.expectedSession != threadId then Rejected(UnexpectedThread)
    else if seen.threadId.None? && !setup.accepts(threadId.value) then Rejected(SessionRefused)
    else Read(seen.(threadId := threadId))
  }

  function ReadEvent(setup: Setup, seen: Progress, event: Event): Reading {
    match event
    case ThreadStarted(threadId) => StartThread(setup, seen, threadId)
    case TurnCompleted => Read(seen.(turnCompleted := true))
    case TurnFailed => Read(seen.(terminalError := Some(event)))
    case StreamError => Read(seen.(terminalError := Some(event)))
    case ItemCompleted(isAgentMessage) =>
      Read(seen.(agentMessageCompleted := seen.agentMessageCompleted || isAgentMessage))
    case OtherEvent => Read(seen)
  }

  function ReadLine(setup: Setup, seen: Progress, line: seq<Byte>): Reading {
    if Blank(line) then Read(seen)
    else match setup.decode(line)
      case Malformed => Rejected(MalformedLine)
      case Untyped => Rejected(UntypedEvent)
      case Typed(event) => ReadEvent(setup, seen, event)
  }

  function Fold(setup: Setup, lines: seq<seq<Byte>>): Reading {
    if lines == [] then Read(START)
    else
      var reading := Fold(setup, lines[..|lines| - 1]);
      if reading.Read? then ReadLine(setup, reading.progress, lines[|lines| - 1]) else reading
  }

  /** What follows the last newline of s. */
  function Pending(s: seq<Byte>): seq<Byte> {
    if s == [] || s[|s| - 1] == NEWLINE then [] else Pending(s[..|s| - 1]) + [s[|s| - 1]]
  }

  /** The lines of s that a newline ended. */
  function Complete(s: seq<Byte>): seq<seq<Byte>> {
    if s == [] then []
    else if s[|s| - 1] == NEWLINE then Complete(s[..|s| - 1]) + [Pending(s[..|s| - 1])]
    else Complete(s[..|s| - 1])
  }

  function Lines(s: seq<Byte>): seq<seq<Byte>> {
    Complete(s) + [Pending(s)]
  }

  function Flat(chunks: seq<seq<Byte>>): seq<Byte> {
    if chunks == [] then [] else Flat(chunks[..|chunks| - 1]) + chunks[|chunks| - 1]
  }

  predicate LineFits(setup: Setup, line: seq<Byte>) {
    Blank(line) || |line| <= setup.maxLineBytes
  }

  predicate AllFit(setup: Setup, lines: seq<seq<Byte>>) {
    forall line | line in lines :: LineFits(setup, line)
  }

  /** No line of s that ended is too long to read, and what is buffered of the last is within the limit. */
  predicate BufferFits(setup: Setup, s: seq<Byte>) {
    AllFit(setup, Complete(s)) && |Pending(s)| <= setup.maxLineBytes
  }

  /** No limit is passed at the end of any read. */
  predicate Fits(setup: Setup, chunks: seq<seq<Byte>>) {
    |Flat(chunks)| <= setup.maxTotalBytes && forall k | 0 <= k <= |chunks| :: BufferFits(setup, Flat(chunks[..k]))
  }

  // ----- Lines of a stream read in parts -----

  lemma LinesAppend(s: seq<Byte>, b: Byte)
    ensures Complete(s + [b]) == if b == NEWLINE then Complete(s) + [Pending(s)] else Complete(s)
    ensures Pending(s + [b]) == if b == NEWLINE then [] else Pending(s) + [b]
  {
    assert (s + [b])[..|s|] == s;
  }

  lemma NothingExtends(s: seq<Byte>)
    ensures Complete(s + []) == Complete(s) + Complete(Pending(s) + [])
    ensures Pending(s + []) == Pending(Pending(s) + [])
  {
    AppendNothing(s);
    AppendNothing(Pending(s));
    AppendNothing(Complete(s));
    PendingHasNoNewline(s);
    OneLine(Pending(s));
  }

  lemma {:induction false} LinesExtend(s: seq<Byte>, t: seq<Byte>)
    ensures Complete(s + t) == Complete(s) + Complete(Pending(s) + t)
    ensures Pending(s + t) == Pending(Pending(s) + t)
    decreases |t|
  {
    if t == [] {
      NothingExtends(s);
    } else {
      var front, b := t[..|t| - 1], t[|t| - 1];
      LinesExtend(s, front);
      assert t == front + [b];
      AppendAssociates(s, front, [b]);
      AppendAssociates(Pending(s), front, [b]);
      LinesAppend(s + front, b);
      LinesAppend(Pending(s) + front, b);
      AppendAssociates(Complete(s), Complete(Pending(s) + front), [Pending(Pending(s) + front)]);
    }
  }

  lemma {:induction false} OneLine(s: seq<Byte>)
    requires NEWLINE !in s
    ensures Complete(s) == [] && Pending(s) == s
  {
    if s != [] {
      OneLine(s[..|s| - 1]);
      assert s[|s| - 1] in s && s == s[..|s| - 1] + [s[|s| - 1]];
    }
  }

  lemma {:induction false} PendingHasNoNewline(s: seq<Byte>)
    ensures NEWLINE !in Pending(s)
  {
    if s != [] {
      PendingHasNoNewline(s[..|s| - 1]);
    }
  }

  lemma FirstLine(line: seq<Byte>, rest: seq<Byte>)
    requires NEWLINE !in line
    ensures Complete(line + [NEWLINE] + rest) == [line] + Complete(rest)
    ensures Pending(line + [NEWLINE] + rest) == Pending(rest)
  {
    OneLine(line);
    LinesAppend(line, NEWLINE);
    LinesExtend(line + [NEWLINE], rest);
    assert [] + rest == rest;
  }

  lemma {:induction false} FoldExtends(setup: Setup, lines: seq<seq<Byte>>, more: seq<seq<Byte>>)
    requires Fold(setup, lines).Rejected?
    ensures Fold(setup, lines + more) == Fold(setup, lines)
    decreases |more|
  {
    if more == [] {
      assert lines + more == lines;
    } else {
      FoldExtends(setup, lines, more[..|more| - 1]);
      assert (lines + more)[..|lines + more| - 1] == lines + more[..|more| - 1];
    }
  }

  lemma AllFitAppends(setup: Setup, lines: seq<seq<Byte>>, more: seq<seq<Byte>>)
    ensures AllFit(setup, lines + more) <==> AllFit(setup, lines) && AllFit(setup, more)
  {
    forall line
      ensures line in lines + more <==> line in lines || line in more
    {
    }
  }

  lemma FoldStep(setup: Setup, lines: seq<seq<Byte>>, line: seq<Byte>)
    ensures Fold(setup, lines).Read? ==>
              Fold(setup, lines + [line]) == ReadLine(setup, Fold(setup, lines).progress, line)
  {
    assert (lines + [line])[..|lines|] == lines;
  }

  lemma FitsExtends(setup: Setup, chunks: seq<seq<Byte>>, chunk: seq<Byte>)
    ensures Flat(chunks + [chunk]) == Flat(chunks) + chunk
    ensures Fits(setup, chunks + [chunk]) <==>
            && Fits(setup, chunks)
            && |Flat(chunks + [chunk])| <= setup.maxTotalBytes
            && BufferFits(setup, Flat(chunks + [chunk]))
  {
    var more := chunks + [chunk];
    assert more[..|chunks|] == chunks && more[..|more|] == more;
    forall k | 0 <= k <= |chunks|
      ensures more[..k] == chunks[..k]
    {
    }
  }

  lemma FlatAppends(chunks: seq<seq<Byte>>, chunk: seq<Byte>)
    ensures Flat(chunks + [chunk]) == Flat(chunks) + chunk
  {
    assert (chunks + [chunk])[..|chunks|] == chunks;
  }

  lemma {:induction false} FlatExtends(chunks: seq<seq<Byte>>, more: seq<seq<Byte>>)
    ensures Flat(chunks + more) == Flat(chunks) + Flat(more)
    decreases |more|
  {
    if more == [] {
      AppendNothing(chunks);
      AppendNothing(Flat(chunks));
    } else {
      var front, last := more[..|more| - 1], more[|more| - 1];
      FlatExtends(chunks, front);
      assert more == front + [last];
      AppendAssociates(chunks, front, [last]);
      FlatAppends(chunks + front, last);
      AppendAssociates(Flat(chunks), Flat(front), last);
    }
  }

  /** What the fold refuses, it refuses whatever follows; a limit once passed stays passed. */
  lemma ErrorIsFinal(setup: Setup, chunks: seq<seq<Byte>>, n: nat)
    requires n <= |chunks|
    ensures Fits(setup, chunks) ==> Fits(setup, chunks[..n])
    ensures Fold(setup, Complete(Flat(chunks[..n]))).Rejected? ==>
              Fold(setup, Lines(Flat(chunks))) == Fold(setup, Complete(Flat(chunks[..n])))
  {
    var s, t := Flat(chunks[..n]), Flat(chunks[n..]);
    assert chunks == chunks[..n] + chunks[n..];
    FlatExtends(chunks[..n], chunks[n..]);
    forall k | 0 <= k <= n
      ensures chunks[..n][..k] == chunks[..k]
    {
    }
    if Fold(setup, Complete(s)).Rejected? {
      LinesExtend(s, t);
      var more := Complete(Pending(s) + t) + [Pending(s + t)];
      FoldExtends(setup, Complete(s), more);
      assert Lines(s + t) == Complete(s) + more;
    }
  }

  // ----- What the fold finds -----

  predicate Readable(setup: Setup, line: seq<Byte>) {
    Blank(line) || setup.decode(line).Typed?
  }

  /** The events of the lines that have one, in order. */
  function Events(setup: Setup, lines: seq<seq<Byte>>): seq<Event> {
    if lines == [] then []
    else
      var line := lines[|lines| - 1];
      var before := Events(setup, lines[..|lines| - 1]);
      if !Blank(line) && setup.decode(line).Typed? then before + [setup.decode(line).event] else before
  }

  /** A thread that the request and the session store allow. */
  predicate Allowed(setup: Setup, threadId: Option<string>) {
    threadId.Some? && setup.accepts(threadId.value)
      && (setup.expectedSession.Some? ==> setup.expectedSession == threadId)
  }

  /** Every start is of the one thread, which is allowed; without a thread there is no start. */
  predicate OneThread(setup: Setup, events: seq<Event>, threadId: Option<string>) {
    && (forall event | event in events && event.ThreadStarted? :: threadId.Some? && event.threadId == threadId)
    && (threadId.Some? ==> ThreadStarted(threadId) in events && Allowed(setup, threadId))
  }

  ghost predicate Consistent(setup: Setup, events: seq<Event>) {
    exists threadId :: OneThread(setup, events, threadId)
  }

  predicate AllReadable(setup: Setup, lines: seq<seq<Byte>>) {
    forall line | line in lines :: Readable(setup, line)
  }

  /** The fold succeeds exactly on lines that can all be read and that start at most one thread, an allowed one. */
  lemma {:induction false} FoldSucceedsIff(setup: Setup, lines: seq<seq<Byte>>)
    ensures Fold(setup, lines).Read? <==> AllReadable(setup, lines) && Consistent(setup, Events(setup, lines))
    ensures Fold(setup, lines).Read? ==> OneThread(setup, Events(setup, lines), Fold(setup, lines).progress.threadId)
  {
    if lines == [] {
      assert OneThread(setup, [], None);
    } else {
      var front, line := lines[..|lines| - 1], lines[|lines| - 1];
      FoldSucceedsIff(setup, front);
      assert AllReadable(setup, lines) <==> AllReadable(setup, front) && Readable(setup, line) by {
        assert lines == front + [line];
      }
      if !Blank(line) && Readable(setup, line) {
        var event := setup.decode(line).event;
        ConsistentBefore(setup, Events(setup, front), event);
        if Fold(setup, front).Read? {
          ConsistentStep(setup, Events(setup, front), event, Fold(setup, front).progress);
        }
      }
    }
  }

  lemma ConsistentBefore(setup: Setup, events: seq<Event>, event: Event)
    ensures Consistent(setup, events + [event]) ==> Consistent(setup, events)
  {
    if threadId :| OneThread(setup, events + [event], threadId) {
      assert forall e | e in events :: e in events + [event];
      if started :| started in events && started.ThreadStarted? {
        assert OneThread(setup, events, threadId);
      } else {
        assert OneThread(setup, events, None);
      }
    }
  }

  lemma ConsistentStep(setup: Setup, events: seq<Event>, event: Event, seen: Progress)
    requires OneThread(setup, events, seen.threadId)
    ensures ReadEvent(setup, seen, event).Read? <==> Consistent(setup, events + [event])
    ensures ReadEvent(setup, seen, event).Read? ==>
              OneThread(setup, events + [event], ReadEvent(setup, seen, event).progress.threadId)
  {
    assert event in events + [event] && forall e | e in events :: e in events + [event];
    if Consistent(setup, events + [event]) {
      var threadId :| OneThread(setup, events + [event], threadId);
      assert event.ThreadStarted? ==> event.threadId == threadId;
    }
    if ReadEvent(setup, seen, event).Read? {
      assert OneThread(setup, events + [event], ReadEvent(setup, seen, event).progress.threadId);
    }
  }

  /** The flags say which events occur; the error is the last failure. */
  lemma {:induction false} FoldFinds(setup: Setup, lines: seq<seq<Byte>>)
    requires Fold(setup, lines).Read?
    ensures var found, events := Fold(setup, lines).progress, Events(setup, lines);
            && (found.turnCompleted <==> TurnCompleted in events)
            && (found.agentMessageCompleted <==> ItemCompleted(true) in events)
            && LastFailure(events, found.terminalError)
  {
    if lines != [] {
      var front, line := lines[..|lines| - 1], lines[|lines| - 1];
      FoldFinds(setup, front);
      if !Blank(line) {
        LastFailureStep(Events(setup, front), setup.decode(line).event, Fold(setup, front).progress.terminalError);
      }
    }
  }

  lemma LastFailureStep(events: seq<Event>, event: Event, error: Option<Event>)
    requires LastFailure(events, error)
    ensures LastFailure(events + [event], if Failure(event) then Some(event) else error)
  {
    var more := events + [event];
    if Failure(event) {
      assert more[|events|] == event;
    } else if error.Some? {
      var i :| 0 <= i < |events| && events[i] == error.value && forall j | i < j < |events| :: !Failure(events[j]);
      assert more[i] == error.value && forall j | i < j < |more| :: !Failure(more[j]);
    }
  }

  predicate Failure(event: Event) {
    event.TurnFailed? || event.StreamError?
  }

  predicate LastFailure(events: seq<Event>, error: Option<Event>) {
    if error.None? then forall event | event in events :: !Failure(event)
    else Failure(error.value) && exists i | 0 <= i < |events| ::
        events[i] == error.value && forall j | i < j < |events| :: !Failure(events[j])
  }

  // ----- Which splits pass a limit -----

  /** The reads of a whole stream, none empty and none over the read size. */
  ghost predicate Split(chunks: seq<seq<Byte>>, s: seq<Byte>) {
    Flat(chunks) == s && forall chunk | chunk in chunks :: 0 < |chunk| <= READ_SIZE
  }

  function Singles(s: seq<Byte>): seq<seq<Byte>> {
    seq(|s|, i requires 0 <= i < |s| => [s[i]])
  }

  lemma {:induction false} SinglesFlat(s: seq<Byte>, k: nat)
    requires k <= |s|
    ensures Flat(Singles(s)[..k]) == s[..k]
  {
    if k > 0 {
      SinglesFlat(s, k - 1);
      assert Singles(s)[..k][..k - 1] == Singles(s)[..k - 1];
      assert s[..k] == s[..k - 1] + [s[k - 1]];
    }
  }

  lemma SinglesSplit(s: seq<Byte>)
    ensures Split(Singles(s), s)
    ensures forall k | 0 <= k <= |s| :: Flat(Singles(s)[..k]) == s[..k]
  {
    forall k | 0 <= k <= |s|
      ensures Flat(Singles(s)[..k]) == s[..k]
    {
      SinglesFlat(s, k);
    }
    assert Singles(s)[..|s|] == Singles(s) && s[..|s|] == s;
  }

  lemma {:induction false} LongLineIsPending(s: seq<Byte>, line: seq<Byte>) returns (k: nat)
    requires line in Lines(s)
    ensures k <= |s| && Pending(s[..k]) == line
  {
    if Pending(s) == line {
      k := |s|;
      assert s[..k] == s;
    } else {
      var front := s[..|s| - 1];
      k := LongLineIsPending(front, line);
      assert front[..k] == s[..k];
    }
  }

  predicate AllShort(setup: Setup, s: seq<Byte>) {
    forall line | line in Lines(s) :: |line| <= setup.maxLineBytes
  }

  lemma {:induction false} PrefixesAreShort(setup: Setup, s: seq<Byte>, n: nat)
    requires AllShort(setup, s) && n <= |s|
    ensures AllShort(setup, s[..n]) && BufferFits(setup, s[..n])
  {
    assert Pending(s) in Lines(s);
    forall line | line in Complete(s)
      ensures |line| <= setup.maxLineBytes
    {
      assert line in Lines(s);
    }
    if n == |s| {
      assert s[..n] == s;
    } else {
      var front := s[..|s| - 1];
      forall line | line in Lines(front)
        ensures |line| <= setup.maxLineBytes
      {
        assert line in Complete(s) || |line| < |Pending(s)|;
      }
      PrefixesAreShort(setup, front, n);
      assert front[..n] == s[..n];
    }
  }

  lemma FlatPrefix(chunks: seq<seq<Byte>>, k: nat)
    requires k <= |chunks|
    ensures |Flat(chunks[..k])| <= |Flat(chunks)| && Flat(chunks[..k]) == Flat(chunks)[..|Flat(chunks[..k])|]
  {
    assert chunks == chunks[..k] + chunks[k..];
    FlatExtends(chunks[..k], chunks[k..]);
  }

  /** No read can pass a limit, however the stream is cut, exactly when the stream and each of its lines are short. */
  lemma EverySplitFitsIff(setup: Setup, s: seq<Byte>)
    ensures (forall chunks | Split(chunks, s) :: Fits(setup, chunks))
            <==> |s| <= setup.maxTotalBytes && AllShort(setup, s)
  {
    if |s| <= setup.maxTotalBytes && AllShort(setup, s) {
      forall chunks | Split(chunks, s)
        ensures Fits(setup, chunks)
      {
        forall k | 0 <= k <= |chunks|
          ensures BufferFits(setup, Flat(chunks[..k]))
        {
          FlatPrefix(chunks, k);
          PrefixesAreShort(setup, s, |Flat(chunks[..k])|);
        }
      }
    }
    if forall chunks | Split(chunks, s) :: Fits(setup, chunks) {
      SinglesSplit(s);
      assert Fits(setup, Singles(s));
      forall line | line in Lines(s)
        ensures |line| <= setup.maxLineBytes
      {
        var k := LongLineIsPending(s, line);
        assert BufferFits(setup, Flat(Singles(s)[..k]));
      }
    }
  }

  function Spaces(n: nat): (s: seq<Byte>)
    ensures |s| == n && Blank(s) && NEWLINE !in s
  {
    seq(n, i => 32)
  }

  lemma SinglesFit(setup: Setup, s: seq<Byte>)
    requires |s| <= setup.maxTotalBytes && AllShort(setup, s)
    ensures Fits(setup, Singles(s)) && Split(Singles(s), s)
  {
    SinglesSplit(s);
    EverySplitFitsIff(setup, s);
  }

  lemma LongBlankLine(setup: Setup, n: nat)
    ensures Complete(Spaces(n) + [NEWLINE]) == [Spaces(n)] && Pending(Spaces(n) + [NEWLINE]) == []
    ensures Fold(setup, Lines(Spaces(n) + [NEWLINE])) == Read(START)
  {
    OneLine(Spaces(n));
    LinesAppend(Spaces(n), NEWLINE);
    FoldStep(setup, [], Spaces(n));
    FoldStep(setup, [Spaces(n)], []);
    assert [] + [Spaces(n)] == [Spaces(n)];
  }

  function Least(a: nat, b: nat): nat {
    if a < b then a else b
  }

  // ----- When the cut matters -----

  /** What `Consume` answers of a cut: it ends untruncated and without error. */
  ghost predicate Clean(setup: Setup, chunks: seq<seq<Byte>>) {
    Fits(setup, chunks) && Fold(setup, Lines(Flat(chunks))).Read?
  }

  /** A line that some cut skips or reads: at most the limit is buffered before the read that ends it. */
  predicate Passable(setup: Setup, line: seq<Byte>) {
    LineFits(setup, line) && |line| < setup.maxLineBytes + READ_SIZE
  }

  predicate AllPassable(setup: Setup, s: seq<Byte>) {
    && |s| <= setup.maxTotalBytes && |Pending(s)| <= setup.maxLineBytes
    && forall line | line in Complete(s) :: Passable(setup, line)
  }

  lemma {:induction false} CompleteAreShorter(s: seq<Byte>)
    ensures |Pending(s)| <= |s|
    ensures forall line | line in Complete(s) :: |line| < |s|
  {
    if s != [] {
      CompleteAreShorter(s[..|s| - 1]);
    }
  }

  lemma {:induction false} FittingLinesArePassable(setup: Setup, chunks: seq<seq<Byte>>, k: nat)
    requires k <= |chunks| && Fits(setup, chunks) && forall chunk | chunk in chunks :: |chunk| <= READ_SIZE
    ensures forall line | line in Complete(Flat(chunks[..k])) :: |line| < setup.maxLineBytes + READ_SIZE
  {
    if k > 0 {
      FittingLinesArePassable(setup, chunks, k - 1);
      var s, t := Flat(chunks[..k - 1]), chunks[k - 1];
      assert chunks[..k] == chunks[..k - 1] + [t] && t in chunks;
      FlatAppends(chunks[..k - 1], t);
      LinesExtend(s, t);
      CompleteAreShorter(Pending(s) + t);
      assert BufferFits(setup, s);
    }
  }

  /** The part of s up to its last newline. */
  lemma {:induction false} Committed(s: seq<Byte>) returns (u: seq<Byte>)
    ensures s == u + Pending(s) && Complete(u) == Complete(s) && Pending(u) == []
  {
    if s == [] || s[|s| - 1] == NEWLINE {
      u := s;
      AppendNothing(s);
    } else {
      var front, b := s[..|s| - 1], s[|s| - 1];
      u := Committed(front);
      assert s == front + [b];
      AppendAssociates(u, Pending(front), [b]);
    }
  }

  /** The last line of s that a newline ended, and what is before it. */
  lemma {:induction false} LastLine(s: seq<Byte>) returns (u: seq<Byte>, line: seq<Byte>)
    requires Complete(s) != []
    ensures s == u + line + [NEWLINE] + Pending(s) && NEWLINE !in line
    ensures Pending(u) == [] && Complete(s) == Complete(u) + [line]
  {
    var front, b := s[..|s| - 1], s[|s| - 1];
    assert s == front + [b];
    if b == NEWLINE {
      u := Committed(front);
      line := Pending(front);
      PendingHasNoNewline(front);
      AppendNothing(s);
    } else {
      u, line := LastLine(front);
      AppendAssociates(u + line + [NEWLINE], Pending(front), [b]);
    }
  }

  ghost predicate CanFit(setup: Setup, s: seq<Byte>) {
    exists chunks :: Split(chunks, s) && Fits(setup, chunks)
  }

  lemma ReadOn(setup: Setup, s: seq<Byte>, last: seq<Byte>)
    requires CanFit(setup, s) && 0 < |last| <= READ_SIZE
    requires |s + last| <= setup.maxTotalBytes && BufferFits(setup, s + last)
    ensures CanFit(setup, s + last)
  {
    var chunks :| Split(chunks, s) && Fits(setup, chunks);
    FitsExtends(setup, chunks, last);
    assert Split(chunks + [last], s + last);
  }

  lemma CanFitIsBuffered(setup: Setup, s: seq<Byte>)
    requires CanFit(setup, s)
    ensures BufferFits(setup, s)
  {
    var chunks :| Split(chunks, s) && Fits(setup, chunks);
    assert chunks[..|chunks|] == chunks;
  }

  lemma ReadOnByte(setup: Setup, s: seq<Byte>, b: Byte)
    requires CanFit(setup, s) && b != NEWLINE
    requires |s| < setup.maxTotalBytes && |Pending(s)| < setup.maxLineBytes
    ensures CanFit(setup, s + [b]) && Complete(s + [b]) == Complete(s) && Pending(s + [b]) == Pending(s) + [b]
  {
    CanFitIsBuffered(setup, s);
    LinesAppend(s, b);
    ReadOn(setup, s, [b]);
  }

  /** One byte at a time, as long as no newline comes and the limits hold. */
  lemma {:induction false} ReadOnLine(setup: Setup, s: seq<Byte>, t: seq<Byte>)
    requires CanFit(setup, s) && NEWLINE !in t
    requires |s| + |t| <= setup.maxTotalBytes && |Pending(s)| + |t| <= setup.maxLineBytes
    ensures CanFit(setup, s + t) && Complete(s + t) == Complete(s) && Pending(s + t) == Pending(s) + t
    decreases |t|
  {
    if t == [] {
      AppendNothing(s);
      AppendNothing(Pending(s));
    } else {
      var front, b := t[..|t| - 1], t[|t| - 1];
      assert t == front + [b] && b in t;
      ReadOnLine(setup, s, front);
      ReadOnByte(setup, s + front, b);
      AppendAssociates(s, front, [b]);
      AppendAssociates(Pending(s), front, [b]);
    }
  }

  lemma EndedLineFits(setup: Setup, u: seq<Byte>, line: seq<Byte>)
    requires BufferFits(setup, u) && Pending(u) == [] && NEWLINE !in line && LineFits(setup, line)
    ensures BufferFits(setup, u + line + [NEWLINE])
  {
    EndedLine(u, line);
    AllFitAppends(setup, Complete(u), [line]);
  }

  lemma LastPart(u: seq<Byte>, line: seq<Byte>, m: nat)
    requires m <= |line|
    ensures (u + line[..m]) + (line[m..] + [NEWLINE]) == u + line + [NEWLINE]
  {
    assert line == line[..m] + line[m..];
  }

  lemma ReadWholeLine(setup: Setup, u: seq<Byte>, line: seq<Byte>)
    requires CanFit(setup, u) && Pending(u) == [] && NEWLINE !in line
    requires Passable(setup, line) && |u + line + [NEWLINE]| <= setup.maxTotalBytes
    ensures CanFit(setup, u + line + [NEWLINE])
  {
    var m := Least(|line|, setup.maxLineBytes);
    CanFitIsBuffered(setup, u);
    EndedLineFits(setup, u, line);
    assert forall b | b in line[..m] :: b in line;
    ReadOnLine(setup, u, line[..m]);
    LastPart(u, line, m);
    ReadOn(setup, u + line[..m], line[m..] + [NEWLINE]);
  }

  lemma EndedLine(u: seq<Byte>, line: seq<Byte>)
    requires Pending(u) == [] && NEWLINE !in line
    ensures Complete(u + line + [NEWLINE]) == Complete(u) + [line] && Pending(u + line + [NEWLINE]) == []
  {
    AppendAssociates(u, line, [NEWLINE]);
    LinesExtend(u, line + [NEWLINE]);
    AppendNothing(line + [NEWLINE]);
    assert [] + (line + [NEWLINE]) == line + [NEWLINE] + [];
    FirstLine(line, []);
  }

  lemma {:induction false} PassableCanFit(setup: Setup, s: seq<Byte>)
    requires AllPassable(setup, s)
    ensures CanFit(setup, s)
    decreases |s|
  {
    if Complete(s) == [] {
      SinglesFit(setup, s);
    } else {
      var u, line := LastLine(s);
      PassableParts(setup, s, u, line);
      PassableCanFit(setup, u);
      ReadWholeLine(setup, u, line);
      EndedLine(u, line);
      PendingHasNoNewline(s);
      ReadOnLine(setup, u + line + [NEWLINE], Pending(s));
    }
  }

  lemma PassableParts(setup: Setup, s: seq<Byte>, u: seq<Byte>, line: seq<Byte>)
    requires AllPassable(setup, s) && Pending(u) == [] && Complete(s) == Complete(u) + [line]
    requires |s| == |u| + |line| + 1 + |Pending(s)|
    ensures AllPassable(setup, u) && Passable(setup, line) && |u + line + [NEWLINE]| <= setup.maxTotalBytes
  {
    assert line in Complete(s) && forall l | l in Complete(u) :: l in Complete(s);
  }

  /** Some cut of the stream passes no limit exactly when its total, its tail and its lines that are not blank are
      within the limits, and each line that is too long ends within one read past the limit. */
  lemma SomeSplitFitsIff(setup: Setup, s: seq<Byte>)
    ensures CanFit(setup, s) <==> AllPassable(setup, s)
  {
    if CanFit(setup, s) {
      var chunks :| Split(chunks, s) && Fits(setup, chunks);
      CanFitIsBuffered(setup, s);
      assert chunks[..|chunks|] == chunks;
      FittingLinesArePassable(setup, chunks, |chunks|);
    }
    if AllPassable(setup, s) {
      PassableCanFit(setup, s);
    }
  }

  predicate HasLongBlankLine(setup: Setup, s: seq<Byte>) {
    exists line | line in Complete(s) :: Blank(line) && |line| > setup.maxLineBytes
  }

  /** The cut decides whether a capture ends clean exactly for streams that are passable and readable and hold a blank
      line over the limit; for any other stream all cuts end clean or none does. */
  lemma CutMattersIff(setup: Setup, s: seq<Byte>)
    ensures (exists chunks, others ::
               Split(chunks, s) && Split(others, s) && Clean(setup, chunks) && !Clean(setup, others))
            <==> AllPassable(setup, s) && HasLongBlankLine(setup, s) && Fold(setup, Lines(s)).Read?
  {
    SomeSplitFitsIff(setup, s);
    EverySplitFitsIff(setup, s);
    if AllPassable(setup, s) {
      LongLinesAreBlank(setup, s);
    }
  }

  lemma LongLinesAreBlank(setup: Setup, s: seq<Byte>)
    requires AllPassable(setup, s)
    ensures AllShort(setup, s) <==> !HasLongBlankLine(setup, s)
  {
    assert forall line :: line in Lines(s) <==> line in Complete(s) || line == Pending(s);
  }

  lemma LongBlankLineCanFail(setup: Setup, n: nat)
    requires setup.maxLineBytes < n
    ensures exists chunks :: Split(chunks, Spaces(n) + [NEWLINE]) && !Fits(setup, chunks)
  {
    var s := Spaces(n) + [NEWLINE];
    LongBlankLine(setup, n);
    assert Spaces(n) in Lines(s);
    EverySplitFitsIff(setup, s);
  }

  /** A blank line over the limit is skipped or ends the capture, as the stream happens to be cut. */
  lemma LongBlankLineDependsOnTheSplit(setup: Setup)
    requires setup.maxLineBytes + 2 <= setup.maxTotalBytes
    ensures var s := Spaces(setup.maxLineBytes + 1) + [NEWLINE];
            && Fold(setup, Lines(s)) == Read(START)
            && (exists chunks :: Split(chunks, s) && Fits(setup, chunks))
            && (exists chunks :: Split(chunks, s) && !Fits(setup, chunks))
  {
    var n := setup.maxLineBytes + 1;
    LongBlankLine(setup, n);
    SomeSplitFitsIff(setup, Spaces(n) + [NEWLINE]);
    LongBlankLineCanFail(setup, n);
  }

  // ----- The chunked form -----

  /** `bytes.find` of a newline; the length where there is none. */
  function FindNewline(s: seq<Byte>): (at: nat)
    ensures at <= |s| && NEWLINE !in s[..at] && (at < |s| ==> s[at] == NEWLINE)
  {
    if s == [] || s[0] == NEWLINE then 0
    else
      assert s[..1 + FindNewline(s[1..])] == [s[0]] + s[1..][..FindNewline(s[1..])];
      1 + FindNewline(s[1..])
  }

  class Capture {
    const setup: Setup
    var buffer: seq<Byte>
    var totalBytes: nat
    var artifact: seq<Byte>
    var digested: seq<Byte>
    var discardLine: bool
    var truncated: bool
    var threadId: Option<string>
    var turnCompleted: bool
    var agentMessageCompleted: bool
    var terminalError: Option<Event>
    /** The calls made to record the external session. */
    var sessions: seq<string>

    constructor (setup: Setup)
      ensures this.setup == setup && At([]) && artifact == digested == [] && totalBytes == 0 && OneSession()
    {
      this.setup := setup;
      buffer, totalBytes, artifact, digested, discardLine, truncated := [], 0, [], [], false, false;
      threadId, turnCompleted, agentMessageCompleted, terminalError, sessions := None, false, false, None, [];
    }

    function Seen(): Progress
      reads this
    {
      Progress(threadId, turnCompleted, agentMessageCompleted, terminalError)
    }

    /** Untruncated after the stream s: the fields are those of the fold, the buffer what is left. */
    ghost predicate At(s: seq<Byte>)
      reads this
    {
      !truncated && !discardLine && buffer == Pending(s) && BufferFits(setup, s)
      && Fold(setup, Complete(s)) == Read(Seen())
    }

    ghost predicate OneSession()
      reads this
    {
      sessions == if threadId.Some? then [threadId.value] else []
    }

    method StartOrConfirm(started: Option<string>) returns (error: Option<CaptureError>)
      requires OneSession()
      modifies this`threadId, this`sessions
      ensures |sessions| <= 1 && (error.None? ==> OneSession())
      ensures var reading := StartThread(setup, old(Seen()), started);
              if reading.Read? then error == None && Seen() == reading.progress
              else error == Some(reading.error) && Seen() == old(Seen())
    {
      if started.None? {
        return Some(MissingThreadId);
      }
      if threadId.Some? && threadId != started {
        return Some(ConflictingThreadIds);
      }
      if setup.expectedSession.Some? && setup.expectedSession != started {
        return Some(UnexpectedThread);
      }
      if threadId.None? {
        sessions := sessions + [started.value];
        if !setup.accepts(started.value) {
          return Some(SessionRefused);
        }
        threadId := started;
      }
      return None;
    }

    method ParseLine(line: seq<Byte>) returns (error: Option<CaptureError>)
      requires OneSession()
      modifies this`truncated, this`threadId, this`turnCompleted, this`agentMessageCompleted, this`terminalError,
               this`sessions
      ensures |sessions| <= 1 && (error.None? ==> OneSession())
      ensures truncated == (old(truncated) || !LineFits(setup, line))
      ensures !LineFits(setup, line) ==> error.None?
      ensures LineFits(setup, line) ==>
                var reading := ReadLine(setup, old(Seen()), line);
                if reading.Read? then error == None && Seen() == reading.progress else error == Some(reading.error)
    {
      if Blank(line) {
        return None;
      }
      if |line| > setup.maxLineBytes {
        truncated := true;
        return None;
      }
      var decoded := setup.decode(line);
      if decoded.Malformed? {
        return Some(MalformedLine);
      }
      if decoded.Untyped? {
        return Some(UntypedEvent);
      }
      match decoded.event
      case ThreadStarted(started) => error := StartOrConfirm(started);
      case TurnCompleted => turnCompleted, error := true, None;
      case TurnFailed => terminalError, error := Some(decoded.event), None;
      case StreamError => terminalError, error := Some(decoded.event), None;
      case ItemCompleted(isAgentMessage) =>
        if isAgentMessage {
          agentMessageCompleted := true;
        }
        error := None;
      case OtherEvent => error := None;
    }

    /** The line that ends at the newline found, out of the buffer. */
    method TakeLine(newline: nat) returns (line: seq<Byte>)
      requires newline < |buffer| && newline == FindNewline(buffer)
      modifies this`buffer
      ensures Complete(old(buffer)) == [line] + Complete(buffer) && Pending(old(buffer)) == Pending(buffer)
      ensures |buffer| < |old(buffer)|
    {
      line := buffer[..newline];
      assert buffer == line + [NEWLINE] + buffer[newline + 1..];
      FirstLine(line, buffer[newline + 1..]);
      buffer := buffer[newline + 1..];
    }

    /** The fields after the given lines; `truncated` says that one of them was too long to read. */
    ghost predicate Followed(lines: seq<seq<Byte>>)
      reads this
    {
      OneSession() && truncated == !AllFit(setup, lines) && (!truncated ==> Fold(setup, lines) == Read(Seen()))
    }

    /** A line of these raised the error. */
    ghost predicate Stopped(lines: seq<seq<Byte>>, error: CaptureError)
      reads this
    {
      |sessions| <= 1 && if truncated then !AllFit(setup, lines) else Fold(setup, lines) == Rejected(error)
    }

    lemma StoppedExtends(lines: seq<seq<Byte>>, more: seq<seq<Byte>>, error: CaptureError)
      requires Stopped(lines, error)
      ensures Stopped(lines + more, error)
    {
      AllFitAppends(setup, lines, more);
      if !truncated {
        FoldExtends(setup, lines, more);
      }
    }

    method ParseNext(ghost lines: seq<seq<Byte>>, line: seq<Byte>) returns (error: Option<CaptureError>)
      requires Followed(lines)
      modifies this`truncated, this`threadId, this`turnCompleted, this`agentMessageCompleted, this`terminalError,
               this`sessions
      ensures error.None? ==> Followed(lines + [line])
      ensures error.Some? ==> Stopped(lines + [line], error.value)
    {
      AllFitAppends(setup, lines, [line]);
      FoldStep(setup, lines, line);
      assert line in [line];
      error := ParseLine(line);
    }

    /** Every line that ended in the buffer, in order, after the lines `before`. */
    method ParseLines(ghost before: seq<seq<Byte>>) returns (error: Option<CaptureError>)
      requires Followed(before)
      modifies this`buffer, this`truncated, this`threadId, this`turnCompleted, this`agentMessageCompleted,
               this`terminalError, this`sessions
      ensures error.None? ==> buffer == Pending(old(buffer)) && Followed(before + Complete(old(buffer)))
      ensures error.Some? ==> Stopped(before + Complete(old(buffer)), error.value)
    {
      ghost var parsed := before;
      var newline := FindNewline(buffer);
      while newline < |buffer|
        invariant newline == FindNewline(buffer)
        invariant before + Complete(old(buffer)) == parsed + Complete(buffer)
        invariant Pending(old(buffer)) == Pending(buffer)
        invariant Followed(parsed)
        decreases |buffer|
      {
        ghost var whole := Complete(buffer);
        var line := TakeLine(newline);
        assert parsed + whole == parsed + [line] + Complete(buffer);
        error := ParseNext(parsed, line);
        parsed := parsed + [line];
        if error.Some? {
          StoppedExtends(parsed, Complete(buffer), error.value);
          return;
        }
        newline := FindNewline(buffer);
      }
      OneLine(buffer);
      assert parsed + [] == parsed;
      error := None;
    }

    /** What of the chunk is not part of a line being discarded. */
    method SkipDiscarded(chunk: seq<Byte>) returns (data: Option<seq<Byte>>)
      modifies this`discardLine
      ensures old(discardLine) ==> (NEWLINE in chunk <==> data.Some?) && discardLine == data.None?
      ensures old(discardLine) && data.Some? ==>
                exists line :: NEWLINE !in line && chunk == line + [NEWLINE] + data.value
      ensures !old(discardLine) ==> !discardLine && data == Some(chunk)
    {
      data := Some(chunk);
      if discardLine {
        var newline := FindNewline(chunk);
        if newline == |chunk| {
          return None;
        }
        data := Some(chunk[newline + 1..]);
        assert chunk == chunk[..newline] + [NEWLINE] + data.value;
        discardLine := false;
      }
    }

    /** The chunk that follows the stream `s`, `parsed` being the lines read so far. */
    method Feed(chunk: seq<Byte>, ghost s: seq<Byte>, ghost parsed: seq<seq<Byte>>)
      returns (error: Option<CaptureError>)
      requires OneSession() && (truncated || Followed(parsed))
      modifies this`buffer, this`discardLine, this`truncated, this`threadId, this`turnCompleted,
               this`agentMessageCompleted, this`terminalError, this`sessions
      ensures old(truncated) ==> truncated && error.None? && Seen() == old(Seen()) && sessions == old(sessions)
      ensures old(At(s)) && parsed == Complete(s) ==>
                && (truncated ==> !BufferFits(setup, s + chunk))
                && (!truncated && error.None? ==> At(s + chunk))
                && (!truncated && error.Some? ==> Fold(setup, Complete(s + chunk)) == Rejected(error.value))
      ensures |sessions| <= 1 && (error.None? ==> OneSession())
    {
      if truncated {
        buffer := [];
        return None;
      }
      var data := SkipDiscarded(chunk);
      if data.None? {
        return None;
      }
      buffer := buffer + data.value;
      LinesExtend(s, chunk);
      error := ParseLines(parsed);
      if error.Some? {
        return;
      }
      LimitBuffer();
    }

    method LimitBuffer()
      modifies this`buffer, this`truncated, this`discardLine
      ensures if |old(buffer)| > setup.maxLineBytes then truncated && discardLine && buffer == []
              else buffer == old(buffer) && truncated == old(truncated) && discardLine == old(discardLine)
    {
      if |buffer| > setup.maxLineBytes {
        truncated := true;
        buffer := [];
        discardLine := true;
      }
    }

    method Finish(ghost s: seq<Byte>) returns (error: Option<CaptureError>)
      requires OneSession() && (truncated || At(s))
      modifies this`buffer, this`truncated, this`threadId, this`turnCompleted, this`agentMessageCompleted,
               this`terminalError, this`sessions
      ensures truncated == old(truncated) && (truncated ==> error.None?)
      ensures !truncated && error.None? ==> Fold(setup, Lines(s)) == Read(Seen())
      ensures !truncated && error.Some? ==> Fold(setup, Lines(s)) == Rejected(error.value)
      ensures |sessions| <= 1 && (error.None? ==> OneSession())
    {
      FoldStep(setup, Complete(s), Pending(s));
      error := None;
      if buffer != [] && !truncated {
        error := ParseLine(buffer);
      }
      buffer := [];
    }

    /** After these chunks, the last of them fed. */
    ghost predicate Sound(chunks: seq<seq<Byte>>)
      reads this
    {
      && OneSession()
      && digested == Flat(chunks)
      && totalBytes == |Flat(chunks)|
      && artifact == Flat(chunks)[..Least(totalBytes, setup.maxTotalBytes)]
      && if truncated then !Fits(setup, chunks) else Fits(setup, chunks) && At(Flat(chunks))
    }

    method Store(chunk: seq<Byte>)
      requires totalBytes == |digested| && artifact == digested[..Least(totalBytes, setup.maxTotalBytes)]
      modifies this`totalBytes, this`artifact, this`digested
      ensures digested == old(digested) + chunk && totalBytes == |digested|
      ensures artifact == digested[..Least(totalBytes, setup.maxTotalBytes)]
    {
      digested := digested + chunk;
      totalBytes := totalBytes + |chunk|;
      var remaining := setup.maxTotalBytes - |artifact|;
      if remaining > 0 {
        artifact := artifact + chunk[..Least(remaining, |chunk|)];
      }
    }

    /** One turn of the reading loop. */
    method Receive(chunk: seq<Byte>, ghost chunks: seq<seq<Byte>>) returns (error: Option<CaptureError>)
      requires Sound(chunks)
      modifies this
      ensures error.None? ==> Sound(chunks + [chunk])
      ensures error.Some? ==> |sessions| <= 1
      ensures error.Some? && Fits(setup, chunks + [chunk]) ==>
                !truncated && Fold(setup, Complete(Flat(chunks + [chunk]))) == Rejected(error.value)
    {
      FitsExtends(setup, chunks, chunk);
      Store(chunk);
      if totalBytes > setup.maxTotalBytes {
        truncated := true;
      }
      error := Feed(chunk, Flat(chunks), Complete(Flat(chunks)));
    }

    /**
     * The chunks are the reads of the whole stream.  The capture ends untruncated and without error exactly when
     * no limit is passed and the fold over the lines of the stream succeeds, and then it has the fold's result.
     */
    method Consume(chunks: seq<seq<Byte>>) returns (error: Option<CaptureError>)
      requires Sound([])
      modifies this
      ensures error.None? && !truncated <==> Clean(setup, chunks)
      ensures error.None? && !truncated ==> Fold(setup, Lines(Flat(chunks))) == Read(Seen())
      ensures error.Some? && Fits(setup, chunks) ==> Fold(setup, Lines(Flat(chunks))) == Rejected(error.value)
      ensures error.None? ==> OneSession() && digested == Flat(chunks) && totalBytes == |digested|
                              && artifact == digested[..Least(totalBytes, setup.maxTotalBytes)]
      ensures |sessions| <= 1
    {
      var next := 0;
      while next < |chunks|
        invariant 0 <= next <= |chunks|
        invariant Sound(chunks[..next])
      {
        assert chunks[..next + 1] == chunks[..next] + [chunks[next]];
        error := Receive(chunks[next], chunks[..next]);
        if error.Some? {
          ErrorIsFinal(setup, chunks, next + 1);
          return;
        }
        next := next + 1;
      }
      assert chunks[..next] == chunks;
      error := Finish(Flat(chunks));
    }
  }

  /** The capture of a guarded command's streams: what it hashes is what it keeps. */
  class CaptureThread {
    const limit: nat
    var total: nat
    var output: seq<Byte>
    var digested: seq<Byte>

    constructor (limit: nat)
      ensures this.limit == limit && Kept([])
    {
      this.limit := limit;
      total, output, digested := 0, [], [];
    }

    predicate Truncated()
      reads this
    {
      total > limit
    }

    predicate Kept(stream: seq<Byte>)
      reads this
    {
      total == |stream| && output == digested == stream[..Least(|stream|, limit)]
    }

    method Run(chunks: seq<seq<Byte>>)
      requires Kept([])
      modifies this
      ensures Kept(Flat(chunks)) && (Truncated() <==> output != Flat(chunks))
    {
      var next := 0;
      while next < |chunks|
        invariant 0 <= next <= |chunks| && Kept(Flat(chunks[..next]))
      {
        var chunk := chunks[next];
        assert chunks[..next + 1][..next] == chunks[..next];
        total := total + |chunk|;
        var remaining := limit - |output|;
        if remaining > 0 {
          var retained := chunk[..Least(remaining, |chunk|)];
          output := output + retained;
          digested := digested + retained;
        }
        next := next + 1;
      }
      assert chunks[..next] == chunks;
    }
  }
}
