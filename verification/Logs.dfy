/**
  The log of one attempt, from the agent's file through idempotent chunks to the
  server's file, and out again through the reader.
 */
module Logs {
  import opened Common

  type Bytes = seq<bv8>

  datatype Metadata = Metadata(stored: nat, complete: bool, expired: bool)

  /** The server's side: the file, if it exists, and its row. */
  datatype ServerLog = ServerLog(file: Option<Bytes>, metadata: Option<Metadata>)

  const NO_LOG: ServerLog := ServerLog(None, None)

  datatype Chunk = Chunk(offset: nat, body: Bytes, final: bool)

  /** Where an append may break off: inside the write, or before the row is updated. */
  datatype AppendFault = NoFault | WriteStopsAfter(bytes: nat) | RowUpdateFails

  datatype AppendResult = Next(offset: nat) | OffsetAhead | ContentConflict | IoError

  predicate Expired(s: ServerLog) {
    s.metadata.Some? && s.metadata.value.expired
  }

  function Content(s: ServerLog): Bytes {
    if s.file.Some? then s.file.value else []
  }

  function Overlap(s: ServerLog, chunk: Chunk): nat
    requires chunk.offset <= |Content(s)|
  {
    if |Content(s)| - chunk.offset < |chunk.body| then |Content(s)| - chunk.offset else |chunk.body|
  }

  predicate Conflicts(s: ServerLog, chunk: Chunk)
    requires chunk.offset <= |Content(s)|
  {
    var overlap := Overlap(s, chunk);
    Content(s)[chunk.offset..chunk.offset + overlap] != chunk.body[..overlap]
  }

  function AppendOutcome(s: ServerLog, chunk: Chunk, fault: AppendFault): AppendResult {
    if Expired(s) then Next(s.metadata.value.stored)
    else if chunk.offset > |Content(s)| then OffsetAhead
    else if Conflicts(s, chunk) then ContentConflict
    else if fault.NoFault? then Next(|Content(s)| + |chunk.body| - Overlap(s, chunk))
    else IoError
  }

  function AfterAppend(s: ServerLog, chunk: Chunk, fault: AppendFault): ServerLog {
    if Expired(s) then s
    else if chunk.offset > |Content(s)| || Conflicts(s, chunk) then s.(file := Some(Content(s)))
    else
      var tail := chunk.body[Overlap(s, chunk)..];
      if fault.WriteStopsAfter? then
        s.(file := Some(Content(s) + tail[..if fault.bytes < |tail| then fault.bytes else |tail|]))
      else
        var next := Content(s) + tail;
        var seen := s.metadata.Some? && s.metadata.value.complete;
        ServerLog(Some(next),
                  if fault.RowUpdateFails? then s.metadata else Some(Metadata(|next|, seen || chunk.final, false)))
  }

  /** `append_log` on the file and its row. */
  class LogStore {
    var file: Option<Bytes>
    var metadata: Option<Metadata>

    function View(): ServerLog
      reads this
    {
      ServerLog(file, metadata)
    }

    constructor ()
      ensures View() == NO_LOG
    {
      file := None;
      metadata := None;
    }

    method Append(chunk: Chunk, fault: AppendFault) returns (result: AppendResult)
      modifies this
      ensures result == AppendOutcome(old(View()), chunk, fault)
      ensures View() == AfterAppend(old(View()), chunk, fault)
    {
      if metadata.Some? && metadata.value.expired {
        return Next(metadata.value.stored);
      }
      var content := if file.Some? then file.value else [];
      file := Some(content);
      var stored := |content|;
      if chunk.offset > stored {
        return OffsetAhead;
      }
      var overlap := if stored - chunk.offset < |chunk.body| then stored - chunk.offset else |chunk.body|;
      if overlap > 0 && content[chunk.offset..chunk.offset + overlap] != chunk.body[..overlap] {
        return ContentConflict;
      }
      assert overlap == 0 ==> chunk.body[..overlap] == content[chunk.offset..chunk.offset];
      var tail := chunk.body[overlap..];
      if fault.WriteStopsAfter? {
        file := Some(content + tail[..if fault.bytes < |tail| then fault.bytes else |tail|]);
        return IoError;
      }
      file := Some(content + tail);
      if fault.RowUpdateFails? {
        return IoError;
      }
      var seen := metadata.Some? && metadata.value.complete;
      metadata := Some(Metadata(stored + |tail|, seen || chunk.final, false));
      result := Next(stored + |tail|);
    }
  }

  // Agent, network and server together

  datatype Answer = Answer(next: nat, final: bool)

  /** Chunks and answers, once sent, may arrive any number of times, in any order, or never. */
  datatype LogWorld = LogWorld(
    log: Bytes, ended: bool, offset: nat, completeAcknowledged: bool,
    chunks: set<Chunk>, answers: set<Answer>, server: ServerLog)

  datatype LogStep =
    | Capture(bytes: Bytes)
    | End
    | Send(chunk: Chunk)
    | ChunkArrives(chunk: Chunk, fault: AppendFault)
    | AnswerArrives(answer: Answer)
    | WriteBackRegresses(offset: nat)
    | Expire
    | RemoveExpiredFile

  /** A chunk is a piece of the log as it is now; only one that reaches the end of an ended log is final. */
  predicate IsPiece(log: Bytes, chunk: Chunk) {
    chunk.offset + |chunk.body| <= |log| && log[chunk.offset..chunk.offset + |chunk.body|] == chunk.body
  }

  predicate CanStep(w: LogWorld, step: LogStep) {
    match step
    case Capture(_) => !w.ended
    case End => true
    case Send(chunk) =>
      IsPiece(w.log, chunk) && (chunk.final <==> w.ended && chunk.offset + |chunk.body| == |w.log|)
    case ChunkArrives(chunk, _) => chunk in w.chunks
    case AnswerArrives(answer) => answer in w.answers
    case WriteBackRegresses(offset) => offset <= w.offset
    case Expire => w.server.metadata.Some? && w.server.metadata.value.complete && !w.server.metadata.value.expired
    case RemoveExpiredFile => Expired(w.server)
  }

  function After(w: LogWorld, step: LogStep): LogWorld
    requires CanStep(w, step)
  {
    match step
    case Capture(bytes) => w.(log := w.log + bytes)
    case End => w.(ended := true)
    case Send(chunk) => w.(chunks := w.chunks + {chunk})
    case ChunkArrives(chunk, fault) =>
      var outcome := AppendOutcome(w.server, chunk, fault);
      w.(server := AfterAppend(w.server, chunk, fault),
         answers := if outcome.Next? then w.answers + {Answer(outcome.offset, chunk.final)} else w.answers)
    case AnswerArrives(answer) =>
      w.(offset := if w.offset < answer.next then answer.next else w.offset,
         completeAcknowledged := w.completeAcknowledged || answer.final)
    case WriteBackRegresses(offset) => w.(offset := offset)
    case Expire => w.(server := w.server.(metadata := Some(w.server.metadata.value.(expired := true))))
    case RemoveExpiredFile => w.(server := w.server.(file := None))
  }

  function StoredBytes(s: ServerLog): nat {
    if s.metadata.Some? then s.metadata.value.stored else 0
  }

  predicate KnownComplete(s: ServerLog) {
    s.metadata.Some? && s.metadata.value.complete
  }

  /** The server holds a prefix of the log; complete means all of it, of an attempt that ended. */
  predicate ServerFits(s: ServerLog, log: Bytes, ended: bool) {
    && Content(s) <= log
    && (!Expired(s) ==> StoredBytes(s) <= |Content(s)|)
    && (s.metadata.Some? && !Expired(s) ==> s.file.Some?)
    && (KnownComplete(s) ==> ended && StoredBytes(s) == |log|)
    && (Expired(s) ==> KnownComplete(s))
  }

  predicate ChunkFits(chunk: Chunk, log: Bytes, ended: bool) {
    IsPiece(log, chunk) && (chunk.final ==> ended && chunk.offset + |chunk.body| == |log|)
  }

  predicate LogInv(w: LogWorld) {
    && ServerFits(w.server, w.log, w.ended)
    && (forall chunk :: chunk in w.chunks ==> ChunkFits(chunk, w.log, w.ended))
    && (forall answer :: answer in w.answers ==>
          answer.next <= StoredBytes(w.server) && (answer.final ==> KnownComplete(w.server)))
    && w.offset <= StoredBytes(w.server) && StoredBytes(w.server) <= |w.log|
    && (w.completeAcknowledged ==> KnownComplete(w.server))
  }

  /** A piece of the log never conflicts with a prefix of it, and extends the prefix to a longer one. */
  lemma PieceExtendsPrefix(s: ServerLog, chunk: Chunk, log: Bytes)
    requires Content(s) <= log && IsPiece(log, chunk) && chunk.offset <= |Content(s)|
    ensures !Conflicts(s, chunk)
    ensures var next := Content(s) + chunk.body[Overlap(s, chunk)..];
            var end := chunk.offset + |chunk.body|;
            next <= log && |next| == if |Content(s)| < end then end else |Content(s)|
  {
    var overlap := Overlap(s, chunk);
    var next := Content(s) + chunk.body[overlap..];
    forall i | 0 <= i < overlap
      ensures Content(s)[chunk.offset..chunk.offset + overlap][i] == chunk.body[..overlap][i]
    {
      assert chunk.body[i] == log[chunk.offset..chunk.offset + |chunk.body|][i] == log[chunk.offset + i];
    }
    forall i | |Content(s)| <= i < |next| ensures next[i] == log[i] {
      assert chunk.body[i - chunk.offset] == log[chunk.offset..chunk.offset + |chunk.body|][i - chunk.offset];
    }
  }

  /**
    The answer to a chunk: ahead of the file, in conflict exactly if some byte it shares with the
    file differs, and otherwise appended whole, unless the log has expired or a write fails.
   */
  lemma AppendExactly(s: ServerLog, chunk: Chunk)
    ensures var result, after := AppendOutcome(s, chunk, NoFault), AfterAppend(s, chunk, NoFault);
            var end := chunk.offset + |chunk.body|;
            && (result.OffsetAhead? <==> !Expired(s) && chunk.offset > |Content(s)|)
            && (result.ContentConflict? <==>
                  && !Expired(s) && chunk.offset <= |Content(s)|
                  && exists i ::
                       chunk.offset <= i < end && i < |Content(s)| && Content(s)[i] != chunk.body[i - chunk.offset])
            && (!result.Next? || Expired(s) ==> Content(after) == Content(s) && after.metadata == s.metadata)
            && (result.Next? && !Expired(s) ==>
                  && result.offset == |Content(after)| && |Content(after)| == Max(|Content(s)|, end)
                  && Content(s) <= Content(after) && Content(after)[chunk.offset..end] == chunk.body
                  && after.metadata == Some(Metadata(result.offset, KnownComplete(s) || chunk.final, false)))
  {
    if !Expired(s) && chunk.offset <= |Content(s)| {
      var overlap := Overlap(s, chunk);
      SharedBytes(Content(s), chunk, overlap);
      if !Conflicts(s, chunk) {
        AppendedBytes(Content(s), chunk, overlap);
      }
    }
  }

  lemma SharedBytes(content: Bytes, chunk: Chunk, overlap: nat)
    requires chunk.offset + overlap <= |content| && overlap <= |chunk.body|
    ensures content[chunk.offset..chunk.offset + overlap] != chunk.body[..overlap] <==>
            exists i :: chunk.offset <= i < chunk.offset + overlap && content[i] != chunk.body[i - chunk.offset]
  {
    var shared := content[chunk.offset..chunk.offset + overlap];
    if shared != chunk.body[..overlap] {
      var j :| 0 <= j < overlap && shared[j] != chunk.body[..overlap][j];
      assert content[chunk.offset + j] != chunk.body[chunk.offset + j - chunk.offset];
    }
    if i :| chunk.offset <= i < chunk.offset + overlap && content[i] != chunk.body[i - chunk.offset] {
      assert shared[i - chunk.offset] != chunk.body[..overlap][i - chunk.offset];
    }
  }

  lemma AppendedBytes(content: Bytes, chunk: Chunk, overlap: nat)
    requires chunk.offset + overlap <= |content| && overlap <= |chunk.body|
    requires overlap < |chunk.body| ==> chunk.offset + overlap == |content|
    requires content[chunk.offset..chunk.offset + overlap] == chunk.body[..overlap]
    ensures var next, end := content + chunk.body[overlap..], chunk.offset + |chunk.body|;
            |next| == Max(|content|, end) && next[chunk.offset..end] == chunk.body
  {
    var next, end := content + chunk.body[overlap..], chunk.offset + |chunk.body|;
    forall i | 0 <= i < |chunk.body| ensures next[chunk.offset..end][i] == chunk.body[i] {
      if i < overlap {
        assert content[chunk.offset..chunk.offset + overlap][i] == chunk.body[..overlap][i];
      }
    }
  }

  /**
    A chunk that starts where the agent's acknowledgement ends, and whose round trip meets no
    fault, is acknowledged to its end; if it was the final one the log is complete.
   */
  lemma RoundTripDelivers(w: LogWorld, chunk: Chunk)
    requires LogInv(w) && !Expired(w.server) && chunk.offset == w.offset && CanStep(w, Send(chunk))
    ensures CanStep(After(w, Send(chunk)), ChunkArrives(chunk, NoFault))
    ensures var stored := After(After(w, Send(chunk)), ChunkArrives(chunk, NoFault));
            var answer := Answer(StoredBytes(stored.server), chunk.final);
            && CanStep(stored, AnswerArrives(answer))
            && var after := After(stored, AnswerArrives(answer));
               && after.offset >= w.offset + |chunk.body| && Content(after.server) <= w.log
               && (chunk.final ==> after.completeAcknowledged && after.server.file == Some(w.log))
  {
    hide AppendOutcome, AfterAppend, Conflicts, Overlap;
    PieceArrives(w.server, chunk, w.log, w.ended);
  }

  lemma PieceArrives(s: ServerLog, chunk: Chunk, log: Bytes, ended: bool)
    requires ServerFits(s, log, ended) && !Expired(s) && chunk.offset <= StoredBytes(s) && IsPiece(log, chunk)
    ensures var after := AfterAppend(s, chunk, NoFault);
            && AppendOutcome(s, chunk, NoFault) == Next(StoredBytes(after)) && Content(after) <= log
            && StoredBytes(after) == |Content(after)| >= chunk.offset + |chunk.body|
            && (chunk.offset + |chunk.body| == |log| ==> after.file == Some(log))
  {
    PieceExtendsPrefix(s, chunk, log);
    var next := Content(s) + chunk.body[Overlap(s, chunk)..];
    assert |next| == |log| ==> next == log;
  }

  lemma AppendKeepsServer(s: ServerLog, chunk: Chunk, fault: AppendFault, log: Bytes, ended: bool)
    requires ServerFits(s, log, ended) && ChunkFits(chunk, log, ended)
    ensures var after := AfterAppend(s, chunk, fault);
            && ServerFits(after, log, ended)
            && StoredBytes(s) <= StoredBytes(after) && (KnownComplete(s) ==> KnownComplete(after))
            && !AppendOutcome(s, chunk, fault).ContentConflict?
            && (AppendOutcome(s, chunk, fault).Next? ==>
                  && AppendOutcome(s, chunk, fault).offset <= StoredBytes(after)
                  && (chunk.final ==> KnownComplete(after)))
  {
    if !Expired(s) && chunk.offset <= |Content(s)| {
      PieceExtendsPrefix(s, chunk, log);
    }
  }

  lemma GrowthKeepsFit(s: ServerLog, log: Bytes, bytes: Bytes, chunk: Chunk)
    ensures ServerFits(s, log, false) ==> ServerFits(s, log + bytes, false)
    ensures ChunkFits(chunk, log, false) ==> ChunkFits(chunk, log + bytes, false)
  {
    if ChunkFits(chunk, log, false) {
      assert (log + bytes)[chunk.offset..chunk.offset + |chunk.body|] == log[chunk.offset..chunk.offset + |chunk.body|];
    }
  }

  lemma LogStepKeepsInv(w: LogWorld, step: LogStep)
    requires LogInv(w) && CanStep(w, step)
    ensures LogInv(After(w, step))
  {
    hide ServerFits, ChunkFits;
    match step
    case Capture(bytes) =>
      GrowthKeepsFit(w.server, w.log, bytes, Chunk(0, [], false));
      forall chunk | chunk in w.chunks ensures ChunkFits(chunk, w.log + bytes, false) {
        GrowthKeepsFit(w.server, w.log, bytes, chunk);
      }
    case End => EndKeepsFit(w);
    case Send(chunk) => PieceFits(w.log, w.ended, chunk);
    case ChunkArrives(chunk, fault) =>
      AppendKeepsServer(w.server, chunk, fault, w.log, w.ended);
      StoredIsBounded(AfterAppend(w.server, chunk, fault), w.log, w.ended);
    case Expire => ExpiryKeepsFit(w.server, w.log, w.ended);
    case RemoveExpiredFile => ExpiryKeepsFit(w.server, w.log, w.ended);
    case _ =>
  }

  lemma StoredIsBounded(s: ServerLog, log: Bytes, ended: bool)
    requires ServerFits(s, log, ended)
    ensures StoredBytes(s) <= |log|
  {
  }

  lemma PieceFits(log: Bytes, ended: bool, chunk: Chunk)
    requires IsPiece(log, chunk) && (chunk.final ==> ended && chunk.offset + |chunk.body| == |log|)
    ensures ChunkFits(chunk, log, ended)
  {
  }

  lemma EndKeepsFit(w: LogWorld)
    ensures ServerFits(w.server, w.log, w.ended) ==> ServerFits(w.server, w.log, true)
    ensures forall chunk :: ChunkFits(chunk, w.log, w.ended) ==> ChunkFits(chunk, w.log, true)
  {
  }

  lemma ExpiryKeepsFit(s: ServerLog, log: Bytes, ended: bool)
    requires ServerFits(s, log, ended) && (KnownComplete(s) || Expired(s))
    ensures ServerFits(s.(metadata := Some(s.metadata.value.(expired := true))), log, ended)
    ensures Expired(s) ==> ServerFits(s.(file := None), log, ended)
  {
  }

  ghost predicate LogHistory(w: LogWorld, steps: seq<LogStep>, after: LogWorld)
    decreases |steps|
  {
    if steps == [] then after == w
    else CanStep(w, steps[0]) && LogHistory(After(w, steps[0]), steps[1..], after)
  }

  predicate Starts(w: LogWorld) {
    w == LogWorld([], false, 0, false, {}, {}, NO_LOG)
  }

  lemma {:induction false} LogHistoryKeepsInv(w: LogWorld, steps: seq<LogStep>, after: LogWorld)
    requires LogInv(w) && LogHistory(w, steps, after)
    ensures LogInv(after)
    decreases |steps|
  {
    hide LogInv, CanStep, After;
    if steps != [] {
      LogStepKeepsInv(w, steps[0]);
      LogHistoryKeepsInv(After(w, steps[0]), steps[1..], after);
    }
  }

  /**
    Under any loss, duplication, overlap or delay: the server's file is a prefix of the
    agent's log, no chunk is refused for its content, and once the agent holds the
    complete acknowledgement the server has, or has expired, the whole log.
   */
  lemma LogSurvivesTheNetwork(w: LogWorld, steps: seq<LogStep>, after: LogWorld)
    requires Starts(w) && LogHistory(w, steps, after)
    ensures Content(after.server) <= after.log && after.offset <= |after.log|
    ensures after.completeAcknowledged ==> after.ended && StoredBytes(after.server) == |after.log|
    ensures after.completeAcknowledged && !Expired(after.server) ==> after.server.file == Some(after.log)
    ensures forall chunk, fault :: chunk in after.chunks ==> !AppendOutcome(after.server, chunk, fault).ContentConflict?
  {
    LogHistoryKeepsInv(w, steps, after);
    assert |Content(after.server)| == |after.log| ==> Content(after.server) == after.log;
    forall chunk, fault | chunk in after.chunks ensures !AppendOutcome(after.server, chunk, fault).ContentConflict? {
      AppendKeepsServer(after.server, chunk, fault, after.log, after.ended);
    }
  }

  lemma ExpiredStepsKeepGone(w: LogWorld, step: LogStep)
    requires Expired(w.server) && CanStep(w, step)
    ensures Expired(After(w, step).server) && After(w, step).server.metadata == w.server.metadata
    ensures w.server.file.None? ==> After(w, step).server.file.None?
  {
  }

  /** An expired log stays expired, and its file, once removed, is never created again. */
  lemma {:induction false} ExpiredIsNeverRecreated(w: LogWorld, steps: seq<LogStep>, after: LogWorld)
    requires Expired(w.server) && LogHistory(w, steps, after)
    ensures Expired(after.server) && after.server.metadata == w.server.metadata
    ensures w.server.file.None? ==> after.server.file.None?
    decreases |steps|
  {
    hide CanStep, After;
    if steps != [] {
      ExpiredStepsKeepGone(w, steps[0]);
      ExpiredIsNeverRecreated(After(w, steps[0]), steps[1..], after);
    }
  }

  // Reading

  datatype ReadResult = Gone | Missing | Unreadable | Read(data: Bytes, next: nat, complete: bool)

  /** `read_log` for one request. */
  function ReadLog(s: ServerLog, offset: nat, limit: nat): ReadResult {
    if s.metadata.None? then Read([], offset, false)
    else if s.metadata.value.expired then Gone
    else if s.file.None? then Missing
    else
      var stored := s.metadata.value.stored;
      if offset < stored then
        var take := if stored - offset < limit then stored - offset else limit;
        if offset + take > |s.file.value| then Unreadable
        else
          Read(s.file.value[offset..offset + take], offset + take,
               s.metadata.value.complete && offset + take >= stored)
      else Read([], offset, s.metadata.value.complete && offset >= stored)
  }

  datatype ReaderEnd = SawComplete | SawNothingNew | Refused | StillFollowing

  /**
    The reader's loop against a server that moves on between requests; `servers[i]`
    answers the i-th. It emits a prefix of the log, and all of it once it sees the
    complete flag.
   */
  method ReadLogChunks(servers: seq<ServerLog>, follow: bool, ghost log: Bytes, ghost ended: bool)
    returns (emitted: Bytes, end: ReaderEnd)
    requires forall s :: s in servers ==> ServerFits(s, log, ended)
    ensures emitted <= log
    ensures end.SawComplete? ==> emitted == log
    ensures end.StillFollowing? ==> forall i :: 0 <= i < |servers| ==> !Expired(servers[i])
    ensures end.SawNothingNew? ==> !follow && exists s :: s in servers && StoredBytes(s) <= |emitted|
    ensures end.Refused? ==> exists s :: s in servers && Expired(s)
  {
    emitted := [];
    var offset := 0;
    var i := 0;
    while i < |servers|
      invariant 0 <= i <= |servers|
      invariant offset == |emitted| && emitted <= log
      invariant forall j :: 0 <= j < i ==> !Expired(servers[j])
    {
      assert servers[i] in servers;
      var response := ReadLog(servers[i], offset, 65536);
      if !response.Read? || response.next != offset + |response.data| {
        return emitted, Refused;
      }
      emitted := emitted + response.data;
      offset := response.next;
      if response.complete {
        return emitted, SawComplete;
      }
      if !follow && response.data == [] {
        return emitted, SawNothingNew;
      }
      i := i + 1;
    }
    end := StillFollowing;
  }

  /** On an unexpired log the reader is never refused, and once the log is complete every request makes progress. */
  lemma ReadMakesProgress(s: ServerLog, offset: nat, log: Bytes, ended: bool)
    requires ServerFits(s, log, ended) && KnownComplete(s) && !Expired(s) && offset <= |log|
    ensures var r := ReadLog(s, offset, 65536);
            && r.Read? && r.next == offset + |r.data| && (r.complete <==> r.next == |log|)
            && (offset < |log| ==> r.data != [])
  {
  }
}
