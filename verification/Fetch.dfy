/**
 * Verified downloads that resume from a partial file. Range requests follow section 14.2 of RFC 9110 and
 * 206 responses its section 15.3.7. The server is an arbitrary function, and any file operation may fail.
 */
module Fetch {
  import opened Prelude
  import opened IntegrityCheck

  /** How a body ends. When it is cut off, the last `lost` bytes handed to the file never reach the disk. */
  datatype Ending = Complete | CutOff(retryable: bool, lost: nat)

  datatype Reply =
    | Unreachable(retryable: bool)
    | Answer(status: nat, chunks: seq<Bytes>, ending: Ending)

  /** The reply to a request for everything, or for everything from an offset, on a given attempt. */
  type Server = (Option<nat>, nat) -> Reply

  datatype Error =
    | HostNotAllowed
    | Transport(retryable: bool)
    | Status(code: nat)
    | IntegrityFailed(reason: IntegrityError)
    | Io
    | Sink
    | Exhausted(attempts: nat, last: Error)
  {
    predicate IsRetryable() {
      match this
      case Transport(retryable) => retryable
      case Status(code) => code == 408 || code == 429 || 500 <= code < 600
      case _ => false
    }
  }

  predicate IsSuccess(status: nat) {
    200 <= status < 300
  }

  function Flatten(chunks: seq<Bytes>): Bytes {
    if chunks == [] then [] else chunks[0] + Flatten(chunks[1..])
  }

  lemma {:induction false} FlattenSnoc(chunks: seq<Bytes>, last: Bytes)
    ensures Flatten(chunks + [last]) == Flatten(chunks) + last
  {
    if chunks == [] {
      assert [last][1..] == [];
    } else {
      FlattenSnoc(chunks[1..], last);
      assert (chunks + [last])[1..] == chunks[1..] + [last];
    }
  }

  lemma FlattenNext(chunks: seq<Bytes>, n: nat)
    requires n < |chunks|
    ensures Flatten(chunks[..n + 1]) == Flatten(chunks[..n]) + chunks[n]
  {
    FlattenSnoc(chunks[..n], chunks[n]);
    assert chunks[..n + 1] == chunks[..n] + [chunks[n]];
  }

  lemma {:induction false} FlattenPrefix(chunks: seq<Bytes>, n: nat)
    requires n <= |chunks|
    ensures Flatten(chunks[..n]) <= Flatten(chunks)
  {
    if n > 0 {
      FlattenPrefix(chunks[1..], n - 1);
      assert chunks[..n][1..] == chunks[1..][..n - 1];
    }
  }

  // ----- What one attempt does, file operations permitting -----

  /** A resume is asked for only from a non-empty file shorter than a declared size, at exactly its length. */
  function ResumeOffset(file: Option<Bytes>, integrity: Integrity): (r: Option<nat>)
    ensures r.Some? ==> file.Some? && integrity.size.Some? && r.value == |file.value|
                        && 0 < r.value < integrity.size.value
  {
    if integrity.size.Some? && file.Some? && 0 < |file.value| < integrity.size.value
    then Some(|file.value|) else None
  }

  /** What the new bytes are appended to: the partial file on a 206 to a range request, else nothing. */
  function Base(file: Option<Bytes>, integrity: Integrity, reply: Reply): Bytes {
    if reply.Answer? && reply.status == 206 && ResumeOffset(file, integrity).Some? then file.value else []
  }

  function Landing(file: Option<Bytes>, integrity: Integrity, reply: Reply): Bytes
    requires reply.Answer?
  {
    Base(file, integrity, reply) + Flatten(reply.chunks)
  }

  /** What is left of a body whose last bytes are lost. */
  function Cut(body: Bytes, lost: nat): (r: Bytes)
    ensures r <= body
  {
    if lost <= |body| then body[..|body| - lost] else []
  }

  function Attempt(hashes: Hashes, file: Option<Bytes>, integrity: Integrity, reply: Reply)
    : (Option<Bytes>, Result<nat, Error>)
  {
    match reply
    case Unreachable(retryable) => (file, Err(Transport(retryable)))
    case Answer(status, chunks, ending) =>
      if !IsSuccess(status) then (file, Err(Status(status)))
      else
        var landed := Landing(file, integrity, reply);
        match ending
        case CutOff(retryable, lost) =>
          (Some(Base(file, integrity, reply) + Cut(Flatten(reply.chunks), lost)), Err(Transport(retryable)))
        case Complete =>
          match Judge(hashes, integrity, landed)
          case Ok(n) => (Some(landed), Ok(n))
          case Err(reason) => (Some(landed), Err(IntegrityFailed(reason)))
  }

  /** The outcome of attempts `attempt` to `attempts`, each starting from what the one before left. */
  function Retried(hashes: Hashes, file: Option<Bytes>, integrity: Integrity, server: Server, attempt: nat,
                   attempts: nat): (Option<Bytes>, Result<nat, Error>)
    requires attempt < attempts
    decreases attempts - attempt
  {
    var (after, r) := Attempt(hashes, file, integrity, server(ResumeOffset(file, integrity), attempt));
    if r.Ok? || !r.error.IsRetryable() then (after, r)
    else if attempt + 1 == attempts then (after, Err(Exhausted(attempts, r.error)))
    else Retried(hashes, after, integrity, server, attempt + 1, attempts)
  }

  lemma RetriedStep(hashes: Hashes, file: Option<Bytes>, integrity: Integrity, server: Server, attempt: nat,
                    attempts: nat)
    requires attempt < attempts
    ensures var (after, r) := Attempt(hashes, file, integrity, server(ResumeOffset(file, integrity), attempt));
            Retried(hashes, file, integrity, server, attempt, attempts)
            == if r.Ok? || !r.error.IsRetryable() then (after, r)
               else if attempt + 1 == attempts then (after, Err(Exhausted(attempts, r.error)))
               else Retried(hashes, after, integrity, server, attempt + 1, attempts)
  {
  }

  /** A state the file can be seen in while an attempt runs. */
  ghost predicate Between(seen: Option<Bytes>, file: Option<Bytes>, integrity: Integrity, reply: Reply) {
    || seen == file
    || (reply.Answer? && IsSuccess(reply.status) && seen.Some?
        && Base(file, integrity, reply) <= seen.value <= Landing(file, integrity, reply))
  }

  // ----- The download itself -----

  /** A request as it was made: the offset asked from, what the file held, and the reply. */
  datatype Request = Request(offset: Option<nat>, held: Option<Bytes>, reply: Reply)

  /** A reply whose failure is tried again: no answer, a passing status, or a body cut off in transit. */
  ghost predicate TriedAgain(reply: Reply) {
    match reply
    case Unreachable(retryable) => retryable
    case Answer(status, _, ending) =>
      if 200 <= status < 300 then ending.CutOff? && ending.retryable
      else status == 408 || status == 429 || 500 <= status < 600
  }

  /** The request is the one due: for the rest of a non-empty file shorter than the declared size, else for all. */
  ghost predicate Asked(request: Request, integrity: Integrity, server: Server, attempt: nat) {
    && (request.offset.Some? <==>
          integrity.size.Some? && request.held.Some? && 0 < |request.held.value| < integrity.size.value)
    && (request.offset.Some? ==> request.offset.value == |request.held.value|)
    && request.reply == server(request.offset, attempt)
  }

  /** What a request leaves on disk: with a body sent, that body or its start, behind what the request resumed. */
  ghost predicate Leaves(request: Request, after: Option<Bytes>) {
    var reply := request.reply;
    if reply.Unreachable? || !(200 <= reply.status < 300) then after == request.held
    else
      var body := Flatten(reply.chunks);
      var sent := match reply.ending
                  case Complete => body
                  case CutOff(_, lost) => if lost <= |body| then body[..|body| - lost] else [];
      var resumed := if reply.status == 206 && request.offset.Some? && request.held.Some?
                     then request.held.value else [];
      after == Some(resumed + sent)
  }

  /** What a reply comes to, apart from trouble with the file. */
  ghost predicate ComesTo(hashes: Hashes, integrity: Integrity, reply: Reply, after: Option<Bytes>,
                          r: Result<nat, Error>)
  {
    match reply
    case Unreachable(retryable) => r == Err(Transport(retryable))
    case Answer(status, _, ending) =>
      if !(200 <= status < 300) then r == Err(Status(status))
      else if ending.CutOff? then r == Err(Transport(ending.retryable))
      else
        after.Some? &&
        if Meets(hashes, integrity, after.value) then r == Ok(|after.value|)
        else r.Err? && r.error.IntegrityFailed?
  }

  /** The requests of a download: each is due, the ones before the last were tried again from what they left. */
  ghost predicate Logged(log: seq<Request>, integrity: Integrity, server: Server, start: Option<Bytes>) {
    && (log != [] ==> log[0].held == start)
    && (forall i :: 0 <= i < |log| ==> Asked(log[i], integrity, server, i))
    && forall i :: 0 <= i < |log| - 1 ==> TriedAgain(log[i].reply) && Leaves(log[i], log[i + 1].held)
  }

  /**
   * How a download ends: tried again after its last request only if the attempts are used up, and then exhausted;
   * otherwise with what the last reply comes to.
   */
  ghost predicate Ends(hashes: Hashes, integrity: Integrity, log: seq<Request>, after: Option<Bytes>, attempts: nat,
                       r: Result<nat, Error>)
  {
    log != [] &&
    var last := log[|log| - 1];
    && Leaves(last, after)
    && (r.Err? && r.error.Status? ==>
          var code := r.error.code;
          code != 408 && code != 429 && !(500 <= code < 600) && !(200 <= code < 300))
    && if TriedAgain(last.reply) then
         && |log| == attempts && r.Err? && r.error.Exhausted? && r.error.attempts == attempts
         && ComesTo(hashes, integrity, last.reply, after, Err(r.error.last))
       else ComesTo(hashes, integrity, last.reply, after, r)
  }

  lemma LoggedNext(log: seq<Request>, integrity: Integrity, server: Server, start: Option<Bytes>, next: Request)
    requires Logged(log, integrity, server, start) && Asked(next, integrity, server, |log|)
    requires if log == [] then next.held == start
             else TriedAgain(log[|log| - 1].reply) && Leaves(log[|log| - 1], next.held)
    ensures Logged(log + [next], integrity, server, start)
  {
  }

  lemma EndsWith(hashes: Hashes, integrity: Integrity, log: seq<Request>, next: Request, after: Option<Bytes>,
                 attempts: nat, r: Result<nat, Error>)
    requires Leaves(next, after) && ComesTo(hashes, integrity, next.reply, after, r)
    requires r.Err? && r.error.IsRetryable() <==> TriedAgain(next.reply)
    ensures r.Err? && r.error.IsRetryable() && |log| + 1 == attempts ==>
              Ends(hashes, integrity, log + [next], after, attempts, Err(Exhausted(attempts, r.error)))
    ensures !(r.Err? && r.error.IsRetryable()) ==> Ends(hashes, integrity, log + [next], after, attempts, r)
  {
    assert (log + [next])[|log + [next]| - 1] == next;
  }

  /** The transition in the terms of the log. */
  lemma AttemptExplained(hashes: Hashes, file: Option<Bytes>, integrity: Integrity, reply: Reply)
    ensures var (after, r) := Attempt(hashes, file, integrity, reply);
            && Leaves(Request(ResumeOffset(file, integrity), file, reply), after)
            && ComesTo(hashes, integrity, reply, after, r)
            && (r.Err? && r.error.IsRetryable() <==> TriedAgain(reply))
  {
  }

  const BUFFER: nat := 64 * 1024

  class TargetFile {
    var bytes: Option<Bytes>
    ghost var history: seq<Option<Bytes>>
    ghost var requests: seq<Request>
    ghost var faults: nat

    constructor (bytes: Option<Bytes>)
      ensures this.bytes == bytes && history == [] && requests == [] && faults == 0
    {
      this.bytes, history, requests, faults := bytes, [], [], 0;
    }

    /** One file operation, which may fail; failures are counted. */
    method Try() returns (ok: bool)
      modifies this`faults
      ensures faults == old(faults) + if ok then 0 else 1
    {
      ok := *;
      faults := faults + if ok then 0 else 1;
    }

    method CreateTruncated() returns (ok: bool)
      modifies this`bytes, this`history, this`faults
      ensures faults == old(faults) + if ok then 0 else 1
      ensures ok ==> bytes == Some([])
      ensures !ok ==> bytes == old(bytes)
      ensures history == old(history) + [bytes]
    {
      ok := Try();
      if ok {
        bytes := Some([]);
      }
      history := history + [bytes];
    }

    /** A read returns at least one byte unless none is wanted or the file has ended. */
    method Read(at: nat, want: nat) returns (r: Option<Bytes>)
      requires bytes.Some? && at <= |bytes.value|
      modifies this`faults
      ensures faults == old(faults) + if r.Some? then 0 else 1
      ensures r.Some? ==> |r.value| <= want && at + |r.value| <= |bytes.value|
                          && r.value == bytes.value[at..at + |r.value|]
                          && (|r.value| == 0 ==> want == 0 || at == |bytes.value|)
    {
      var ok := Try();
      if !ok {
        return None;
      }
      var available := |bytes.value| - at;
      var most := if want < available then want else available;
      var n :| 0 <= n <= most && (n == 0 ==> most == 0);
      return Some(bytes.value[at..at + n]);
    }

    /** A failing write may still have appended part of the chunk. */
    method WriteAll(chunk: Bytes) returns (ok: bool)
      requires bytes.Some?
      modifies this`bytes, this`history, this`faults
      ensures faults == old(faults) + if ok then 0 else 1
      ensures bytes.Some?
      ensures ok ==> bytes.value == old(bytes).value + chunk
      ensures !ok ==> old(bytes).value <= bytes.value <= old(bytes).value + chunk
      ensures history == old(history) + [bytes]
    {
      ok := Try();
      var n :| 0 <= n <= |chunk| && (ok ==> n == |chunk|);
      bytes := Some(bytes.value + chunk[..n]);
      history := history + [bytes];
      assert chunk[..|chunk|] == chunk;
    }

    method ResumablePrefix(integrity: Integrity) returns (r: Result<Option<nat>, Error>)
      modifies this`faults
      ensures r.Ok? ==> r.value == ResumeOffset(bytes, integrity) && faults == old(faults)
      ensures r.Err? ==> r.error == Io && faults > old(faults)
    {
      if integrity.size.None? {
        return Ok(None);
      }
      if bytes.Some? {
        var statOk := Try();
        if !statOk {
          return Err(Io);
        }
      }
      if bytes.Some? && |bytes.value| > 0 && |bytes.value| < integrity.size.value {
        return Ok(Some(|bytes.value|));
      }
      return Ok(None);
    }

    /** Feeds the file's first `len` bytes to the verifier, however short the individual reads are. */
    method SeedVerifier(len: nat, verifier: Verifier) returns (ok: bool)
      requires bytes.Some? && len == |bytes.value|
      requires verifier.Valid() && verifier.stream == []
      modifies verifier, this`faults
      ensures verifier.Valid()
      ensures ok ==> verifier.stream == bytes.value && faults == old(faults)
      ensures !ok ==> faults > old(faults)
    {
      var openOk := Try();
      if !openOk {
        return false;
      }
      var remaining, at := len, 0;
      while remaining > 0
        invariant at + remaining == len && remaining >= 0 && at >= 0
        invariant verifier.Valid() && verifier.stream == bytes.value[..at] && faults == old(faults)
        decreases remaining
      {
        var want := if BUFFER < remaining then BUFFER else remaining;
        var read := Read(at, want);
        if read.None? {
          return false;
        }
        if |read.value| == 0 {
          break;
        }
        verifier.Update(read.value);
        assert bytes.value[..at] + read.value == bytes.value[..at + |read.value|];
        at, remaining := at + |read.value|, remaining - |read.value|;
      }
      return true;
    }

    method DownloadResumable(hashes: Hashes, integrity: Integrity, server: Server, hostAllowed: bool, attempt: nat)
      returns (r: Result<nat, Error>)
      modifies this
      ensures r == Err(Io) || r == Err(HostNotAllowed)
              || (bytes, r) == Attempt(hashes, old(bytes), integrity,
                                       server(ResumeOffset(old(bytes), integrity), attempt))
      ensures r == Err(Io) <==> faults > old(faults)
      ensures faults >= old(faults)
      ensures r == Err(HostNotAllowed) <==> r != Err(Io) && !hostAllowed
      ensures r == Err(HostNotAllowed) ==> bytes == old(bytes)
      ensures old(history) <= history && old(requests) <= requests
      ensures forall i :: |old(history)| <= i < |history| ==>
                Between(history[i], old(bytes), integrity, server(ResumeOffset(old(bytes), integrity), attempt))
      ensures Between(bytes, old(bytes), integrity, server(ResumeOffset(old(bytes), integrity), attempt))
      ensures |requests| <= |old(requests)| + 1
      ensures hostAllowed && r != Err(Io) ==> |requests| == |old(requests)| + 1
      ensures !hostAllowed ==> requests == old(requests)
      ensures |requests| > |old(requests)| ==>
                var request := requests[|old(requests)|];
                && requests == old(requests) + [request] && request.held == old(bytes)
                && Asked(request, integrity, server, attempt)
                && (r != Err(Io) ==>
                      && Leaves(request, bytes) && ComesTo(hashes, integrity, request.reply, bytes, r)
                      && (r.Err? && r.error.IsRetryable() <==> TriedAgain(request.reply)))
    {
      var parentOk := Try();
      if !parentOk {
        return Err(Io);
      }
      var prefix := ResumablePrefix(integrity);
      if prefix.Err? {
        return Err(prefix.error);
      }
      var offset := prefix.value;
      if !hostAllowed {
        return Err(HostNotAllowed);
      }
      var reply := server(offset, attempt);
      requests := requests + [Request(offset, bytes, reply)];
      AttemptExplained(hashes, bytes, integrity, reply);
      if reply.Unreachable? {
        return Err(Transport(reply.retryable));
      }
      if !IsSuccess(reply.status) {
        return Err(Status(reply.status));
      }
      r := Receive(hashes, integrity, offset, reply);
    }

    method AppendBody(chunks: seq<Bytes>, verifier: Verifier) returns (ok: bool)
      requires verifier.Valid() && bytes == Some(verifier.stream)
      modifies this`bytes, this`history, this`faults, verifier
      ensures ok <==> faults == old(faults)
      ensures faults >= old(faults)
      ensures verifier.Valid()
      ensures bytes.Some? && old(bytes).value <= bytes.value <= old(bytes).value + Flatten(chunks)
      ensures ok ==> verifier.stream == bytes.value == old(bytes).value + Flatten(chunks)
      ensures old(history) <= history
      ensures forall i :: |old(history)| <= i < |history| ==>
                history[i].Some? && old(bytes).value <= history[i].value <= old(bytes).value + Flatten(chunks)
    {
      ghost var base, all := bytes.value, bytes.value + Flatten(chunks);
      for n := 0 to |chunks|
        invariant verifier.Valid() && bytes == Some(verifier.stream) && faults == old(faults)
        invariant verifier.stream == base + Flatten(chunks[..n])
        invariant base <= verifier.stream <= all
        invariant old(history) <= history
        invariant forall i :: |old(history)| <= i < |history| ==>
                    history[i].Some? && base <= history[i].value <= all
      {
        var chunk := chunks[n];
        assert verifier.stream + chunk == base + Flatten(chunks[..n + 1]) <= all by {
          FlattenNext(chunks, n);
          FlattenPrefix(chunks, n + 1);
        }
        verifier.Update(chunk);
        ok := WriteAll(chunk);
        if !ok {
          return;
        }
      }
      assert chunks[..|chunks|] == chunks;
      return true;
    }

    /** Without a flush, bytes the writes accepted may not have reached the disk. */
    method Lose(ghost base: Bytes, body: Bytes, lost: nat)
      requires bytes == Some(base + body)
      modifies this`bytes, this`history
      ensures bytes == Some(base + Cut(body, lost)) && history == old(history) + [bytes]
      ensures base <= bytes.value <= base + body
    {
      var kept := |bytes.value| - |body| + |Cut(body, lost)|;
      assert (base + body)[..kept] == base + Cut(body, lost);
      bytes := Some(bytes.value[..kept]);
      history := history + [bytes];
    }

    /** Opens the file for the body that follows, then appends it chunk by chunk as it is hashed. */
    method Receive(hashes: Hashes, integrity: Integrity, offset: Option<nat>, reply: Reply)
      returns (r: Result<nat, Error>)
      requires offset == ResumeOffset(bytes, integrity)
      requires reply.Answer? && IsSuccess(reply.status)
      modifies this`bytes, this`history, this`faults
      ensures r == Err(Io) || (bytes, r) == Attempt(hashes, old(bytes), integrity, reply)
      ensures r == Err(Io) <==> faults > old(faults)
      ensures faults >= old(faults)
      ensures old(history) <= history
      ensures forall i :: |old(history)| <= i < |history| ==>
                Between(history[i], old(bytes), integrity, reply)
      ensures Between(bytes, old(bytes), integrity, reply)
    {
      var resumed := offset.Some? && reply.status == 206;
      var verifier := new Verifier(integrity);
      ghost var base := Base(bytes, integrity, reply);
      if resumed {
        var seeded := SeedVerifier(offset.value, verifier);
        if !seeded {
          return Err(Io);
        }
        var openOk := Try();
        if !openOk {
          return Err(Io);
        }
      } else {
        var created := CreateTruncated();
        if !created {
          return Err(Io);
        }
      }
      var appended := AppendBody(reply.chunks, verifier);
      if !appended {
        return Err(Io);
      }

      if reply.ending.CutOff? {
        Lose(base, Flatten(reply.chunks), reply.ending.lost);
        return Err(Transport(reply.ending.retryable));
      }
      var flushed := Try();
      if !flushed {
        return Err(Io);
      }
      var verdict := verifier.Finish(hashes);
      match verdict {
        case Ok(n) => return Ok(n);
        case Err(reason) => return Err(IntegrityFailed(reason));
      }
    }

    /** The log so far and the file it has left, with the next attempt due. */
    ghost predicate Due(integrity: Integrity, server: Server, start: Option<Bytes>, from: nat, attempt: nat)
      reads this
    {
      && |requests| == from + attempt
      && Logged(requests[from..], integrity, server, start)
      && if attempt == 0 then bytes == start
         else TriedAgain(requests[|requests| - 1].reply) && Leaves(requests[|requests| - 1], bytes)
    }

    /** One more attempt, entered in the log that began at `from`. */
    method LogAttempt(hashes: Hashes, integrity: Integrity, server: Server, hostAllowed: bool, attempt: nat,
                      ghost attempts: nat, ghost start: Option<Bytes>, ghost from: nat)
      returns (r: Result<nat, Error>)
      requires Due(integrity, server, start, from, attempt)
      modifies this
      ensures faults >= old(faults) && (r == Err(Io) <==> faults > old(faults))
      ensures r == Err(HostNotAllowed) <==> r != Err(Io) && !hostAllowed
      ensures !hostAllowed ==> requests == old(requests) && (r != Err(Io) ==> bytes == old(bytes))
      ensures hostAllowed && r != Err(Io) ==>
                (bytes, r) == Attempt(hashes, old(bytes), integrity,
                                      server(ResumeOffset(old(bytes), integrity), attempt))
      ensures old(history) <= history
      ensures forall i :: |old(history)| <= i < |history| ==>
                Between(history[i], old(bytes), integrity, server(ResumeOffset(old(bytes), integrity), attempt))
      ensures Between(bytes, old(bytes), integrity, server(ResumeOffset(old(bytes), integrity), attempt))
      ensures old(requests) <= requests && |requests| <= |old(requests)| + 1
      ensures Logged(requests[from..], integrity, server, start)
      ensures r.Err? && r.error.IsRetryable() ==> Due(integrity, server, start, from, attempt + 1)
      ensures r.Err? && r.error.IsRetryable() && attempt + 1 == attempts ==>
                Ends(hashes, integrity, requests[from..], bytes, attempts, Err(Exhausted(attempts, r.error)))
      ensures hostAllowed && r != Err(Io) && !(r.Err? && r.error.IsRetryable()) ==>
                Ends(hashes, integrity, requests[from..], bytes, attempts, r)
    {
      ghost var made := requests;
      r := DownloadResumable(hashes, integrity, server, hostAllowed, attempt);
      if |requests| > |made| {
        ghost var log, next := made[from..], requests[|made|];
        assert requests[from..] == log + [next];
        LoggedNext(log, integrity, server, start, next);
        if r != Err(Io) { EndsWith(hashes, integrity, log, next, bytes, attempts, r); }
      }
    }

    /** One more attempt of `attempts`, and what is left of the download after it. */
    method NextAttempt(hashes: Hashes, integrity: Integrity, server: Server, hostAllowed: bool, attempt: nat,
                       ghost attempts: nat, ghost start: Option<Bytes>, ghost from: nat, ghost body: Bytes)
      returns (r: Result<nat, Error>)
      requires Due(integrity, server, start, from, attempt) && attempt < attempts
      modifies this
      ensures faults >= old(faults) && (r == Err(Io) <==> faults > old(faults))
      ensures r == Err(HostNotAllowed) <==> r != Err(Io) && !hostAllowed
      ensures !hostAllowed ==> requests == old(requests) && (r != Err(Io) ==> bytes == old(bytes))
      ensures old(requests) <= requests && |requests| <= |old(requests)| + 1
      ensures Logged(requests[from..], integrity, server, start)
      ensures r.Err? && r.error.IsRetryable() ==> Due(integrity, server, start, from, attempt + 1)
      ensures r.Err? && r.error.IsRetryable() && attempt + 1 == attempts ==>
                Ends(hashes, integrity, requests[from..], bytes, attempts, Err(Exhausted(attempts, r.error)))
      ensures hostAllowed && r != Err(Io) && !(r.Err? && r.error.IsRetryable()) ==>
                Ends(hashes, integrity, requests[from..], bytes, attempts, r)
      ensures hostAllowed && r != Err(Io) ==>
                Retried(hashes, old(bytes), integrity, server, attempt, attempts)
                == if r.Ok? || !r.error.IsRetryable() then (bytes, r)
                   else if attempt + 1 == attempts then (bytes, Err(Exhausted(attempts, r.error)))
                   else Retried(hashes, bytes, integrity, server, attempt + 1, attempts)
      ensures r.Ok? ==> bytes.Some? && |bytes.value| == r.value && Meets(hashes, integrity, bytes.value)
      ensures old(history) <= history
      ensures HonestFrom(server, body, integrity, old(bytes)) ==>
                && PartOf(bytes, body) && (forall i :: |old(history)| <= i < |history| ==> PartOf(history[i], body))
                && (r.Ok? ==> bytes == Some(body))
    {
      ghost var before := bytes;
      r := LogAttempt(hashes, integrity, server, hostAllowed, attempt, attempts, start, from);
      if HonestFrom(server, body, integrity, before) {
        HonestKeepsPrefixes(server, attempt, before, integrity, body);
      }
      if hostAllowed && r != Err(Io) {
        RetriedStep(hashes, before, integrity, server, attempt, attempts);
      }
    }

    /**
     * Downloads with retries. Unless a file operation fails, the file and the outcome are those of `Retried`.
     * Whatever the server does, success means the file on disk meets the declared integrity. If the server is
     * honest about a body of the declared size and the file starts as a prefix of it, the file is such a prefix
     * at every moment and success means it is the whole body.
     */
    method ToFile(hashes: Hashes, integrity: Integrity, server: Server, hostAllowed: bool, attempts: nat,
                  ghost body: Bytes)
      returns (r: Result<nat, Error>)
      requires attempts >= 1
      modifies this
      ensures r == Err(Io) <==> faults > old(faults)
      ensures r != Err(Io) ==>
                (bytes, r) == if hostAllowed then Retried(hashes, old(bytes), integrity, server, 0, attempts)
                              else (old(bytes), Err(HostNotAllowed))
      ensures r.Ok? ==> bytes.Some? && |bytes.value| == r.value && Meets(hashes, integrity, bytes.value)
      ensures HonestFrom(server, body, integrity, old(bytes)) ==>
                && PartOf(bytes, body)
                && (forall i :: |old(history)| <= i < |history| ==> PartOf(history[i], body))
                && (r.Ok? ==> bytes == Some(body))
      ensures old(requests) <= requests && |requests| <= |old(requests)| + attempts
      ensures Logged(requests[|old(requests)|..], integrity, server, old(bytes))
      ensures !hostAllowed && r != Err(Io) ==> r == Err(HostNotAllowed) && requests == old(requests)
      ensures hostAllowed && r != Err(Io) ==>
                Ends(hashes, integrity, requests[|old(requests)|..], bytes, attempts, r)
    {
      var last: Option<Error> := None;
      assert requests[|old(requests)|..] == [];
      for attempt := 0 to attempts
        invariant attempt == 0 ==> bytes == old(bytes)
        invariant attempt > 0 ==> last.Some? && last.value.IsRetryable() && hostAllowed
        invariant faults == old(faults)
        invariant Retried(hashes, old(bytes), integrity, server, 0, attempts)
               == if attempt < attempts then Retried(hashes, bytes, integrity, server, attempt, attempts)
                  else (bytes, Err(Exhausted(attempts, last.value)))
        invariant old(requests) <= requests && Due(integrity, server, old(bytes), |old(requests)|, attempt)
        invariant attempt == attempts ==>
                    Ends(hashes, integrity, requests[|old(requests)|..], bytes, attempts,
                         Err(Exhausted(attempts, last.value)))
        invariant old(history) <= history
        invariant HonestFrom(server, body, integrity, old(bytes)) ==>
                    && PartOf(bytes, body)
                    && (forall i :: |old(history)| <= i < |history| ==> PartOf(history[i], body))
      {
        var outcome := NextAttempt(hashes, integrity, server, hostAllowed, attempt,
                                   attempts, old(bytes), |old(requests)|, body);
        if outcome.Ok? {
          return outcome;
        }
        if !outcome.error.IsRetryable() {
          return outcome;
        }
        last := Some(outcome.error);
      }
      return Err(Exhausted(attempts, last.value));
    }
  }

  // ----- What the attempts guarantee -----

  ghost predicate PartOf(file: Option<Bytes>, body: Bytes) {
    file.Some? ==> file.value <= body
  }

  /** Each body sent is the start of what the request asked for, cut short wherever the server likes. */
  ghost predicate HonestReply(reply: Reply, offset: Option<nat>, body: Bytes) {
    reply.Answer? && IsSuccess(reply.status) ==>
      if reply.status == 206 && offset.Some?
      then offset.value <= |body| ==> Flatten(reply.chunks) <= body[offset.value..]
      else Flatten(reply.chunks) <= body
  }

  ghost predicate Honest(server: Server, body: Bytes) {
    forall offset, attempt :: HonestReply(server(offset, attempt), offset, body)
  }

  /** The premises of an honest download: the body has the declared size and the file starts as part of it. */
  ghost predicate HonestFrom(server: Server, body: Bytes, integrity: Integrity, file: Option<Bytes>) {
    Honest(server, body) && integrity.size == Some(|body|) && PartOf(file, body)
  }

  lemma HonestReplyLands(file: Option<Bytes>, integrity: Integrity, reply: Reply, body: Bytes)
    requires integrity.size == Some(|body|) && PartOf(file, body)
    requires reply.Answer? && IsSuccess(reply.status)
    requires HonestReply(reply, ResumeOffset(file, integrity), body)
    ensures Landing(file, integrity, reply) <= body
  {
  }

  /** Against an honest server no moment of an attempt leaves the file anything but a prefix of the body. */
  lemma HonestKeepsPrefix(server: Server, attempt: nat, file: Option<Bytes>, integrity: Integrity, body: Bytes,
                          seen: Option<Bytes>)
    requires HonestFrom(server, body, integrity, file)
    requires Between(seen, file, integrity, server(ResumeOffset(file, integrity), attempt))
    ensures PartOf(seen, body)
  {
    var reply := server(ResumeOffset(file, integrity), attempt);
    assert HonestReply(reply, ResumeOffset(file, integrity), body);
    if seen != file {
      HonestReplyLands(file, integrity, reply, body);
    }
  }

  lemma HonestKeepsPrefixes(server: Server, attempt: nat, file: Option<Bytes>, integrity: Integrity, body: Bytes)
    requires HonestFrom(server, body, integrity, file)
    ensures forall seen :: Between(seen, file, integrity, server(ResumeOffset(file, integrity), attempt)) ==>
              PartOf(seen, body)
    ensures forall whole: Bytes :: whole <= body && |whole| == |body| ==> whole == body
  {
    forall seen | Between(seen, file, integrity, server(ResumeOffset(file, integrity), attempt))
      ensures PartOf(seen, body)
    {
      HonestKeepsPrefix(server, attempt, file, integrity, body, seen);
    }
    assert body[..|body|] == body;
  }

  /**
   * Progress: from any prefix of the body, an honest server whose first replies are only tried again and
   * whose reply number `full` sends all that is asked for, gets the whole body stored.
   */
  lemma {:induction false} RetriesDeliver(hashes: Hashes, file: Option<Bytes>, integrity: Integrity, server: Server,
                                          body: Bytes, attempt: nat, full: nat, attempts: nat)
    requires attempt <= full < attempts
    requires HonestFrom(server, body, integrity, file)
    requires Meets(hashes, integrity, body)
    requires forall offset, a :: attempt <= a < full ==> TriedAgain(server(offset, a))
    requires forall offset: Option<nat> :: (offset.Some? ==> offset.value <= |body|) ==>
               FullReply(server(offset, full), offset, body)
    ensures Retried(hashes, file, integrity, server, attempt, attempts) == (Some(body), Ok(|body|))
    decreases full - attempt
  {
    var offset := ResumeOffset(file, integrity);
    var reply := server(offset, attempt);
    if attempt == full {
      assert FullReply(reply, offset, body);
      FullReplyDelivers(hashes, file, integrity, reply, body);
    } else {
      assert TriedAgain(reply);
      var after := Attempt(hashes, file, integrity, reply).0;
      AttemptIsBetween(hashes, file, integrity, reply);
      HonestKeepsPrefix(server, attempt, file, integrity, body, after);
      RetriesDeliver(hashes, after, integrity, server, body, attempt + 1, full, attempts);
    }
  }

  lemma AttemptIsBetween(hashes: Hashes, file: Option<Bytes>, integrity: Integrity, reply: Reply)
    ensures Between(Attempt(hashes, file, integrity, reply).0, file, integrity, reply)
  {
    if reply.Answer? && IsSuccess(reply.status) && reply.ending.CutOff? {
      var base, body := Base(file, integrity, reply), Flatten(reply.chunks);
      CutBetween(base, body, reply.ending.lost);
    }
  }

  lemma CutBetween(base: Bytes, body: Bytes, lost: nat)
    ensures base <= base + Cut(body, lost) <= base + body
  {
  }

  lemma FullReplyDelivers(hashes: Hashes, file: Option<Bytes>, integrity: Integrity, reply: Reply, body: Bytes)
    requires integrity.size == Some(|body|) && PartOf(file, body) && Meets(hashes, integrity, body)
    requires FullReply(reply, ResumeOffset(file, integrity), body)
    ensures Attempt(hashes, file, integrity, reply) == (Some(body), Ok(|body|))
  {
    if reply.status == 206 {
      assert body == file.value + body[|file.value|..];
    }
    assert [] + body == body;
  }

  /** The server sent all of what was asked for. */
  ghost predicate FullReply(reply: Reply, offset: Option<nat>, body: Bytes) {
    reply.Answer? && IsSuccess(reply.status) && reply.ending.Complete? &&
    if reply.status == 206
    then offset.Some? && offset.value <= |body| && Flatten(reply.chunks) == body[offset.value..]
    else Flatten(reply.chunks) == body
  }

  /**
   * A damaged partial file repairs itself: whatever was on disk, when the server sends in full what is
   * asked for, either the first download is accepted or the second one restarts and stores the body.
   */
  lemma DamagedPrefixHeals(hashes: Hashes, integrity: Integrity, body: Bytes, file: Option<Bytes>,
                           first: Reply, second: Reply)
    requires integrity.size == Some(|body|) && Meets(hashes, integrity, body)
    requires FullReply(first, ResumeOffset(file, integrity), body)
    requires FullReply(second, ResumeOffset(Attempt(hashes, file, integrity, first).0, integrity), body)
    ensures Attempt(hashes, file, integrity, first).1.Ok?
         || Attempt(hashes, Attempt(hashes, file, integrity, first).0, integrity, second) == (Some(body), Ok(|body|))
  {
    var (after, outcome) := Attempt(hashes, file, integrity, first);
    var landed := Landing(file, integrity, first);
    if first.status != 206 {
      assert landed == body;
    } else {
      assert |landed| == |body|;
      assert ResumeOffset(after, integrity) == None;
      assert Landing(after, integrity, second) == body;
    }
  }

  /**
   * A resumed download that holds a true prefix and receives the rest stores exactly what a download from
   * scratch stores, and is judged the same.
   */
  lemma ResumingEqualsRestarting(hashes: Hashes, integrity: Integrity, body: Bytes, file: Option<Bytes>,
                                 partial: Reply, whole: Reply)
    requires integrity.size == Some(|body|) && PartOf(file, body)
    requires FullReply(partial, ResumeOffset(file, integrity), body)
    requires FullReply(whole, None, body)
    ensures Attempt(hashes, file, integrity, partial) == Attempt(hashes, None, integrity, whole)
  {
    if partial.status == 206 {
      assert body == file.value + body[|file.value|..];
    }
    assert [] + body == body;
  }
}
