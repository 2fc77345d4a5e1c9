/**
 * One push-notification connection manager (connectionAPNS) and the
 * per-socket worker state of launchSocket. Go channels are sequences: the
 * send channel is `sendQueue`, the log channel is `logQueue`, the done
 * channel is the flag `done` (true once closed). The network, the log file
 * and the feedback service are boolean inputs; the events a socket's
 * `select` waits for are one method each.
 */
module ApnsObject {
  import RetryCache
  import Backoff

  datatype Option<T> = None | Some(value: T)

  /** statusAPNS */
  datatype Status = Unknown | NoCerts | CertsFound | Active

  /** AppCert: the certificate of one app; Cert and RSAKey are opaque bytes. */
  datatype AppCert = AppCert(appID: int, isDev: int, cert: seq<bv8>, rsaKey: seq<bv8>)

  /** An outbound notification; the model never looks inside it. */
  datatype Payload = Payload(token: string, alertText: string, category: string, extraData: string)

  /** Go's zero Payload, which fills a fresh cache. */
  const ZeroPayload := Payload("", "", "", "")

  /** logEntry: a message tagged with the socket that produced it. */
  datatype LogEntry = LogEntry(socketID: int, message: string)

  datatype LaunchError = LogOpenFailed | FeedbackFailed

  /** The error result of launch: Ok stands for a nil error. */
  datatype Outcome = Ok | Err(error: LaunchError)

  /** Capacity of each socket's payload cache. */
  const CacheSize := 32

  // Messages the socket worker and the close handler log. Arguments of
  // Printf-style calls are not rendered: such a message is its format.
  const MsgEstablishing := "Establishing connection"
  const MsgEstablished := "Connection established"
  const MsgConnectError := " Error: %s\n"
  const MsgPush := "Push to device %v %s\n"
  const MsgReceivedError := "Received error, closing connection"
  const MsgDoneClosing := "Done channel is closed. Closing connection."
  const MsgBreaking := "Breaking the for loop, shutdown"
  const MsgCloseError := "CloseError: "
  const MsgListLength := "List length %d, Overflow %v\n"
  const MsgErrorPayload := "Payload %v %s %s\n%s\n"

  /** A message as logPrintln writes it: followed by a line break. */
  function Line(message: string): string {
    message + "\n"
  }

  /** The status newConnection gives a connection for its certificate. */
  function InitialStatus(cert: Option<AppCert>): (s: Status)
    ensures s == NoCerts <==> cert.None?
    ensures s == CertsFound <==> cert.Some?
  {
    if cert.None? then NoCerts else CertsFound
  }

  /** True when launch starts the sockets from status `s`. */
  predicate Starts(s: Status, logOpens: bool, feedbackOk: bool) {
    s != Active && s != NoCerts && logOpens && feedbackOk
  }

  /** Status after launch from `s`. */
  function LaunchStatus(s: Status, logOpens: bool, feedbackOk: bool): (s': Status)
    ensures s' == Active <==> s == Active || Starts(s, logOpens, feedbackOk)
    ensures s' != s ==> s' == Active
  {
    if Starts(s, logOpens, feedbackOk) then Active else s
  }

  /** The error launch returns from `s`. */
  function LaunchOutcome(s: Status, logOpens: bool, feedbackOk: bool): (r: Outcome)
    ensures r.Ok? <==> s == Active || s == NoCerts || (logOpens && feedbackOk)
    ensures r == Err(LogOpenFailed) <==> s != Active && s != NoCerts && !logOpens
  {
    if s == Active || s == NoCerts then Ok
    else if !logOpens then Err(LogOpenFailed)
    else if !feedbackOk then Err(FeedbackFailed)
    else Ok
  }

  /** Status after close from `s`. */
  function CloseStatus(s: Status): (s': Status)
    ensures s' != Active
    ensures s' != s <==> s == Active
    ensures s == Active ==> s' == CertsFound
  {
    if s == Active then CertsFound else s
  }

  /** A second close changes nothing. */
  lemma CloseTwice(s: Status)
    ensures CloseStatus(CloseStatus(s)) == CloseStatus(s)
  {
  }

  /** The log entries that the messages `msgs` of socket `socketID` add to
      the log queue: one each when logging is on, none otherwise. */
  function Entries(on: bool, socketID: int, msgs: seq<string>): (e: seq<LogEntry>)
    ensures |e| == if on then |msgs| else 0
    ensures forall j :: 0 <= j < |e| ==> e[j] == LogEntry(socketID, msgs[j])
  {
    if on then seq(|msgs|, j requires 0 <= j < |msgs| => LogEntry(socketID, msgs[j])) else []
  }

  lemma {:induction false} EntriesAppend(on: bool, socketID: int, a: seq<string>, b: seq<string>)
    ensures Entries(on, socketID, a + b) == Entries(on, socketID, a) + Entries(on, socketID, b)
  {
    var l, r := Entries(on, socketID, a + b), Entries(on, socketID, a) + Entries(on, socketID, b);
    assert |l| == |r|;
    forall j | 0 <= j < |l| ensures l[j] == r[j] {
      if j >= |Entries(on, socketID, a)| {
        assert r[j] == Entries(on, socketID, b)[j - |a|];
      }
    }
  }

  /** Messages handleCloseError logs for a closure. */
  function CloseErrorMessages(unsent: int, errorPayload: Option<Payload>): (m: seq<string>)
    ensures |m| == 1 + (if unsent > 0 then 1 else 0) + (if errorPayload.Some? then 1 else 0)
    ensures m[0] == Line(MsgCloseError)
    ensures unsent > 0 ==> m[1] == MsgListLength
    ensures errorPayload.Some? ==> m[|m| - 1] == MsgErrorPayload
  {
    [Line(MsgCloseError)]
    + (if unsent > 0 then [MsgListLength] else [])
    + (if errorPayload.Some? then [MsgErrorPayload] else [])
  }

  /** The cache a socket starts with: 32 zero payloads, cursor on slot 31. */
  function FreshCache(): (r: RetryCache.Ring<Payload>)
    ensures RetryCache.WellFormed(r) && |r.slots| == CacheSize && r.cursor == CacheSize - 1
  {
    RetryCache.Fresh(CacheSize, ZeroPayload)
  }

  /** connectionAPNS */
  class Connection {
    const appID: int
    const stringID: string
    const cert: Option<AppCert>
    var status: Status
    var isLogging: bool
    /** GatewayHost of cfgAPNS and of cfgFeedback */
    var gatewayHost: string
    var feedbackHost: string
    /** chanDone has been closed */
    var done: bool
    /** chanSend and chanLog */
    var sendQueue: seq<Payload>
    var logQueue: seq<LogEntry>
    /** The two socket workers the last successful launch started. */
    var workers: seq<Socket>

    /** Launch reads the certificate unless the status is NoCerts. */
    ghost predicate Valid()
      reads this`status
    {
      status != NoCerts ==> cert.Some?
    }

    /** newConnection */
    constructor (appID: int, stringID: string, cert: Option<AppCert>)
      ensures Valid()
      ensures this.appID == appID && this.stringID == stringID && this.cert == cert
      ensures status == InitialStatus(cert) && isLogging
      ensures gatewayHost == "" && feedbackHost == "" && !done
      ensures sendQueue == [] && logQueue == [] && workers == []
    {
      this.appID := appID;
      this.stringID := stringID;
      this.cert := cert;
      status := InitialStatus(cert);
      isLogging := true;
      gatewayHost, feedbackHost := "", "";
      done := false;
      sendQueue, logQueue, workers := [], [], [];
    }

    /** launch: `logOpens` is whether the log file opens, `feedbackOk`
        whether the feedback poll succeeds. */
    method Launch(isLogging: bool, pushURL: string, feedbackURL: string, logOpens: bool, feedbackOk: bool)
      returns (r: Outcome)
      requires Valid()
      modifies this
      ensures Valid()
      ensures this.isLogging == isLogging
      ensures status == LaunchStatus(old(status), logOpens, feedbackOk)
      ensures r == LaunchOutcome(old(status), logOpens, feedbackOk)
      ensures old(status) == Active || old(status) == NoCerts ==>
        gatewayHost == old(gatewayHost) && feedbackHost == old(feedbackHost)
      ensures old(status) != Active && old(status) != NoCerts ==>
        gatewayHost == pushURL && feedbackHost == feedbackURL
      ensures !Starts(old(status), logOpens, feedbackOk) ==>
        done == old(done) && sendQueue == old(sendQueue) && logQueue == old(logQueue) && workers == old(workers)
      ensures Starts(old(status), logOpens, feedbackOk) ==>
        !done && sendQueue == [] && logQueue == [] &&
        |workers| == 2 && workers[0] != workers[1] && workers[0].cache != workers[1].cache &&
        forall j :: 0 <= j < 2 ==>
          fresh(workers[j]) && fresh(workers[j].cache) && workers[j].Valid() &&
          workers[j].conn == this && workers[j].socketID == j + 1 && workers[j].Idle()
    {
      this.isLogging := isLogging;
      if status == Active || status == NoCerts {
        return Ok;
      }
      gatewayHost := pushURL;
      feedbackHost := feedbackURL;
      if !logOpens {
        return Err(LogOpenFailed);
      }
      if !feedbackOk {
        return Err(FeedbackFailed);
      }
      Start();
      return Ok;
    }

    /** The tail of a successful launch: fresh channels, two socket workers
        started, and the status Active. */
    method Start()
      requires cert.Some?
      modifies this`done, this`sendQueue, this`logQueue, this`workers, this`status
      ensures Valid() && status == Active
      ensures !done && sendQueue == [] && logQueue == [] &&
        |workers| == 2 && workers[0] != workers[1] && workers[0].cache != workers[1].cache &&
        forall j :: 0 <= j < 2 ==>
          fresh(workers[j]) && fresh(workers[j].cache) && workers[j].Valid() &&
          workers[j].conn == this && workers[j].socketID == j + 1 && workers[j].Idle()
    {
      done := false;
      sendQueue := [];
      logQueue := [];
      var s1 := new Socket(1, this);
      var s2 := new Socket(2, this);
      workers := [s1, s2];
      status := Active;
    }

    /** What close has done since the `old` state: the status demoted, the
        done channel closed iff it was Active, and nothing else changed. */
    twostate predicate ClosedSince()
      reads this
    {
      && status == CloseStatus(old(status))
      && done == (old(done) || old(status) == Active)
      && unchanged(this`isLogging, this`sendQueue, this`logQueue, this`workers, this`gatewayHost, this`feedbackHost)
    }

    /** close */
    method Close()
      modifies this`status, this`done
      ensures status == CloseStatus(old(status))
      ensures done == (old(done) || old(status) == Active)
    {
      if status == Active {
        done := true;
        status := CertsFound;
      }
    }

    /** pushOne: the payload is queued only while Active. */
    method PushOne(payload: Payload)
      modifies this`sendQueue
      ensures sendQueue == old(sendQueue) + (if status == Active then [payload] else [])
    {
      if status == Active {
        sendQueue := sendQueue + [payload];
      }
    }

    /** logPrint: the message is the operands concatenated. */
    method LogPrint(socketID: int, message: string)
      modifies this`logQueue
      ensures logQueue == old(logQueue) + Entries(isLogging, socketID, [message])
    {
      if isLogging {
        logQueue := logQueue + [LogEntry(socketID, message)];
      }
    }

    /** logPrintln: a line break ends the message. */
    method LogPrintln(socketID: int, message: string)
      modifies this`logQueue
      ensures logQueue == old(logQueue) + Entries(isLogging, socketID, [Line(message)])
    {
      if isLogging {
        logQueue := logQueue + [LogEntry(socketID, Line(message))];
      }
    }

    /** logPrintf: the message is the format; its arguments are not rendered. */
    method LogPrintf(socketID: int, format: string)
      modifies this`logQueue
      ensures logQueue == old(logQueue) + Entries(isLogging, socketID, [format])
    {
      if isLogging {
        logQueue := logQueue + [LogEntry(socketID, format)];
      }
    }

    /** The logging half of handleCloseError. */
    method LogCloseError(socketID: int, unsent: int, errorPayload: Option<Payload>)
      modifies this`logQueue
      ensures logQueue == old(logQueue) + Entries(isLogging, socketID, CloseErrorMessages(unsent, errorPayload))
    {
      ghost var heading := [Line(MsgCloseError)];
      ghost var counts := if unsent > 0 then [MsgListLength] else [];
      ghost var culprit := if errorPayload.Some? then [MsgErrorPayload] else [];
      LogPrintln(socketID, MsgCloseError);
      ghost var logged := logQueue;
      if unsent > 0 {
        LogPrintf(socketID, MsgListLength);
      }
      assert logQueue == logged + Entries(isLogging, socketID, counts);
      logged := logQueue;
      if errorPayload.Some? {
        LogPrintf(socketID, MsgErrorPayload);
      }
      assert logQueue == logged + Entries(isLogging, socketID, culprit);
      EntriesAppend(isLogging, socketID, heading, counts);
      EntriesAppend(isLogging, socketID, heading + counts, culprit);
      assert CloseErrorMessages(unsent, errorPayload) == heading + counts + culprit;
    }

    /** handleCloseError: logs the closure, then re-submits the newest
        payloads of the cache. */
    method HandleCloseError(socketID: int, unsent: int, errorPayload: Option<Payload>,
                            cache: array<Payload>, cur: int)
      requires 0 <= cur < cache.Length
      modifies this`sendQueue, this`logQueue
      ensures sendQueue == old(sendQueue) +
        (if status == Active then RetryCache.Replay(RetryCache.Ring(cache[..], cur), unsent) else [])
      ensures logQueue == old(logQueue) + Entries(isLogging, socketID, CloseErrorMessages(unsent, errorPayload))
    {
      LogCloseError(socketID, unsent, errorPayload);
      Resubmit(unsent, cache, cur);
      RetryCache.LoopReadsIsReplay(RetryCache.Ring(cache[..], cur), unsent);
    }

    /** The replay half of handleCloseError: counting `i` down from the
        unsent count (cut to the capacity), each slot the loop reads goes
        back through PushOne. */
    method Resubmit(unsent: int, cache: array<Payload>, cur: int)
      requires 0 <= cur < cache.Length
      modifies this`sendQueue
      ensures sendQueue == old(sendQueue) + (if status == Active then
        RetryCache.LoopReads(RetryCache.Ring(cache[..], cur), RetryCache.Clamp(unsent, cache.Length), 0) else [])
    {
      ghost var ring := RetryCache.Ring(cache[..], cur);
      if unsent > 0 {
        var size := cache.Length;
        var n := unsent;
        if n > size {
          n := size;   // the cache holds no more than this
        }
        var i := n;
        while i > 0
          invariant 0 <= i <= n
          invariant sendQueue == old(sendQueue) + (if status == Active then RetryCache.LoopReads(ring, n, i) else [])
        {
          var payload := cache[RetryCache.ReplaySlot(cur, size, i)];
          PushOne(payload);
          i := i - 1;
        }
      }
      assert cache[..] == ring.slots;
    }
  }

  /** The state launchSocket keeps for one socket: its payload cache and
      cursor, its backoff, and the two loop flags. `sent` is the history of
      successful sends, which the cache is a window of. */
  class Socket {
    const socketID: int
    const conn: Connection
    const cache: array<Payload>
    var idx: int
    var backoff: int
    /** bConnectionGood and bShutdown */
    var connected: bool
    var shutdown: bool
    ghost var sent: seq<Payload>

    ghost predicate Valid()
      reads this, cache
    {
      && cache.Length == CacheSize
      && 0 <= idx < CacheSize
      && RetryCache.Ring(cache[..], idx) == RetryCache.WriteAll(FreshCache(), sent)
      && backoff in Backoff.Levels
    }

    /** The state launchSocket starts from. */
    ghost predicate Idle()
      reads this, cache
    {
      && RetryCache.Ring(cache[..], idx) == FreshCache()
      && backoff == Backoff.Floor && sent == []
      && !connected && !shutdown
    }

    constructor (socketID: int, conn: Connection)
      ensures Valid() && Idle() && fresh(cache)
      ensures this.socketID == socketID && this.conn == conn
    {
      this.socketID := socketID;
      this.conn := conn;
      cache := new Payload[CacheSize](_ => ZeroPayload);
      idx := CacheSize - 1;
      backoff := 1;
      connected, shutdown := false, false;
      sent := [];
      new;
      assert cache[..] == FreshCache().slots;
    }

    /** The top of the outer loop: one connection attempt. */
    method Connect(ok: bool)
      requires Valid() && !connected && !shutdown
      modifies this`connected, conn`logQueue
      ensures Valid() && connected == ok
      ensures conn.logQueue == old(conn.logQueue) +
        Entries(conn.isLogging, socketID, [MsgEstablishing] + (if ok then [Line(MsgEstablished)] else [MsgConnectError]))
    {
      conn.LogPrint(socketID, MsgEstablishing);
      if ok {
        connected := true;
        conn.LogPrintln(socketID, MsgEstablished);
      } else {
        conn.LogPrintf(socketID, MsgConnectError);
      }
      EntriesAppend(conn.isLogging, socketID, [MsgEstablishing], if ok then [Line(MsgEstablished)] else [MsgConnectError]);
    }

    /** A payload was taken from the send queue and the transport accepted
        it within the backoff delay: it is cached and the backoff resets. */
    method SendSucceeded() returns (p: Payload)
      requires Valid() && connected && !shutdown && conn.sendQueue != []
      modifies this, cache, conn`sendQueue, conn`logQueue
      ensures Valid() && connected && !shutdown
      ensures p == old(conn.sendQueue[0]) && conn.sendQueue == old(conn.sendQueue[1..])
      ensures RetryCache.Ring(cache[..], idx) == RetryCache.Write(old(RetryCache.Ring(cache[..], idx)), p)
      ensures sent == old(sent) + [p]
      ensures backoff == Backoff.Floor
      ensures conn.logQueue == old(conn.logQueue) + Entries(conn.isLogging, socketID, [MsgPush])
    {
      p := conn.sendQueue[0];
      conn.sendQueue := conn.sendQueue[1..];
      conn.LogPrintf(socketID, MsgPush);
      idx := (idx + 1) % CacheSize;
      cache[idx] := p;
      backoff := 1;
      sent := sent + [p];
      assert sent[..|sent| - 1] == old(sent);
    }

    /** A payload was taken from the send queue but the backoff delay
        elapsed first: the payload is dropped, cache and backoff stay. */
    method SendTimedOut()
      requires Valid() && connected && !shutdown && conn.sendQueue != []
      modifies conn`sendQueue, conn`logQueue
      ensures Valid() && unchanged(this, cache)
      ensures conn.sendQueue == old(conn.sendQueue[1..])
      ensures conn.logQueue == old(conn.logQueue) + Entries(conn.isLogging, socketID, [MsgPush])
    {
      conn.sendQueue := conn.sendQueue[1..];
      conn.LogPrintf(socketID, MsgPush);
    }

    /** The gateway closed the connection reporting `unsent` unsent payloads
        and perhaps the payload that caused it: the backoff doubles below its
        limit, the newest cached payloads are re-submitted, and the socket
        goes back to connecting. */
    method Closed(unsent: int, errorPayload: Option<Payload>)
      requires Valid() && connected && !shutdown
      modifies this`backoff, this`connected, conn`sendQueue, conn`logQueue
      ensures Valid() && !connected
      ensures backoff == Backoff.OnClosure(old(backoff))
      ensures conn.sendQueue == old(conn.sendQueue) +
        (if conn.status == Active then RetryCache.Replay(RetryCache.Ring(cache[..], idx), unsent) else [])
      ensures conn.logQueue == old(conn.logQueue) + Entries(conn.isLogging, socketID, [Line(MsgReceivedError)])
        + Entries(conn.isLogging, socketID, CloseErrorMessages(unsent, errorPayload))
    {
      conn.LogPrintln(socketID, MsgReceivedError);
      if backoff < Backoff.Limit {
        backoff := backoff * 2;
      }
      conn.HandleCloseError(socketID, unsent, errorPayload, cache, idx);
      connected := false;
    }

    /** What Closed re-submits after at least Clamp(n) successful sends is
        exactly the newest Clamp(n) of them, oldest first. */
    lemma ReplayIsNewestSent(n: int)
      requires Valid() && RetryCache.Clamp(n, CacheSize) <= |sent|
      ensures RetryCache.Replay(RetryCache.Ring(cache[..], idx), n) == sent[|sent| - RetryCache.Clamp(n, CacheSize)..]
    {
      RetryCache.ReplayIsNewestSends(FreshCache(), sent, n);
    }

    /** The done channel is closed while connected: the transport is
        disconnected and the outer loop ends. */
    method Done()
      requires Valid() && connected && !shutdown && conn.done
      modifies this`shutdown, conn`logQueue
      ensures Valid() && shutdown
      ensures conn.logQueue == old(conn.logQueue) + Entries(conn.isLogging, socketID, [Line(MsgDoneClosing), Line(MsgBreaking)])
    {
      conn.LogPrintln(socketID, MsgDoneClosing);
      shutdown := true;
      conn.LogPrintln(socketID, MsgBreaking);
      EntriesAppend(conn.isLogging, socketID, [Line(MsgDoneClosing)], [Line(MsgBreaking)]);
    }
  }
}
