/** Envelopes, payloads and Redis streams, with the stream commands the queue package issues. */
module Queue {

  type JobId = nat

  datatype LogEvent = LogEvent(service: seq<bv8>, level: string, message: string)

  datatype Envelope = Envelope(
    job: JobId,
    data: LogEvent,
    enqueuedAt: nat,
    retryCount: int,
    maxRetries: int,
    eventType: string,
    lastError: string)

  /** One processing attempt: the pair the deduplication key is made of. */
  datatype Attempt = Attempt(job: JobId, retry: int)

  function AttemptOf(env: Envelope): Attempt
  {
    Attempt(env.job, env.retryCount)
  }

  /** `buildJobEnvelope`; the fresh JobID and the clock are inputs. */
  function BuildJobEnvelope(job: JobId, event: LogEvent, maxRetries: int, now: nat): Envelope
  {
    Envelope(job, event, now, 0, maxRetries, "log_event", "")
  }

  /** What `Retry` makes of the envelope before it is re-enqueued or buried. */
  function Bumped(env: Envelope, err: string): Envelope
  {
    env.(retryCount := env.retryCount + 1, lastError := err)
  }

  /** What `Requeue` makes of a dead-lettered envelope. */
  function Revived(env: Envelope): Envelope
  {
    env.(retryCount := 0, lastError := "")
  }

  /** A stream entry either decodes to an envelope or does not. */
  datatype Payload = Job(env: Envelope) | Malformed

  datatype Pending = Pending(owner: nat, since: nat)

  /**
   * A partition stream with its consumer group. An entry's id is its position in `log`, which
   * never shrinks: trimming advances `base`, and only `log[base..]` is stored by the server.
   * `next` is the group's cursor, `pel` its pending list, `acked` remembers acknowledged ids.
   */
  datatype Stream = Stream(
    log: seq<Payload>,
    base: nat,
    next: nat,
    pel: map<nat, Pending>,
    acked: set<nat>)

  const EMPTY_STREAM := Stream([], 0, 0, map[], {})

  /** XLEN */
  function Length(st: Stream): int
  {
    |st.log| - st.base
  }

  /** MAXLEN ~ n may cut any prefix but leaves at least n entries; n = 0 means no trimming. */
  predicate CutAllowed(st: Stream, maxLen: nat, cut: nat)
  {
    && st.base <= cut <= |st.log| + 1
    && (st.base < cut ==> 0 < maxLen <= |st.log| + 1 - cut)
  }

  /** XADD followed by its trimming. */
  function Append(st: Stream, m: Payload, cut: nat): Stream
  {
    st.(log := st.log + [m], base := cut)
  }

  /** The entry XREADGROUP `>` hands out next. */
  function NextId(st: Stream): nat
  {
    if st.next < st.base then st.base else st.next
  }

  function Read(st: Stream, worker: nat, now: nat): Stream
  {
    var id := NextId(st);
    st.(next := id + 1, pel := st.pel[id := Pending(worker, now)])
  }

  /** XAUTOCLAIM transferring one stale entry. */
  function Claim(st: Stream, id: nat, worker: nat, now: nat): Stream
  {
    st.(pel := st.pel[id := Pending(worker, now)])
  }

  /** XACK; acknowledging an entry that is not pending has no effect. */
  function Acknowledge(st: Stream, id: nat): Stream
  {
    if id in st.pel then st.(pel := st.pel - {id}, acked := st.acked + {id}) else st
  }

  /** How a Redis command ends: applied, applied with the reply lost, or not applied. */
  datatype Outcome = Ok | ReplyLost | NotApplied
  {
    predicate Applied() { this != NotApplied }
    predicate Errs() { this != Ok }
  }
}
