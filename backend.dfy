/**
 * The object-storage backend as the client sees it, and the client's connection
 * and retry policy stated as functions over the client's observable state.
 *
 * The SDK behind `oss2.Bucket` is opaque: each request it serves answers with the
 * next entry of a script (a value or a raised error), and each attempt to build a
 * handle succeeds or fails as a second script says. Nothing here describes what
 * the service does with a request; only what the client does with the answers.
 */
module OssBackend {
  import opened Wrappers

  newtype Byte = b: int | 0 <= b < 256

  /** What `oss2.Bucket` is built from: credentials, endpoint, bucket and region. */
  datatype Target = Target(
    accessKey: Option<string>,
    secretKey: Option<string>,
    endpointUrl: Option<string>,
    bucket: Option<string>,
    region: Option<string>)

  /** A live session: the `serial`-th connect attempt, bound to one target. */
  datatype Handle = Handle(serial: nat, target: Target)

  /**
   * Errors a call can raise: the service's "no such bucket", any other service
   * error, and the AttributeError of calling a method on a connection that is None.
   */
  datatype Error = NoSuchBucket | ServiceError | NoConnection

  /** Values the SDK returns; the client passes them through uninterpreted. */
  datatype Value = Receipt(requestId: string) | Blob(bytes: seq<Byte>) | Url(url: string) | Flag(flag: bool)

  datatype Reply = Returned(value: Value) | Raised(error: Error)

  /** The requests the client issues on a handle. */
  datatype Op =
    | GetBucketInfo
    | CreateBucket
    | PutObject(key: string, data: seq<Byte>)
    | DeleteObject(key: string)
    | GetObject(key: string)
    | ObjectExists(key: string)
    | SignUrl(verb: string, key: string, expires: int, slashSafe: bool)

  /** One entry of the client's trace: a connect attempt, or an attempt to call the backend. */
  datatype Event =
    | Connected(handle: Handle)
    | ConnectFailed
    | Request(handle: Handle, op: Op, reply: Reply)
    | Unconnected(op: Op)

  /** The backend oracle: the reply to the i-th request, and whether the i-th connect succeeds. */
  datatype Script = Script(reply: nat -> Reply, connect: nat -> bool)

  /**
   * The client's state: its connection (None is the ABSENT state), how many
   * requests and connect attempts it has made, and the trace of what it did.
   */
  datatype World = World(conn: Option<Handle>, requests: nat, connects: nat, trace: seq<Event>)

  datatype Step = Step(reply: Reply, world: World)

  datatype Outcome = Outcome(result: Option<Value>, world: World)

  /** The bytes of an ASCII string, as a Python `b"..."` literal holds them. */
  function Ascii(text: string): (bytes: seq<Byte>)
    requires forall i :: 0 <= i < |text| ==> text[i] as int < 128
    ensures |bytes| == |text| && forall i :: 0 <= i < |text| ==> bytes[i] as int == text[i] as int
  {
    seq(|text|, i requires 0 <= i < |text| => text[i] as int as Byte)
  }

  /** The payload of the liveness probe. */
  const HealthPayload: seq<Byte> := Ascii("_t@@@1")

  const Initial := World(None, 0, 0, [])

  /** The loop bounds of `put`, `get` and `get_presigned_url`. */
  const PutAttempts: nat := 1
  const GetAttempts: nat := 1
  const PresignAttempts: nat := 10

  predicate IsAttempt(e: Event) {
    e.Request? || e.Unconnected?
  }

  predicate IsReopen(e: Event) {
    e.Connected? || e.ConnectFailed?
  }

  /** What an attempt answered: the backend's reply, or the error of a missing connection. */
  function AttemptReply(e: Event): Reply
    requires IsAttempt(e)
  {
    if e.Request? then e.reply else Raised(NoConnection)
  }

  predicate Mentions(e: Event, h: Handle) {
    (e.Connected? || e.Request?) && e.handle == h
  }

  /** A handle issued by connect attempt number `serial` for target `t`, before attempt `connects`. */
  predicate Issued(h: Handle, t: Target, connects: nat) {
    h.target == t && h.serial < connects
  }

  /**
   * The state invariant: every handle the client holds or has used was made for
   * the configured target (so every request goes to the configured bucket) by a
   * connect attempt that already happened.
   */
  ghost predicate WorldValid(w: World, t: Target) {
    && (w.conn.Some? ==> Issued(w.conn.value, t, w.connects))
    && forall i :: 0 <= i < |w.trace| && (w.trace[i].Connected? || w.trace[i].Request?) ==>
         Issued(w.trace[i].handle, t, w.connects)
  }

  /** A handle that the client never held or used before. */
  ghost predicate FreshIn(h: Handle, w: World) {
    && (w.conn.Some? ==> w.conn.value != h)
    && forall i :: 0 <= i < |w.trace| ==> !Mentions(w.trace[i], h)
  }

  function Attempts(t: seq<Event>): nat {
    if t == [] then 0 else (if IsAttempt(t[0]) then 1 else 0) + Attempts(t[1..])
  }

  function Reopens(t: seq<Event>): nat {
    if t == [] then 0 else (if IsReopen(t[0]) then 1 else 0) + Reopens(t[1..])
  }

  /** `__close__`: drop the handle. */
  function Disconnect(w: World): World {
    w.(conn := None)
  }

  /** The trace entry of a connect attempt made in state `w`. */
  function ConnectEvent(w: World, t: Target, s: Script): Event {
    if s.connect(w.connects) then Connected(Handle(w.connects, t)) else ConnectFailed
  }

  /**
   * `__open__`: close a live handle, then try to build a new one for the target;
   * on failure the connection stays None.
   */
  function Connect(w: World, t: Target, s: Script): World {
    var closed := if w.conn.Some? then Disconnect(w) else w;
    var e := ConnectEvent(w, t, s);
    if s.connect(w.connects) then
      closed.(conn := Some(e.handle), connects := w.connects + 1, trace := w.trace + [e])
    else
      closed.(connects := w.connects + 1, trace := w.trace + [e])
  }

  /** The trace entry of the call `self.conn.<op>(...)` made in state `w`. */
  function SendEvent(w: World, s: Script, op: Op): Event {
    match w.conn
    case None => Unconnected(op)
    case Some(h) => Request(h, op, s.reply(w.requests))
  }

  /**
   * One call `self.conn.<op>(...)`: with no connection it raises at once; otherwise
   * the backend answers with the next scripted reply.
   */
  function Send(w: World, s: Script, op: Op): Step {
    var e := SendEvent(w, s, op);
    match w.conn
    case None =>
      Step(Raised(NoConnection), w.(trace := w.trace + [e]))
    case Some(h) =>
      Step(e.reply, w.(requests := w.requests + 1, trace := w.trace + [e]))
  }

  /** A raised error as the caller of a non-catching operation sees it. */
  function AsResult(r: Reply): Result<Value, Error> {
    match r
    case Returned(v) => Ok(v)
    case Raised(e) => Err(e)
  }

  /**
   * The retry-via-reconnect loop: up to `n` attempts of `op`; the first answer
   * returned is the result; every failed attempt is followed by one `__open__`;
   * None once the attempts are used up.
   */
  function Retry(w: World, t: Target, s: Script, op: Op, n: nat): Outcome
    decreases n
  {
    if n == 0 then Outcome(None, w)
    else
      var st := Send(w, s, op);
      match st.reply
      case Returned(v) => Outcome(Some(v), st.world)
      case Raised(_) => Retry(Connect(st.world, t, s), t, s, op, n - 1)
  }

  /** `bucket_exists`: "no such bucket" means false, success means true, anything else is raised. */
  function BucketExists(w: World, s: Script): (Result<bool, Error>, World) {
    var st := Send(w, s, GetBucketInfo);
    match st.reply
    case Returned(_) => (Ok(true), st.world)
    case Raised(NoSuchBucket) => (Ok(false), st.world)
    case Raised(e) => (Err(e), st.world)
  }

  /** `create_bucket`: create only when connected and the bucket is reported missing; swallow errors. */
  function EnsureBucket(w: World, s: Script): World {
    if w.conn.None? then w
    else
      var (present, w1) := BucketExists(w, s);
      match present
      case Ok(true) => w1
      case Ok(false) => Send(w1, s, CreateBucket).world
      case Err(_) => w1
  }

  /**
   * One call appends one attempt of `op` to the trace, recording the reply the
   * caller gets, and leaves the connection and the connect counter alone.
   */
  lemma SendFacts(w: World, s: Script, op: Op)
    ensures var st := Send(w, s, op);
      var e := SendEvent(w, s, op);
      && st.world.trace == w.trace + [e]
      && IsAttempt(e) && e.op == op && AttemptReply(e) == st.reply
      && st.world.conn == w.conn && st.world.connects == w.connects
  {
  }

  /** One call keeps every handle the client holds or has used bound to the configured target. */
  lemma SendKeepsValid(w: World, t: Target, s: Script, op: Op)
    requires WorldValid(w, t)
    ensures WorldValid(Send(w, s, op).world, t)
  {
  }

  /** `__open__` counts one connect attempt, appends one reopen event and keeps the invariant. */
  lemma ConnectKeepsValid(w: World, t: Target, s: Script)
    requires WorldValid(w, t)
    ensures WorldValid(Connect(w, t, s), t)
    ensures Connect(w, t, s).trace == w.trace + [ConnectEvent(w, t, s)]
    ensures IsReopen(ConnectEvent(w, t, s)) && Connect(w, t, s).connects == w.connects + 1
  {
    var w' := Connect(w, t, s);
    forall i | 0 <= i < |w'.trace| && (w'.trace[i].Connected? || w'.trace[i].Request?)
      ensures Issued(w'.trace[i].handle, t, w'.connects)
    {
      if i < |w.trace| {
        assert w'.trace[i] == w.trace[i];
      }
    }
  }

  /** The retry loop keeps every handle it holds or uses bound to the configured target. */
  lemma {:induction false} RetryKeepsValid(w: World, t: Target, s: Script, op: Op, n: nat)
    requires WorldValid(w, t)
    ensures WorldValid(Retry(w, t, s, op, n).world, t)
    decreases n
  {
    if n > 0 {
      var st := Send(w, s, op);
      SendKeepsValid(w, t, s, op);
      if st.reply.Raised? {
        ConnectKeepsValid(st.world, t, s);
        RetryKeepsValid(Connect(st.world, t, s), t, s, op, n - 1);
      }
    }
  }

  /** One turn of the retry loop. */
  lemma RetryUnfold(w: World, t: Target, s: Script, op: Op, n: nat)
    requires n >= 1
    ensures var st := Send(w, s, op);
      Retry(w, t, s, op, n) ==
        if st.reply.Returned? then Outcome(Some(st.reply.value), st.world)
        else Retry(Connect(st.world, t, s), t, s, op, n - 1)
  {
  }

  /**
   * Whatever bucket hint an operation was given, every request the client has
   * made went out on a handle built for the configured target, hence bucket.
   */
  lemma RequestsUseConfiguredBucket(w: World, t: Target)
    requires WorldValid(w, t)
    ensures forall i :: 0 <= i < |w.trace| && w.trace[i].Request? ==> w.trace[i].handle.target.bucket == t.bucket
    ensures w.conn.Some? ==> w.conn.value.target.bucket == t.bucket
  {
  }

  lemma {:induction false} AttemptsAppend(a: seq<Event>, b: seq<Event>)
    ensures Attempts(a + b) == Attempts(a) + Attempts(b)
    ensures Reopens(a + b) == Reopens(a) + Reopens(b)
  {
    if a != [] {
      assert (a + b)[1..] == a[1..] + b;
      AttemptsAppend(a[1..], b);
    } else {
      assert a + b == b;
    }
  }

  /**
   * The connection state machine: `__open__` ends LIVE with a handle never seen
   * before exactly when the connect succeeds, and ABSENT otherwise, from either state.
   */
  lemma OpenTransitions(w: World, t: Target, s: Script)
    requires WorldValid(w, t)
    ensures var w' := Connect(w, t, s);
      && w'.connects == w.connects + 1
      && (w'.conn.Some? <==> s.connect(w.connects))
      && (w'.conn.Some? ==> w'.conn.value.target == t && FreshIn(w'.conn.value, w))
  {
  }

  /** `__close__` always ends ABSENT, and closing twice is closing once. */
  lemma CloseTransitions(w: World)
    ensures Disconnect(w).conn.None?
    ensures Disconnect(Disconnect(w)) == Disconnect(w)
    ensures Disconnect(w).trace == w.trace && Disconnect(w).connects == w.connects
    ensures Disconnect(w).requests == w.requests
  {
  }

  /**
   * The counting promise for the events `ext` of one run of the retry loop with `n`
   * attempts allowed: at least one and at most `n` attempts; one reopen per failed
   * attempt; all `n` attempts made when the result is None.
   */
  predicate CountsWithin(ext: seq<Event>, result: Option<Value>, n: nat) {
    && 1 <= Attempts(ext) <= n
    && Reopens(ext) == Attempts(ext) - (if result.Some? then 1 else 0)
    && (result.None? ==> Attempts(ext) == n)
  }

  lemma PairCounts(a: Event, c: Event)
    requires IsAttempt(a) && IsReopen(c)
    ensures Attempts([a, c]) == 1 && Reopens([a, c]) == 1
  {
    assert [a, c][1..] == [c];
    assert [c][1..] == [];
    assert Attempts([c]) == 0 && Reopens([c]) == 1;
    assert Attempts([a, c]) == 1 + Attempts([c]);
    assert Reopens([a, c]) == 0 + Reopens([c]);
  }

  /**
   * Counting for the retry loop: the run appends the events `ext` to the trace,
   * they count as CountsWithin says, and the connect counter grows by the reopens.
   */
  lemma {:induction false} RetryCounts(w: World, t: Target, s: Script, op: Op, n: nat) returns (ext: seq<Event>)
    requires n >= 1
    ensures var o := Retry(w, t, s, op, n);
      && o.world.trace == w.trace + ext
      && o.world.connects == w.connects + Reopens(ext)
      && CountsWithin(ext, o.result, n)
    decreases n
  {
    var st := Send(w, s, op);
    var a := SendEvent(w, s, op);
    SendFacts(w, s, op);
    RetryUnfold(w, t, s, op, n);
    if st.reply.Returned? {
      ext := [a];
      assert [a][1..] == [];
    } else {
      var c := ConnectEvent(st.world, t, s);
      var w1 := Connect(st.world, t, s);
      assert w1.trace == w.trace + [a, c];
      PairCounts(a, c);
      if n == 1 {
        ext := [a, c];
      } else {
        var ext' := RetryCounts(w1, t, s, op, n - 1);
        ext := [a, c] + ext';
        AttemptsAppend([a, c], ext');
        assert w1.trace + ext' == w.trace + ext;
      }
    }
  }

  /** Attempts and reopens alternate, starting with an attempt (every event is one or the other). */
  ghost predicate Alternating(ext: seq<Event>) {
    && (|ext| > 0 ==> IsAttempt(ext[0]))
    && forall i :: 0 <= i < |ext| - 1 ==> (IsAttempt(ext[i]) <==> IsReopen(ext[i + 1]))
  }

  ghost predicate AllAttemptsOf(ext: seq<Event>, op: Op) {
    forall i :: 0 <= i < |ext| && IsAttempt(ext[i]) ==> ext[i].op == op
  }

  /** Every attempt among the first `k` events failed. */
  ghost predicate FailedBefore(ext: seq<Event>, k: int) {
    forall i :: 0 <= i < k && i < |ext| && IsAttempt(ext[i]) ==> AttemptReply(ext[i]).Raised?
  }

  /**
   * The shape of the events `ext` of one run of the retry loop with `n` attempts
   * allowed: attempts and reopens alternate; every attempt is of `op`; every
   * attempt but a final one failed; the result is the value of the final attempt
   * exactly when that attempt succeeded, so it is the value of the first success.
   */
  ghost predicate ShapeWithin(ext: seq<Event>, result: Option<Value>, op: Op, n: nat) {
    && Alternating(ext) && AllAttemptsOf(ext, op) && FailedBefore(ext, |ext| - 1)
    && (result.Some? <==> |ext| > 0 && IsAttempt(ext[|ext| - 1]))
    && (result.Some? ==> AttemptReply(ext[|ext| - 1]) == Returned(result.value))
    && (result.None? ==> |ext| == 2 * n)
  }

  /** A failed attempt and its reopen in front of a run of the right shape for n - 1 attempts. */
  lemma ShapeStep(a: Event, c: Event, ext': seq<Event>, result: Option<Value>, op: Op, n: nat)
    requires n >= 1
    requires IsAttempt(a) && a.op == op && AttemptReply(a).Raised? && IsReopen(c)
    requires ShapeWithin(ext', result, op, n - 1)
    ensures ShapeWithin([a, c] + ext', result, op, n)
  {
    var ext := [a, c] + ext';
    forall i | 2 <= i < |ext|
      ensures ext[i] == ext'[i - 2]
    {
    }
  }

  /** The shape of the retry loop's trace: the run appends `ext`, shaped as ShapeWithin says. */
  lemma {:induction false} RetryShape(w: World, t: Target, s: Script, op: Op, n: nat) returns (ext: seq<Event>)
    ensures var o := Retry(w, t, s, op, n);
      o.world.trace == w.trace + ext && ShapeWithin(ext, o.result, op, n)
    decreases n
  {
    if n == 0 {
      ext := [];
    } else {
      var st := Send(w, s, op);
      var a := SendEvent(w, s, op);
      SendFacts(w, s, op);
      RetryUnfold(w, t, s, op, n);
      if st.reply.Returned? {
        ext := [a];
      } else {
        var c := ConnectEvent(st.world, t, s);
        var w1 := Connect(st.world, t, s);
        assert w1.trace == w.trace + [a, c];
        var ext' := RetryShape(w1, t, s, op, n - 1);
        ext := [a, c] + ext';
        ShapeStep(a, c, ext', Retry(w1, t, s, op, n - 1).result, op, n);
        assert w1.trace + ext' == w.trace + ext;
      }
    }
  }

  /**
   * `put` and `get`: exactly one attempt; the backend's value is returned exactly
   * when it succeeded; otherwise exactly one reopen and None.
   */
  lemma SingleAttempt(w: World, t: Target, s: Script, op: Op)
    ensures var o := Retry(w, t, s, op, 1);
      && |w.trace| <= |o.world.trace|
      && var ext := o.world.trace[|w.trace|..];
      && Attempts(ext) == 1
      && Reopens(ext) == (if o.result.Some? then 0 else 1)
      && (o.result.Some? <==> Send(w, s, op).reply.Returned?)
      && (o.result.Some? ==> o.result.value == Send(w, s, op).reply.value)
  {
    var ext := RetryCounts(w, t, s, op, 1);
    assert Retry(w, t, s, op, 1).world.trace[|w.trace|..] == ext;
  }

  /** `get_presigned_url`: between one and ten attempts, each failure followed by one reopen. */
  lemma PresignBound(w: World, t: Target, s: Script, op: Op)
    ensures var o := Retry(w, t, s, op, PresignAttempts);
      && |w.trace| <= |o.world.trace|
      && var ext := o.world.trace[|w.trace|..];
      && 1 <= Attempts(ext) <= 10
      && (o.result.None? ==> Attempts(ext) == 10 && Reopens(ext) == 10)
      && (o.result.Some? ==> Reopens(ext) == Attempts(ext) - 1)
  {
    var ext := RetryCounts(w, t, s, op, PresignAttempts);
    assert Retry(w, t, s, op, PresignAttempts).world.trace[|w.trace|..] == ext;
  }

  /**
   * `bucket_exists` answers false exactly on "no such bucket", true exactly on
   * success, and raises every other error unchanged (including a missing connection).
   */
  lemma BucketExistsOutcomes(w: World, s: Script)
    ensures var (r, _) := BucketExists(w, s);
      var reply := Send(w, s, GetBucketInfo).reply;
      && (r == Ok(false) <==> reply == Raised(NoSuchBucket))
      && (r == Ok(true) <==> reply.Returned?)
      && (r.Err? <==> reply.Raised? && reply.error != NoSuchBucket)
      && (r.Err? ==> r.error == reply.error)
      && (w.conn.None? ==> r == Err(NoConnection))
  {
  }

  /**
   * `create_bucket` leaves the state alone without a connection, never reconnects,
   * and requests a creation exactly when the bucket was reported missing.
   */
  lemma EnsureBucketOutcomes(w: World, s: Script)
    ensures var w' := EnsureBucket(w, s);
      && w'.conn == w.conn && w'.connects == w.connects
      && (w.conn.None? ==> w' == w)
      && (w.conn.Some? ==>
            var created := Send(w, s, GetBucketInfo).reply == Raised(NoSuchBucket);
            && |w'.trace| == |w.trace| + (if created then 2 else 1)
            && w'.trace[|w.trace|].op == GetBucketInfo
            && (created ==> w'.trace[|w.trace| + 1].op == CreateBucket))
  {
  }
}
