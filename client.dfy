/**
 * The client object of rag/utils/oss_conn.py: configuration read once, one
 * connection field that `__open__`/`__close__` replace, and the object operations
 * built on the key decoration and the retry-via-reconnect loop.
 *
 * Each method is proved against the function of OssBackend that states its effect
 * on the client's state; the lemmas of OssBackend and ObjectKey say what those
 * functions promise.
 */
module OssConn {
  import opened Wrappers
  import opened ObjectKey
  import opened OssBackend

  class RagFlowOss {
    const accessKey: Option<string>
    const secretKey: Option<string>
    const endpointUrl: Option<string>
    const region: Option<string>
    const bucket: Option<string>
    const prefixPath: Option<string>

    /** The backend this client talks to, as an oracle. */
    const script: Script

    /** The connection: None is the ABSENT state, Some(h) the LIVE one. */
    var conn: Option<Handle>
    var requests: nat
    var connects: nat
    /** Every connect attempt and every call attempt, in order. */
    var trace: seq<Event>

    /** The tuple each new handle is built from. */
    function Target(): Target {
      OssBackend.Target(accessKey, secretKey, endpointUrl, bucket, region)
    }

    ghost function State(): World
      reads this
    {
      World(conn, requests, connects, trace)
    }

    ghost predicate Valid()
      reads this
    {
      WorldValid(State(), Target())
    }

    /** `__init__`: read the configuration, open a connection, then make sure the bucket exists. */
    constructor (accessKey: Option<string>, secretKey: Option<string>, endpointUrl: Option<string>,
                 region: Option<string>, bucket: Option<string>, prefixPath: Option<string>, script: Script)
      ensures Valid()
      ensures this.accessKey == accessKey && this.secretKey == secretKey && this.endpointUrl == endpointUrl
      ensures this.region == region && this.bucket == bucket && this.prefixPath == prefixPath
      ensures this.script == script
      ensures State() == EnsureBucket(Connect(Initial, Target(), script), script)
    {
      this.accessKey := accessKey;
      this.secretKey := secretKey;
      this.endpointUrl := endpointUrl;
      this.region := region;
      this.bucket := bucket;
      this.prefixPath := prefixPath;
      this.script := script;
      conn := None;
      requests := 0;
      connects := 0;
      trace := [];
      new;
      Open();
      CreateBucket();
    }

    /** `create_bucket`: check, then create when missing; errors are swallowed. */
    method CreateBucket()
      requires Valid()
      modifies this
      ensures Valid()
      ensures State() == EnsureBucket(old(State()), script)
    {
      if conn.None? {
        return;
      }
      var present := BucketExists();
      if present.Err? || present.value {
        return;
      }
      var ignored := Invoke(OssBackend.CreateBucket);
    }

    /** `__open__`: drop a live handle, then connect anew; a failed connect leaves None. */
    method Open()
      requires Valid()
      modifies this
      ensures Valid()
      ensures State() == Connect(old(State()), Target(), script)
    {
      ConnectKeepsValid(State(), Target(), script);
      if conn.Some? {
        Close();
      }
      var h := Handle(connects, Target());
      if script.connect(connects) {
        conn := Some(h);
        trace := trace + [Connected(h)];
      } else {
        trace := trace + [ConnectFailed];
      }
      connects := connects + 1;
    }

    /** `__close__` */
    method Close()
      requires Valid()
      modifies this
      ensures Valid()
      ensures State() == Disconnect(old(State()))
    {
      conn := None;
    }

    /** One call `self.conn.<op>(...)`; raises NoConnection when the connection is None. */
    method Invoke(op: Op) returns (reply: Reply)
      requires Valid()
      modifies this
      ensures Valid()
      ensures Step(reply, State()) == Send(old(State()), script, op)
    {
      SendKeepsValid(State(), Target(), script, op);
      match conn {
        case None =>
          reply := Raised(NoConnection);
          trace := trace + [Unconnected(op)];
        case Some(h) =>
          reply := script.reply(requests);
          requests := requests + 1;
          trace := trace + [Request(h, op, reply)];
      }
    }

    /** `bucket_exists` */
    method BucketExists() returns (r: Result<bool, Error>)
      requires Valid()
      modifies this
      ensures Valid()
      ensures (r, State()) == OssBackend.BucketExists(old(State()), script)
    {
      var reply := Invoke(GetBucketInfo);
      match reply {
        case Returned(_) => r := Ok(true);
        case Raised(NoSuchBucket) => r := Ok(false);
        case Raised(e) => r := Err(e);
      }
    }

    /** `health`: write the probe payload under the prefix alone; no retry, errors raised. */
    method Health() returns (r: Result<Value, Error>)
      requires Valid()
      modifies this
      ensures Valid()
      ensures var st := Send(old(State()), script, PutObject(HealthKey(prefixPath), HealthPayload));
        State() == st.world && r == AsResult(st.reply)
    {
      var fnm := HealthKey(prefixPath);
      var reply := Invoke(PutObject(fnm, HealthPayload));
      r := AsResult(reply);
    }

    /** `get_properties`: a stub. */
    method GetProperties(hint: Option<string>, key: string) returns (r: map<string, string>)
      ensures r == map[]
    {
      r := map[];
    }

    /** `list`: a stub. */
    method List(hint: Option<string>, dir: string, recursive: bool := true) returns (r: seq<string>)
      ensures r == []
    {
      r := [];
    }

    /** The loop shared by `put`, `get` and `get_presigned_url`: try, and reopen after each failure. */
    method Attempt(op: Op, attempts: nat) returns (r: Option<Value>)
      requires Valid()
      modifies this
      ensures Valid()
      ensures Outcome(r, State()) == Retry(old(State()), Target(), script, op, attempts)
    {
      for i := 0 to attempts
        invariant Valid()
        invariant Retry(old(State()), Target(), script, op, attempts) ==
                  Retry(State(), Target(), script, op, attempts - i)
      {
        RetryUnfold(State(), Target(), script, op, attempts - i);
        var reply := Invoke(op);
        if reply.Returned? {
          return Some(reply.value);
        }
        Open();
      }
      return None;
    }

    /** `put`: one attempt under the effective key. */
    method Put(hint: Option<string>, fnm: string, binary: seq<Byte>) returns (r: Option<Value>)
      requires Valid()
      modifies this
      ensures Valid()
      ensures Outcome(r, State()) ==
        Retry(old(State()), Target(), script, PutObject(EffectiveKey(prefixPath, hint, fnm), binary), PutAttempts)
    {
      var key := EffectiveKey(prefixPath, hint, fnm);
      r := Attempt(PutObject(key, binary), PutAttempts);
    }

    /** `rm`: one attempt under the effective key; every error is swallowed. */
    method Rm(hint: Option<string>, fnm: string)
      requires Valid()
      modifies this
      ensures Valid()
      ensures State() == Send(old(State()), script, DeleteObject(EffectiveKey(prefixPath, hint, fnm))).world
    {
      var key := EffectiveKey(prefixPath, hint, fnm);
      var ignored := Invoke(DeleteObject(key));
    }

    /** `get`: one attempt under the effective key. */
    method Get(hint: Option<string>, fnm: string) returns (r: Option<Value>)
      requires Valid()
      modifies this
      ensures Valid()
      ensures Outcome(r, State()) ==
        Retry(old(State()), Target(), script, GetObject(EffectiveKey(prefixPath, hint, fnm)), GetAttempts)
    {
      var key := EffectiveKey(prefixPath, hint, fnm);
      r := Attempt(GetObject(key), GetAttempts);
    }

    /** `obj_exist`: one call under the effective key; errors are raised. */
    method ObjExist(hint: Option<string>, fnm: string) returns (r: Result<Value, Error>)
      requires Valid()
      modifies this
      ensures Valid()
      ensures var st := Send(old(State()), script, ObjectExists(EffectiveKey(prefixPath, hint, fnm)));
        State() == st.world && r == AsResult(st.reply)
    {
      var key := EffectiveKey(prefixPath, hint, fnm);
      var reply := Invoke(ObjectExists(key));
      r := AsResult(reply);
    }

    /** `get_presigned_url`: up to ten attempts to sign a GET URL for the effective key. */
    method GetPresignedUrl(hint: Option<string>, fnm: string, expires: int) returns (r: Option<Value>)
      requires Valid()
      modifies this
      ensures Valid()
      ensures Outcome(r, State()) ==
        Retry(old(State()), Target(), script, SignUrl("GET", EffectiveKey(prefixPath, hint, fnm), expires, true), PresignAttempts)
    {
      var key := EffectiveKey(prefixPath, hint, fnm);
      r := Attempt(SignUrl("GET", key, expires, true), PresignAttempts);
    }
  }
}
