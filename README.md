# OSS storage client: a Dafny model

This project models `RAGFlowOSS` in `rag/utils/oss_conn.py`. That class is ragflow's
client for Alibaba Cloud Object Storage Service (OSS). It holds the connection
settings (credentials, endpoint, region, bucket, optional key prefix) and at most
one connection handle. On top of these it offers put, rm, get, obj_exist,
get_presigned_url, health and bucket bootstrap, plus two stubs (list, get_properties).

The model has four modules:

- `Wrappers` (wrappers.dfy) defines `Option` (Python's `None`) and `Result` (a
  return value or a raised exception).
- `ObjectKey` (object_key.dfy) covers key decoration. The `use_prefix_path`
  wrapper turns `(bucket hint, fnm)` into `prefix/bucket/fnm`. A segment is
  dropped when its setting is `None` or `""` (Python truthiness, `Given`). The
  health key puts the prefix alone in front of `health`. `ObjectName` inverts the
  decoration, and the lemmas show the decoration is exact and injective for a
  fixed prefix and hint. Across hints keys do collide: a hint is folded into the
  key text, so hint `h` with name `f` is the same object as no hint with name
  `h/f` (`HintFoldsIntoName`).
- `OssBackend` (backend.dfy) treats the `oss2` SDK as an oracle. A `Script` gives
  the reply to the i-th backend request (a value, or a raised error) and says
  whether the i-th attempt to build an `oss2.Bucket` succeeds. The client's
  state is a `World` value with these parts:
  - the connection (`None` is ABSENT, `Some(handle)` is LIVE);
  - the request counter and the connect counter;
  - a trace of every connect attempt and every call attempt.

  The connection functions `Connect` (`__open__`) and `Disconnect` (`__close__`)
  work on this `World`, as do `Send` (one `self.conn.<op>(...)` call), `Retry`
  (the `for _ in range(n)` reconnect loop), `BucketExists` and `EnsureBucket`. The
  lemmas here prove the connection state machine, the attempt and reopen counts,
  and the shape of the retry loop's trace.
- `OssConn` (client.dfy) holds the class `RagFlowOss`. It has the settings as
  constants and mutable fields `conn`, `requests`, `connects` and `trace`. Every
  method is proved to change the state exactly as its `OssBackend` function says
  (`State() == F(old(State()))`), and to keep `Valid()`: every handle was built
  for the configured target.

Calling a method on a connection that is `None` raises AttributeError in
Python. The model writes that as `Raised(NoConnection)`, without a backend
request. `bucket_exists`, `health` and `obj_exist` pass such errors to their
caller as `Err`. `put` and `get` catch them, reopen once and return None;
`get_presigned_url` retries up to ten times. `rm` and `create_bucket` swallow them.

The decorator hands `self.bucket` to the wrapped method as its `bucket`
argument. The wrapped methods use that argument only in log messages. What the
model checks instead is that every request goes out on a handle built for the
configured bucket (`RequestsUseConfiguredBucket`).

Two of the code's behaviours look odd but are modelled as written:

- `put` and `get` loop over `range(1)`. A failed call reopens the connection and still returns `None`; it never tries again.
- `bucket_exists` raises a missing-connection error. It does not report the bucket as absent.

## Model

| member | source | states |
|---|---|---|
| `ObjectKey.EffectiveKey` | rag/utils/oss_conn.py:50-54 | the effective key ends with `fnm`; it starts with `prefix/` when a prefix is set, otherwise with `bucket/` when a hint is given, and is `fnm` itself when neither is set |
| `ObjectKey.EffectiveKeyCases` | rag/utils/oss_conn.py:52-53 | the key is `prefix/bucket/fnm`, `prefix/fnm`, `bucket/fnm` or `fnm`, one case per combination of set and unset (None or empty) segments |
| `ObjectKey.NameRoundTrip` | rag/utils/oss_conn.py:52-53 | stripping the prefix and bucket segments from an effective key gives back the caller's file name |
| `ObjectKey.NameExact` | rag/utils/oss_conn.py:52-53 | any key from which a file name is recovered is exactly that name's effective key (the converse of the round trip) |
| `ObjectKey.EffectiveKeyInjective` | rag/utils/oss_conn.py:52-53 | with the same prefix and bucket hint, distinct file names never share a key |
| `ObjectKey.HintFoldsIntoName` | rag/utils/oss_conn.py:52-53 | a set bucket hint is not kept apart from the file name: hint `h` with name `f` gives the same key as no hint with name `h/f`, so keys are unique only for a fixed hint |
| `ObjectKey.HealthKey` | rag/utils/oss_conn.py:88-89 | the probe key is `prefix/health`, or `health` with no prefix |
| `ObjectKey.HealthKeyIsUnhintedKey` | rag/utils/oss_conn.py:88-89 | the probe key equals the object key of file name `health` when no bucket hint is given |
| `ObjectKey.HealthKeyApartFromHinted` | rag/utils/oss_conn.py:88-89 | the probe key skips the bucket rule: no key built with a bucket hint equals it |
| `OssBackend.Ascii` | rag/utils/oss_conn.py:89 | the probe payload holds the bytes of `_t@@@1`, one byte per character |
| `OssBackend.ConnectKeepsValid` | rag/utils/oss_conn.py:57-72 | `__open__` keeps the state invariant, counts one connect attempt and appends exactly one reopen event to the trace |
| `OssBackend.OpenTransitions` | rag/utils/oss_conn.py:57-72 | after `__open__` the connection is LIVE exactly when the connect succeeds, with a handle for the configured target never held or used before; otherwise it is ABSENT, whatever the starting state |
| `OssBackend.CloseTransitions` | rag/utils/oss_conn.py:74-76 | after `__close__` the connection is ABSENT; closing twice equals closing once; the trace and both counters are unchanged |
| `OssBackend.SendFacts` | rag/utils/oss_conn.py:133 | one call on the connection leaves the connection and connect count alone and appends one attempt of that operation, whose recorded answer is the call's reply |
| `OssBackend.SendKeepsValid` | rag/utils/oss_conn.py:65-70 | one call keeps every recorded handle bound to the configured target |
| `OssBackend.RequestsUseConfiguredBucket` | rag/utils/oss_conn.py:54 | every request made, and the live handle, use the configured bucket, whatever hint the caller gave |
| `OssBackend.RetryKeepsValid` | rag/utils/oss_conn.py:137-145 | the retry loop keeps the state invariant: every handle it holds or uses was built for the configured target |
| `OssBackend.RetryUnfold` | rag/utils/oss_conn.py:138-144 | one loop turn: a returned value ends the loop with that value; a raised error is followed by one `__open__` and the remaining attempts |
| `OssBackend.RetryCounts` | rag/utils/oss_conn.py:137-145 | the loop only appends to the trace; it makes at least one and at most n attempts, one reopen per failed attempt, all n attempts when it returns None, and the connect count grows by the number of reopens |
| `OssBackend.RetryShape` | rag/utils/oss_conn.py:137-145 | the loop only appends to the trace; in what it appends, attempts and reopens alternate starting with an attempt; every attempt is of the same operation and key; every attempt but a final one failed; the result is the value of the final attempt exactly when it succeeded, so it is the first success |
| `OssBackend.ShapeStep` | rag/utils/oss_conn.py:141-144 | a failed attempt plus its reopen in front of a run of the right shape for n - 1 attempts has the right shape for n |
| `OssBackend.SingleAttempt` | rag/utils/oss_conn.py:102-109 | `put` and `get` make exactly one attempt; they return the backend's value exactly when that attempt succeeded, and otherwise perform exactly one reopen |
| `OssBackend.PresignBound` | rag/utils/oss_conn.py:137-145 | `get_presigned_url` makes between one and ten attempts; after ten failures it returns None having reopened ten times; on success it has reopened once per earlier failure |
| `OssBackend.BucketExistsOutcomes` | rag/utils/oss_conn.py:78-85 | `bucket_exists` is false exactly on NoSuchBucket and true exactly on success; any other error, including a missing connection, is raised unchanged |
| `OssBackend.EnsureBucketOutcomes` | rag/utils/oss_conn.py:37-46 | `create_bucket` changes nothing without a connection and never reconnects; it requests a creation, after the existence check, exactly when the bucket was reported missing |
| `OssConn.RagFlowOss.constructor` | rag/utils/oss_conn.py:25-35 | stores the settings, then the state is that of one `__open__` followed by `create_bucket` from the ABSENT state |
| `OssConn.RagFlowOss.CreateBucket` | rag/utils/oss_conn.py:37-46 | the new state is `EnsureBucket` of the old one; no error escapes |
| `OssConn.RagFlowOss.Open` | rag/utils/oss_conn.py:57-72 | the new state is `Connect` of the old one |
| `OssConn.RagFlowOss.Close` | rag/utils/oss_conn.py:74-76 | the new state is the old one with the connection dropped |
| `OssConn.RagFlowOss.Invoke` | rag/utils/oss_conn.py:133 | reply and new state are those of `Send` |
| `OssConn.RagFlowOss.BucketExists` | rag/utils/oss_conn.py:78-85 | result and new state are those of `OssBackend.BucketExists` |
| `OssConn.RagFlowOss.Health` | rag/utils/oss_conn.py:87-91 | one write of the probe payload to the probe key; the reply is returned or raised; no reopen |
| `OssConn.RagFlowOss.GetProperties` | rag/utils/oss_conn.py:93-94 | always the empty mapping; reads and changes nothing |
| `OssConn.RagFlowOss.List` | rag/utils/oss_conn.py:96-97 | always the empty list; reads and changes nothing |
| `OssConn.RagFlowOss.Attempt` | rag/utils/oss_conn.py:137-145 | result and new state are those of `Retry` with the given bound |
| `OssConn.RagFlowOss.Put` | rag/utils/oss_conn.py:99-109 | `Retry` of a put of the data under the effective key with one attempt |
| `OssConn.RagFlowOss.Rm` | rag/utils/oss_conn.py:111-116 | one delete under the effective key; errors are swallowed; no reopen |
| `OssConn.RagFlowOss.Get` | rag/utils/oss_conn.py:118-129 | `Retry` of a read of the effective key with one attempt |
| `OssConn.RagFlowOss.ObjExist` | rag/utils/oss_conn.py:131-133 | one existence query under the effective key; the backend's answer is returned or its error raised; no retry |
| `OssConn.RagFlowOss.GetPresignedUrl` | rag/utils/oss_conn.py:135-145 | `Retry` of signing a GET URL (slash-safe, given expiry) for the effective key with ten attempts |

## Left out

- What the `oss2` SDK does (`Bucket`, `Auth`, `put_object`, `get_object`, `delete_object`, `object_exists`, `sign_url`, `get_bucket_info`, `create_bucket`). The model treats these as an opaque scripted oracle. So it states no put/get round trip and no "exists is false after rm": those are promises of the service, not of this client.
- Logging, `time.sleep(1)` between attempts, and wrapping payloads in `BytesIO` are left out. They have no logical content here.
- The `@singleton` decorator and loading the settings from `settings.OSS` are left out. Both are process-level and defined elsewhere. The constructor takes the settings as parameters.
- The `__main__` smoke test is left out.
- Concurrent use of one client, and races on `conn`, are not modelled. The source does no locking.
- `__close__` cannot fail, so the model drops the `try/except` around it in `__open__`.
- Any non-string setting is not modelled. Settings and bucket hints are `None` or strings.
