/**
 * Key decoration of the OSS client (rag/utils/oss_conn.py).
 *
 * Every object operation turns the caller's (bucket hint, file name) into the
 * effective object key `prefix/bucket/fnm`, dropping a segment whose setting is
 * `None` or the empty string (Python truthiness). The liveness probe uses the
 * prefix alone in front of the fixed name `health`.
 */
module ObjectKey {
  import opened Wrappers

  /** Python truthiness of an optional string setting: neither `None` nor `""`. */
  predicate Given(seg: Option<string>) {
    seg.Some? && seg.value != ""
  }

  predicate StartsWith(s: string, front: string) {
    |front| <= |s| && s[..|front|] == front
  }

  predicate EndsWith(s: string, back: string) {
    |back| <= |s| && s[|s| - |back|..] == back
  }

  /** `f"{seg}/{name}" if seg else name` */
  function Under(seg: Option<string>, name: string): string {
    if Given(seg) then seg.value + "/" + name else name
  }

  /**
   * The key an object operation hands to the backend: the bucket hint is put in
   * front of the file name first, then the configured prefix in front of that.
   */
  function EffectiveKey(prefixPath: Option<string>, hint: Option<string>, fnm: string): (key: string)
    ensures EndsWith(key, fnm)
    ensures Given(prefixPath) ==> StartsWith(key, prefixPath.value + "/")
    ensures !Given(prefixPath) && Given(hint) ==> StartsWith(key, hint.value + "/")
    ensures !Given(prefixPath) && !Given(hint) ==> key == fnm
  {
    UnderEndsWith(hint, fnm);
    UnderEndsWith(prefixPath, Under(hint, fnm));
    Under(prefixPath, Under(hint, fnm))
  }

  /**
   * The bucket hint is folded into the key text, so it does not keep names apart:
   * hint `h` with name `f` and no hint with name `h/f` address the same object.
   */
  lemma HintFoldsIntoName(prefixPath: Option<string>, hint: Option<string>, fnm: string)
    requires Given(hint)
    ensures EffectiveKey(prefixPath, hint, fnm) == EffectiveKey(prefixPath, None, hint.value + "/" + fnm)
    ensures hint.value != "" && fnm != hint.value + "/" + fnm
  {
  }

  /** The key the liveness probe writes: the prefix alone in front of `health`. */
  function HealthKey(prefixPath: Option<string>): (key: string)
    ensures Given(prefixPath) ==> key == prefixPath.value + "/health"
    ensures !Given(prefixPath) ==> key == "health"
  {
    Under(prefixPath, "health")
  }

  /** Removes one `seg/` segment from the front of `key`, if `seg` is set. */
  function Strip(seg: Option<string>, key: string): Option<string> {
    if !Given(seg) then Some(key)
    else if StartsWith(key, seg.value + "/") then Some(key[|seg.value| + 1..])
    else None
  }

  /** Recovers the caller's file name from an effective key, or None if the key has another shape. */
  function ObjectName(prefixPath: Option<string>, hint: Option<string>, key: string): Option<string> {
    match Strip(prefixPath, key)
    case None => None
    case Some(rest) => Strip(hint, rest)
  }

  lemma UnderEndsWith(seg: Option<string>, name: string)
    ensures EndsWith(Under(seg, name), name)
    ensures Given(seg) ==> StartsWith(Under(seg, name), seg.value + "/")
  {
    if Given(seg) {
      var s := seg.value + "/" + name;
      assert s == (seg.value + "/") + name;
      assert s[|s| - |name|..] == name;
      assert s[..|seg.value| + 1] == seg.value + "/";
    }
  }

  lemma StripUnder(seg: Option<string>, name: string)
    ensures Strip(seg, Under(seg, name)) == Some(name)
  {
    if Given(seg) {
      UnderEndsWith(seg, name);
      var s := seg.value + "/" + name;
      assert s[|seg.value| + 1..] == name;
    }
  }

  lemma UnderStrip(seg: Option<string>, key: string, name: string)
    requires Strip(seg, key) == Some(name)
    ensures Under(seg, name) == key
  {
    if Given(seg) {
      var front := seg.value + "/";
      assert key == key[..|front|] + key[|front|..];
    }
  }

  /** The four shapes of the effective key, one per combination of set and unset segments. */
  lemma EffectiveKeyCases(prefixPath: Option<string>, hint: Option<string>, fnm: string)
    ensures Given(prefixPath) && Given(hint) ==>
      EffectiveKey(prefixPath, hint, fnm) == prefixPath.value + "/" + hint.value + "/" + fnm
    ensures Given(prefixPath) && !Given(hint) ==>
      EffectiveKey(prefixPath, hint, fnm) == prefixPath.value + "/" + fnm
    ensures !Given(prefixPath) && Given(hint) ==>
      EffectiveKey(prefixPath, hint, fnm) == hint.value + "/" + fnm
    ensures !Given(prefixPath) && !Given(hint) ==>
      EffectiveKey(prefixPath, hint, fnm) == fnm
  {
  }

  /** Decorating and then recovering the name gives the caller's file name back. */
  lemma {:induction false} NameRoundTrip(prefixPath: Option<string>, hint: Option<string>, fnm: string)
    ensures ObjectName(prefixPath, hint, EffectiveKey(prefixPath, hint, fnm)) == Some(fnm)
  {
    StripUnder(prefixPath, Under(hint, fnm));
    StripUnder(hint, fnm);
  }

  /** Every key from which a name is recovered is exactly that name's effective key. */
  lemma {:induction false} NameExact(prefixPath: Option<string>, hint: Option<string>, key: string, fnm: string)
    requires ObjectName(prefixPath, hint, key) == Some(fnm)
    ensures EffectiveKey(prefixPath, hint, fnm) == key
  {
    var rest := Strip(prefixPath, key).value;
    UnderStrip(prefixPath, key, rest);
    UnderStrip(hint, rest, fnm);
  }

  /** Under one configuration and one hint, distinct file names get distinct keys. */
  lemma {:induction false} EffectiveKeyInjective(prefixPath: Option<string>, hint: Option<string>, f1: string, f2: string)
    requires EffectiveKey(prefixPath, hint, f1) == EffectiveKey(prefixPath, hint, f2)
    ensures f1 == f2
  {
    NameRoundTrip(prefixPath, hint, f1);
    NameRoundTrip(prefixPath, hint, f2);
  }

  /** Without a bucket hint, the probe's key is the object key of the file name `health`. */
  lemma HealthKeyIsUnhintedKey(prefixPath: Option<string>, hint: Option<string>)
    requires !Given(hint)
    ensures HealthKey(prefixPath) == EffectiveKey(prefixPath, hint, "health")
  {
  }

  /** The probe's key skips the bucket rule: no object key built with a bucket hint equals it. */
  lemma {:induction false} HealthKeyApartFromHinted(prefixPath: Option<string>, hint: Option<string>, fnm: string)
    requires Given(hint)
    ensures EffectiveKey(prefixPath, hint, fnm) != HealthKey(prefixPath)
  {
    var inner := Under(hint, fnm);
    assert inner == hint.value + "/" + fnm;
    assert inner[|hint.value|] == '/';
    assert forall k :: 0 <= k < |"health"| ==> "health"[k] != '/';
    assert inner != "health";
    StripUnder(prefixPath, inner);
    StripUnder(prefixPath, "health");
  }
}
