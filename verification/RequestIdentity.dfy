/** Idempotency keys and request fingerprints (request_identity.py). */
module RequestIdentity {
  import opened Basics
  import opened Models

  const MAX_KEY_LENGTH := 200

  /** What `str.strip` takes for whitespace. */
  predicate IsSpace(c: char) {
    || c == ' ' || '\t' <= c <= '\r' || '\U{1C}' <= c <= '\U{1F}' || c == '\U{85}' || c == '\U{A0}' || c == '\U{1680}'
    || '\U{2000}' <= c <= '\U{200A}' || c == '\U{2028}' || c == '\U{2029}' || c == '\U{202F}' || c == '\U{205F}'
    || c == '\U{3000}'
  }

  /** The code points of whitespace. */
  const SPACES: set<int> :=
    {9, 10, 11, 12, 13, 28, 29, 30, 31, 32, 133, 160, 5760, 8192, 8193, 8194, 8195, 8196, 8197, 8198, 8199, 8200, 8201,
     8202, 8232, 8233, 8239, 8287, 12288}

  lemma {:induction false} SpaceByCodePoint(c: char)
    ensures IsSpace(c) <==> c as int in SPACES
  {
  }

  predicate AllSpace(s: string) {
    forall k :: 0 <= k < |s| ==> IsSpace(s[k])
  }

  function StripLeft(s: string): (r: string)
    ensures |r| <= |s| && r == s[|s| - |r|..] && AllSpace(s[..|s| - |r|])
    ensures r == [] || !IsSpace(r[0])
  {
    if s != [] && IsSpace(s[0]) then
      var r := StripLeft(s[1..]);
      assert s[..|s| - |r|] == [s[0]] + s[1..][..|s| - 1 - |r|];
      r
    else s
  }

  function StripRight(s: string): (r: string)
    ensures r <= s && AllSpace(s[|r|..])
    ensures r == [] || !IsSpace(r[|r| - 1])
  {
    if s != [] && IsSpace(s[|s| - 1]) then
      var r := StripRight(s[..|s| - 1]);
      assert s[|r|..] == s[..|s| - 1][|r|..] + [s[|s| - 1]];
      r
    else s
  }

  function Strip(s: string): (r: string)
    ensures |r| <= |s|
    ensures r == [] || (!IsSpace(r[0]) && !IsSpace(r[|r| - 1]))
  {
    var left := StripLeft(s);
    var r := StripRight(left);
    assert r != [] ==> r[0] == left[0];
    r
  }

  /** Stripping cuts away the whitespace at both ends and nothing else. */
  lemma {:induction false} StripTrims(s: string) returns (n: nat)
    ensures n + |Strip(s)| <= |s| && Strip(s) == s[n..n + |Strip(s)|]
    ensures AllSpace(s[..n]) && AllSpace(s[n + |Strip(s)|..])
  {
    hide IsSpace, StripLeft, StripRight, AllSpace;
    var left, r := StripLeft(s), Strip(s);
    n := |s| - |left|;
    assert s[n..][..|r|] == s[n..n + |r|];
    assert s[n..][|r|..] == s[n + |r|..];
  }

  /** Stripping again changes nothing. */
  lemma {:induction false} StripIsIdempotent(s: string)
    ensures Strip(Strip(s)) == Strip(s)
  {
    hide IsSpace, Strip;
    var r := Strip(s);
    var n := StripTrims(r);
  }

  function NormalizedKey(raw: Option<string>): Result<Option<string>> {
    var stripped := if raw.Some? then Strip(raw.value) else "";
    if stripped == [] then Ok(None)
    else if |stripped| > MAX_KEY_LENGTH then Raised(WorkflowError(KeyTooLong))
    else Ok(Some(stripped))
  }

  /** A key that is in use is never blank or over-long, and using it again as it was
      stored names the same request. */
  lemma {:induction false} NormalizedKeyIsStable(raw: Option<string>)
    ensures NormalizedKey(raw).Ok? && NormalizedKey(raw).value.Some? ==>
              && 0 < |NormalizedKey(raw).value.value| <= 200
              && NormalizedKey(NormalizedKey(raw).value) == NormalizedKey(raw)
    ensures NormalizedKey(raw).Raised? <==> raw.Some? && |Strip(raw.value)| > 200
  {
    if raw.Some? {
      StripIsIdempotent(raw.value);
    }
  }
}
