/** The storage-facing helpers of mood-atlas/src/utils/security.ts: the per-minute rate
    limiter, the developer-token shape check, clearing the stored user data, the consent
    flag and the anonymiser. The browser's sessionStorage and localStorage are key-to-string
    maps; the clock, the base64/JSON header decoding and the SHA-256 digest are parameters. */
module Security {
  import opened Js
  import opened Text

  type Store = map<string, string>

  const StorageKey: string := "moodAtlas_encrypted_data"
  const TokenKey: string := "moodAtlas_auth_token"
  const RateLimitKey: string := "moodAtlas_rate_limit"
  const MaxCallsPerMinute: int := 60
  const ConsentKey: string := "moodAtlas_user_consent"
  const Placeholder: string := "your_developer_token_here"

  // ---------------------------------------------------------------------------
  // rate limiting

  /** The counter key of minute `minute`. */
  function RateKey(minute: nat): string
  {
    RateLimitKey + "_" + NatToString(minute)
  }

  lemma RateKeyInjective(m: nat, n: nat)
    requires RateKey(m) == RateKey(n)
    ensures m == n
  {
    var p := RateLimitKey + "_";
    assert NatToString(m) == RateKey(m)[|p|..];
    assert NatToString(n) == RateKey(n)[|p|..];
    NatToStringInjective(m, n);
  }

  /** `parseInt(sessionStorage.getItem(key) || '0')` for the counter of `minute`; `None` is NaN. */
  function Calls(session: Store, minute: nat): Option<int>
  {
    var key := RateKey(minute);
    ParseInt(if key in session && session[key] != "" then session[key] else "0")
  }

  /** A counter that was never written reads as zero. */
  lemma MissingCounterIsZero(session: Store, minute: nat)
    requires RateKey(minute) !in session
    ensures Calls(session, minute) == Some(0)
  {
    ParseIntOfNatToString(0);
  }

  /** One `checkRateLimit()` at time `now` (milliseconds): whether the call is allowed,
      and the session store afterwards. A count of 60 or more refuses the call and writes
      nothing; a smaller count is written back one higher; an unreadable count (NaN) is
      never at the limit, and `(NaN + 1).toString()` is written back. */
  function RateLimit(session: Store, now: nat): (r: (bool, Store))
    ensures !r.0 ==> r.1 == session
    ensures r.1.Keys == session.Keys || r.1.Keys == session.Keys + {RateKey(now / 60000)}
    ensures forall k :: k in session && k != RateKey(now / 60000) ==> r.1[k] == session[k]
  {
    var minute := now / 60000;
    match Calls(session, minute)
    case None => (true, session[RateKey(minute) := "NaN"])
    case Some(calls) =>
      if calls >= MaxCallsPerMinute then (false, session)
      else (true, session[RateKey(minute) := IntToString(calls + 1)])
  }

  /** A call is refused exactly when its minute's count has reached 60; an allowed call
      raises that count by one. */
  lemma RateLimitCounts(session: Store, now: nat)
    ensures var c := Calls(session, now / 60000);
            !RateLimit(session, now).0 <==> c.Some? && c.value >= MaxCallsPerMinute
    ensures var c := Calls(session, now / 60000);
            c.Some? && 0 <= c.value < MaxCallsPerMinute ==> Calls(RateLimit(session, now).1, now / 60000) == Some(c.value + 1)
  {
    var c := Calls(session, now / 60000);
    if c.Some? && 0 <= c.value < MaxCallsPerMinute {
      ParseIntOfNatToString(c.value + 1);
    }
  }

  /** Minutes are independent: a call never changes another minute's count. */
  lemma OtherMinutesUntouched(session: Store, now: nat, minute: nat)
    requires minute != now / 60000
    ensures Calls(RateLimit(session, now).1, minute) == Calls(session, minute)
  {
    if RateKey(minute) == RateKey(now / 60000) {
      RateKeyInjective(minute, now / 60000);
    }
  }

  /** Once a count is unreadable every call of that minute is allowed and it stays
      unreadable: the limiter then never refuses. */
  lemma UnreadableCountNeverLimits(session: Store, now: nat)
    requires Calls(session, now / 60000).None?
    ensures RateLimit(session, now).0
    ensures Calls(RateLimit(session, now).1, now / 60000).None?
  {
    ParseIntOfNaN();
  }

  /** Consecutive calls at the given times: the answers and the final store. */
  function RateLimitRun(session: Store, times: seq<nat>): (r: (seq<bool>, Store))
    ensures |r.0| == |times|
    decreases |times|
  {
    if times == [] then ([], session)
    else
      var step := RateLimit(session, times[0]);
      var rest := RateLimitRun(step.1, times[1..]);
      ([step.0] + rest.0, rest.1)
  }

  /** How many of the answers were "allowed" for calls made in `minute`. */
  function AllowedIn(answers: seq<bool>, times: seq<nat>, minute: nat): (n: nat)
    requires |answers| == |times|
    ensures n <= |times|
  {
    if times == [] then 0
    else (if answers[0] && times[0] / 60000 == minute then 1 else 0) + AllowedIn(answers[1..], times[1..], minute)
  }

  /** At most 60 calls are allowed per minute: a minute whose count starts at `c` lets
      through at most `60 - c` more calls, however the calls of other minutes interleave. */
  lemma {:induction false} AtMostSixtyPerMinute(session: Store, times: seq<nat>, minute: nat, c: nat)
    requires Calls(session, minute) == Some(c) && c <= MaxCallsPerMinute
    ensures var r := RateLimitRun(session, times); AllowedIn(r.0, times, minute) <= MaxCallsPerMinute - c
    decreases |times|
  {
    if times != [] {
      var step := RateLimit(session, times[0]);
      var r := RateLimitRun(session, times);
      assert r.0[1..] == RateLimitRun(step.1, times[1..]).0;
      var counted := step.0 && times[0] / 60000 == minute;
      CallCountStep(session, times[0], minute, c);
      AtMostSixtyPerMinute(step.1, times[1..], minute, if counted then c + 1 else c);
    }
  }

  /** One call raises its minute's count by one when it is allowed and leaves every other
      count as it was, so a count at or below 60 stays at or below 60. */
  lemma CallCountStep(session: Store, now: nat, minute: nat, c: nat)
    requires Calls(session, minute) == Some(c) && c <= MaxCallsPerMinute
    ensures var step := RateLimit(session, now);
            var counted := step.0 && now / 60000 == minute;
            Calls(step.1, minute) == Some(if counted then c + 1 else c)
            && (counted ==> c + 1 <= MaxCallsPerMinute)
  {
    var step := RateLimit(session, now);
    if now / 60000 == minute {
      RateLimitCounts(session, now);
      if step.0 {
        assert c < MaxCallsPerMinute;
        assert Calls(step.1, minute) == Some(c + 1);
      } else {
        assert step.1 == session;
      }
    } else {
      OtherMinutesUntouched(session, now, minute);
      assert Calls(step.1, minute) == Some(c);
    }
  }

  /** In a fresh session no minute allows more than 60 calls. */
  lemma FreshSessionAllowsSixty(times: seq<nat>, minute: nat)
    ensures AllowedIn(RateLimitRun(map[], times).0, times, minute) <= MaxCallsPerMinute
  {
    MissingCounterIsZero(map[], minute);
    AtMostSixtyPerMinute(map[], times, minute, 0);
  }

  // ---------------------------------------------------------------------------
  // developer token

  /** The decoded JWT header: its `typ` and `alg` properties, when present as strings. */
  datatype Header = Header(typ: Option<string>, alg: Option<string>)

  /** What `validateDeveloperToken` returns: `false`, or, once the header says `JWT`, the
      header's `alg` value itself (`typ === 'JWT' && alg`). */
  datatype TokenVerdict = False | Alg(alg: Option<string>)

  /** JavaScript truthiness of the verdict. */
  predicate Truthy(v: TokenVerdict)
  {
    v.Alg? && v.alg.Some? && v.alg.value != ""
  }

  /** `validateDeveloperToken` as written; `decodeHeader` is `JSON.parse(atob(..))`, `None`
      when it throws. */
  function ValidateDeveloperToken(token: string, decodeHeader: string -> Option<Header>): (v: TokenVerdict)
    ensures token == "" || token == Placeholder ==> v == False
    ensures |Split(token, ".")| != 3 ==> v == False
    ensures v != False ==> var h := decodeHeader(Split(token, ".")[0]);
                           h.Some? && h.value.typ == Some("JWT") && v == Alg(h.value.alg)
  {
    if token == "" || token == Placeholder then False
    else
      var parts := Split(token, ".");
      if |parts| != 3 then False
      else match decodeHeader(parts[0])
        case None => False
        case Some(header) => if header.typ == Some("JWT") then Alg(header.alg) else False
  }

  /** The check its signature promises: a boolean. */
  function IsValidDeveloperToken(token: string, decodeHeader: string -> Option<Header>): bool
  {
    token != "" && token != Placeholder && |Split(token, ".")| == 3
    && var h := decodeHeader(Split(token, ".")[0]);
       h.Some? && h.value.typ == Some("JWT") && h.value.alg.Some? && h.value.alg.value != ""
  }

  /** The value returned is truthy exactly when the boolean check holds, so every caller
      that only tests it behaves as intended. */
  lemma TruthyIffValid(token: string, decodeHeader: string -> Option<Header>)
    ensures Truthy(ValidateDeveloperToken(token, decodeHeader)) <==> IsValidDeveloperToken(token, decodeHeader)
  {
  }

  /** A well-formed header makes the function return the algorithm name, not `true`. */
  lemma ReturnsAlgNotBoolean(decodeHeader: string -> Option<Header>)
    requires decodeHeader("h") == Some(Header(Some("JWT"), Some("ES256")))
    ensures ValidateDeveloperToken("h.p.s", decodeHeader) == Alg(Some("ES256"))
  {
    assert FirstOccurrence("s", ".", 0) == None by {
      FirstOccurrenceIffContains("s", ".");
      MissingFirstChar("s", ".");
    }
    assert Split("s", ".") == ["s"];
    assert FirstOccurrence("p.s", ".", 0) == Some(1) by {
      assert OccursAt("p.s", ".", 1);
    }
    assert "p.s"[..1] == "p" && "p.s"[2..] == "s";
    assert Split("p.s", ".") == ["p", "s"];
    assert FirstOccurrence("h.p.s", ".", 0) == Some(1) by {
      assert OccursAt("h.p.s", ".", 1);
    }
    assert "h.p.s"[..1] == "h" && "h.p.s"[2..] == "p.s";
    assert Split("h.p.s", ".") == ["h", "p", "s"];
  }

  // ---------------------------------------------------------------------------
  // anonymisation

  /** A property value of the user record: `undefined`, a string, or the promise that
      the asynchronous `hashString` returns, remembering what it hashes. */
  datatype Value = Undefined | Text(s: string) | HashPromise(input: string)

  predicate TruthyValue(v: Value)
  {
    !v.Undefined? && v != Text("")
  }

  /** `anonymizeUserData` as written: the record is spread, `userToken` and `email` are set
      to `undefined`, and `userId`, when truthy, to `hashString(userId)`, a promise. */
  function AnonymizeUserData(user: map<string, Value>): (r: map<string, Value>)
    ensures r.Keys == user.Keys + {"userToken", "email", "userId"}
    ensures r["userToken"] == Undefined && r["email"] == Undefined
    ensures forall k :: k in user && k !in {"userToken", "email", "userId"} ==> r[k] == user[k]
    ensures "userId" in user && TruthyValue(user["userId"]) <==> r["userId"] != Undefined
  {
    var id := if "userId" in user then user["userId"] else Undefined;
    user["userToken" := Undefined]["email" := Undefined]
        ["userId" := if TruthyValue(id) then HashPromise(if id.Text? then id.s else "") else Undefined]
  }

  /** As written, a present user id is never replaced by a hash string. */
  lemma UserIdBecomesPromise(user: map<string, Value>)
    requires "userId" in user && user["userId"] == Text("u-1")
    ensures AnonymizeUserData(user)["userId"] == HashPromise("u-1")
    ensures !AnonymizeUserData(user)["userId"].Text?
  {
  }

  /** The anonymiser with the digest awaited: `userId` becomes the hash string. */
  function AnonymizeUserDataAwaited(user: map<string, Value>, hash: string -> string): (r: map<string, Value>)
    ensures r.Keys == user.Keys + {"userToken", "email", "userId"}
    ensures r["userToken"] == Undefined && r["email"] == Undefined
    ensures forall k :: k in user && k !in {"userToken", "email", "userId"} ==> r[k] == user[k]
  {
    var id := if "userId" in user then user["userId"] else Undefined;
    user["userToken" := Undefined]["email" := Undefined]
        ["userId" := if id.Text? && id.s != "" then Text(hash(id.s)) else Undefined]
  }

  /** The awaited anonymiser leaves no token, e-mail or raw user id behind (for a digest
      that never maps an id to itself), and keeps the hash of a present id. */
  lemma AwaitedRemovesIdentity(user: map<string, Value>, hash: string -> string)
    requires forall s :: hash(s) != s
    ensures var r := AnonymizeUserDataAwaited(user, hash);
            forall k :: k in r && k in {"userToken", "email", "userId"} ==> r[k] == Undefined || r[k].Text?
    ensures var r := AnonymizeUserDataAwaited(user, hash);
            "userId" in user && user["userId"].Text? && user["userId"].s != ""
            ==> r["userId"] == Text(hash(user["userId"].s)) && r["userId"] != user["userId"]
  {
  }

  // ---------------------------------------------------------------------------
  // stored user data and consent

  /** A store with the library and token entries removed. */
  function WithoutUserData(store: Store): (r: Store)
    ensures StorageKey !in r && TokenKey !in r
    ensures forall k :: k != StorageKey && k != TokenKey ==> (k in r <==> k in store)
    ensures forall k :: k in r ==> r[k] == store[k]
  {
    store - {StorageKey, TokenKey}
  }

  /** Clearing twice is clearing once. */
  lemma WithoutUserDataIdempotent(store: Store)
    ensures WithoutUserData(WithoutUserData(store)) == WithoutUserData(store)
  {
  }

  /** `hasUserConsent()`: the consent entry is the string "true". */
  predicate HasConsent(local: Store)
  {
    ConsentKey in local && local[ConsentKey] == "true"
  }

  /** The store after `setUserConsent(consent)`: `consent.toString()` under the consent key. */
  function WithConsent(local: Store, consent: bool): (r: Store)
    ensures r.Keys == local.Keys + {ConsentKey}
    ensures forall k :: k in local && k != ConsentKey ==> r[k] == local[k]
  {
    local[ConsentKey := if consent then "true" else "false"]
  }

  /** Setting consent and reading it back gives what was set, whatever was stored before. */
  lemma ConsentRoundTrip(local: Store, consent: bool)
    ensures HasConsent(WithConsent(local, consent)) == consent
  {
  }

  /** The two browser stores the manager reads and writes. */
  class BrowserStorage {
    var session: Store
    var local: Store

    constructor(session0: Store, local0: Store)
      ensures session == session0 && local == local0
    {
      session := session0;
      local := local0;
    }

    /** `SecurityManager.checkRateLimit()` at clock reading `now`. */
    method CheckRateLimit(now: nat) returns (allowed: bool)
      modifies this
      ensures (allowed, session) == RateLimit(old(session), now)
      ensures local == old(local)
    {
      var minute := now / 60000;
      var key := RateKey(minute);
      var stored := if key in session && session[key] != "" then session[key] else "0";
      var calls := ParseInt(stored);
      assert calls == Calls(session, minute);
      if calls.Some? && calls.value >= MaxCallsPerMinute {
        return false;
      }
      session := session[key := if calls.Some? then IntToString(calls.value + 1) else "NaN"];
      return true;
    }

    /** `SecurityManager.clearUserData()`: both entries leave both stores. */
    method ClearUserData()
      modifies this
      ensures session == WithoutUserData(old(session)) && local == WithoutUserData(old(local))
    {
      session := session - {StorageKey};
      session := session - {TokenKey};
      local := local - {StorageKey};
      local := local - {TokenKey};
    }

    /** `PrivacyManager.setUserConsent(consent)`. */
    method SetUserConsent(consent: bool)
      modifies this
      ensures local == WithConsent(old(local), consent) && session == old(session)
      ensures HasUserConsent() == consent
    {
      local := local[ConsentKey := if consent then "true" else "false"];
    }

    /** `PrivacyManager.hasUserConsent()`. */
    function HasUserConsent(): bool
      reads this
    {
      HasConsent(local)
    }
  }
}
