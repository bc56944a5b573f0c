/** The credential cache of the cloud client, on a clock of nanoseconds. */
module Credentials {
  import opened Types

  const SECOND: int := 1_000_000_000
  const MAX_CACHE_AGE: int := 600 * SECOND
  const MIN_REFRESH_LATENCY: int := 60 * SECOND

  const MIN_INT64: int := -0x8000_0000_0000_0000
  const MAX_INT64: int := 0x7FFF_FFFF_FFFF_FFFF
  const TWO_53: int := 0x20_0000_0000_0000

  predicate IsInt64(n: int) { MIN_INT64 <= n <= MAX_INT64 }

  // ---------------------------------------------------------------- durations

  /** time.Time.Sub: the difference, saturated to a 64-bit duration. */
  function Sub(t: int, u: int): (d: int)
    ensures IsInt64(d)
    ensures IsInt64(t - u) ==> d == t - u
  {
    if t - u > MAX_INT64 then MAX_INT64 else if t - u < MIN_INT64 then MIN_INT64 else t - u
  }

  /** The distance between neighbouring doubles at magnitude m, at least 1. */
  function Ulp(m: nat): (u: nat)
    ensures u > 0
    ensures m < TWO_53 * u
    ensures u == 1 || m >= TWO_53 * (u / 2)
    ensures u == 1 || u % 2 == 0
  {
    if m < TWO_53 then 1
    else
      var h := Ulp(m / 2);
      assert h % 2 == 0 ==> TWO_53 * h == 2 * (TWO_53 * (h / 2));
      assert (2 * h) / 2 == h;
      2 * h
  }

  function NearestEven(m: nat, u: nat): nat
    requires u > 0
  {
    var q, r := m / u, m % u;
    if 2 * r < u || (2 * r == u && q % 2 == 0) then q * u else (q + 1) * u
  }

  /** float64(n): the nearest double, ties to even (section 4.3.1 of IEEE 754-2019). */
  function ToFloat(n: int): int {
    if n >= 0 then NearestEven(n, Ulp(n)) else -(NearestEven(-n, Ulp(-n)) as int)
  }

  /** time.Duration(x * 0.5) for a whole double x: halving is exact, the conversion truncates. */
  function HalfTruncated(x: int): int {
    if x >= 0 then x / 2 else -((-x) / 2)
  }

  lemma NearestIsNear(m: nat, u: nat)
    requires u > 0
    ensures var x: int := NearestEven(m, u); 2 * (x - m) <= u && 2 * (m - x) <= u
  {
    var q, r := m / u, m % u;
    assert m == q * u + r;
    assert (q + 1) * u == q * u + u;
  }

  /** Conversion is exact up to 2^53; beyond it the result is at most half a spacing away, and does not
      fall below 2^53. */
  lemma Rounding(n: int)
    ensures -TWO_53 <= n <= TWO_53 ==> ToFloat(n) == n
    ensures n > TWO_53 ==> ToFloat(n) >= TWO_53 && 2 * (ToFloat(n) - n) <= Ulp(n) && 2 * (n - ToFloat(n)) <= Ulp(n)
    ensures ToFloat(-n) == -ToFloat(n)
  {
    var m := if n >= 0 then n else -n;
    NearestIsNear(m, Ulp(m));
    if m == TWO_53 {
      assert Ulp(m / 2) == 1;
      assert Ulp(m) == 2;
    }
    if m > TWO_53 { AtLeast(m, Ulp(m)); }
  }

  /** Rounding to a spacing that divides 2^53 does not cross 2^53. */
  lemma AtLeast(m: nat, u: nat)
    requires m > TWO_53 && u == Ulp(m)
    ensures NearestEven(m, u) >= TWO_53
  {
    var h := u / 2;
    assert u == 2 * h && h >= 1;
    assert (TWO_53 / 2) * u == TWO_53 * h;
    Quotient(m, u, TWO_53 / 2);
    Scale(m / u, TWO_53 / 2, u);
    assert (m / u + 1) * u == (m / u) * u + u;
  }

  lemma Quotient(m: nat, u: nat, k: nat)
    requires u > 0 && m >= k * u
    ensures m / u >= k
  {
    assert m == (m / u) * u + m % u;
    assert (m / u + 1) * u == (m / u) * u + u;
    if m / u < k { Scale(k, m / u + 1, u); }
  }

  lemma Scale(a: nat, b: nat, u: nat)
    requires a >= b
    ensures a * u >= b * u
  {
    assert a * u == b * u + (a - b) * u;
  }

  // ---------------------------------------------------------------- when to refresh

  /** One answer of the metadata service that parsed, with the time it was received. */
  datatype Creds = Creds(accessKey: string, secretKey: string, securityToken: string, fetchedAt: int, expiresAt: int)

  function Max(a: int, b: int): int { if a > b then a else b }

  predicate NeedsRefresh(c: Creds, now: int) {
    var age := Sub(now, c.fetchedAt);
    if age > MAX_CACHE_AGE then true
    else age >= Max(HalfTruncated(ToFloat(Sub(c.expiresAt, c.fetchedAt))), MIN_REFRESH_LATENCY)
  }

  predicate IsExpired(c: Creds, now: int) { !(now < c.expiresAt) }

  function TtlOf(c: Creds): int { c.expiresAt - c.fetchedAt }

  /** Going through floating point does not matter: for every pair of 64-bit durations the decision is
      that of exact integers, although float64 rounds beyond 2^53 ns. */
  lemma FloatIsHarmless(ttl: int, age: int)
    requires IsInt64(ttl) && IsInt64(age)
    ensures (age > MAX_CACHE_AGE || age >= Max(HalfTruncated(ToFloat(ttl)), MIN_REFRESH_LATENCY)) <==>
            (age > MAX_CACHE_AGE || age >= Max(ttl / 2, MIN_REFRESH_LATENCY))
  {
    Rounding(ttl);
    Rounding(-ttl);
  }

  /** Nor does saturation: cached credentials are kept exactly while they are at most ten minutes old and
      younger than half their life or sixty seconds, whichever is more, whatever the two times are. */
  lemma KeptExactly(c: Creds, now: int)
    ensures var age := now - c.fetchedAt;
            !NeedsRefresh(c, now) <==>
              age <= 600_000_000_000 && (age < 60_000_000_000 || age < (c.expiresAt - c.fetchedAt) / 2)
  {
    FloatIsHarmless(Sub(c.expiresAt, c.fetchedAt), Sub(now, c.fetchedAt));
  }

  /** Credentials can be kept past their expiry exactly when they live for less than sixty seconds. */
  lemma KeptPastExpiry(c: Creds)
    ensures (exists now :: !NeedsRefresh(c, now) && now >= c.expiresAt) <==> c.expiresAt - c.fetchedAt < 60_000_000_000
  {
    hide NeedsRefresh;
    if TtlOf(c) < MIN_REFRESH_LATENCY {
      var now := Max(c.expiresAt, c.fetchedAt);
      KeptExactly(c, now);
      assert !NeedsRefresh(c, now) && now >= c.expiresAt;
    } else {
      forall now | !NeedsRefresh(c, now) ensures now < c.expiresAt {
        KeptExactly(c, now);
      }
    }
  }

  // ---------------------------------------------------------------- Get

  /** What the metadata service answers: nothing usable, or a payload whose expiry may not parse. */
  datatype Answer = Unreachable | Payload(access: string, secret: string, token: string, expiry: Option<int>, receivedAt: int)

  datatype FetchError = NoAnswer | MissingKeys | BadExpiry

  datatype Fetched = Fresh(creds: Creds) | Failed(err: FetchError)

  function Fetch(a: Answer): Fetched {
    match a
    case Unreachable => Failed(NoAnswer)
    case Payload(access, secret, token, expiry, at) =>
      if access == "" || secret == "" then Failed(MissingKeys)
      else if expiry == None then Failed(BadExpiry)
      else Fresh(Creds(access, secret, token, at, expiry.value))
  }

  /** The credentials and the error that Get returns; with a fallback there are both. */
  datatype Got = Got(creds: Option<Creds>, err: Option<FetchError>)

  function GetResult(cache: Option<Creds>, now: int, a: Answer): Got {
    if cache.Some? && !NeedsRefresh(cache.value, now) then Got(cache, None)
    else
      match Fetch(a)
      case Fresh(c) => Got(Some(c), None)
      case Failed(e) => if cache.Some? && !IsExpired(cache.value, now) then Got(cache, Some(e)) else Got(None, Some(e))
  }

  predicate Refreshes(cache: Option<Creds>, now: int, a: Answer) {
    (cache.Some? ==> NeedsRefresh(cache.value, now)) && Fetch(a).Fresh?
  }

  function CacheAfterGet(cache: Option<Creds>, now: int, a: Answer): Option<Creds> {
    if Refreshes(cache, now, a) then Some(Fetch(a).creds) else cache
  }

  /** What Get does, on plain values: fresh enough credentials are handed out as they are; else a usable
      payload is handed out and cached; else the error comes alone, or with the cached credentials while
      those are not expired. */
  lemma GetExactly(cache: Option<Creds>, now: int, a: Answer)
    ensures var g, after := GetResult(cache, now, a), CacheAfterGet(cache, now, a);
            var kept := cache.Some? && now - cache.value.fetchedAt <= 600_000_000_000 &&
                        (now - cache.value.fetchedAt < 60_000_000_000 ||
                         now - cache.value.fetchedAt < (cache.value.expiresAt - cache.value.fetchedAt) / 2);
            var usable := a.Payload? && a.access != "" && a.secret != "" && a.expiry.Some?;
            && (kept ==> g == Got(cache, None) && after == cache)
            && (!kept && usable ==>
                  after == Some(Creds(a.access, a.secret, a.token, a.receivedAt, a.expiry.value)) && g == Got(after, None))
            && (!kept && !usable ==>
                  && after == cache
                  && g.creds == (if cache.Some? && now < cache.value.expiresAt then cache else None)
                  && g.err == Some(if a.Unreachable? then NoAnswer
                                   else if a.access == "" || a.secret == "" then MissingKeys else BadExpiry))
  {
    hide NeedsRefresh;
    if cache.Some? { KeptExactly(cache.value, now); }
  }

  class PodAgencyProvider {
    var cache: Option<Creds>

    constructor ()
      ensures cache == None
    {
      cache := None;
    }

    /** `a` is what the metadata service would answer if it is asked. */
    method Get(now: int, a: Answer) returns (g: Got)
      modifies this
      ensures g == GetResult(old(cache), now, a)
      ensures cache == CacheAfterGet(old(cache), now, a)
    {
      hide NeedsRefresh;
      if cache.Some? && !NeedsRefresh(cache.value, now) {
        return Got(cache, None);
      }
      match Fetch(a) {
        case Failed(e) =>
          if cache.Some? && !IsExpired(cache.value, now) {
            return Got(cache, Some(e));
          }
          return Got(None, Some(e));
        case Fresh(c) =>
          cache := Some(c);
          return Got(Some(c), None);
      }
    }

    method Reset()
      modifies this
      ensures cache == None
    {
      cache := None;
    }
  }

  // ---------------------------------------------------------------- runs

  datatype Event = Asked(now: int, answer: Answer) | WasReset

  /** The cache after a sequence of events. */
  ghost function CacheAfter(es: seq<Event>): Option<Creds> {
    if es == [] then None
    else
      match es[|es| - 1]
      case WasReset => None
      case Asked(now, a) => CacheAfterGet(CacheAfter(es[..|es| - 1]), now, a)
  }

  /** An answer is received after the time that Get captured, and lives for sixty seconds at least. */
  ghost predicate Decent(e: Event) {
    e.Asked? && Fetch(e.answer).Fresh? ==>
      e.now <= e.answer.receivedAt && TtlOf(Fetch(e.answer).creds) >= 60_000_000_000
  }

  ghost function ResultAt(es: seq<Event>, i: nat): Got
    requires i < |es| && es[i].Asked?
  {
    GetResult(CacheAfter(es[..i]), es[i].now, es[i].answer)
  }

  lemma {:induction false} CacheIsDecent(es: seq<Event>)
    requires forall e | e in es :: Decent(e)
    ensures CacheAfter(es).Some? ==> TtlOf(CacheAfter(es).value) >= 60_000_000_000
  {
    hide NeedsRefresh;
    if es != [] {
      CacheIsDecent(es[..|es| - 1]);
      assert Decent(es[|es| - 1]);
    }
  }

  /** Over every run in which the service hands out credentials that live for sixty seconds at least, no
      Get returns credentials that are expired at the time it captured. */
  lemma NeverExpired(es: seq<Event>, i: nat)
    requires i < |es| && es[i].Asked? && forall e | e in es :: Decent(e)
    ensures var g := ResultAt(es, i); g.creds.Some? ==> es[i].now < g.creds.value.expiresAt
  {
    hide NeedsRefresh;
    CacheIsDecent(es[..i]);
    assert Decent(es[i]);
    var cache := CacheAfter(es[..i]);
    if cache.Some? { KeptExactly(cache.value, es[i].now); }
  }

  /** The fallback never hands out expired credentials, and Get hands out none at all exactly when the
      service fails and the cache is empty or expired and due. */
  lemma Fallback(es: seq<Event>, i: nat)
    requires i < |es| && es[i].Asked?
    ensures var g, cache, now := ResultAt(es, i), CacheAfter(es[..i]), es[i].now;
            && (g.creds.Some? && g.err.Some? ==> g.creds == cache && now < g.creds.value.expiresAt)
            && (g.creds.None? <==>
                  (Fetch(es[i].answer).Failed? &&
                   (cache.None? || (NeedsRefresh(cache.value, now) && now >= cache.value.expiresAt))))
  {
    hide NeedsRefresh;
  }

  ghost predicate RefreshedAt(es: seq<Event>, i: nat) {
    i < |es| && es[i].Asked? && Refreshes(CacheAfter(es[..i]), es[i].now, es[i].answer)
  }

  /** After a refresh and until a reset, the cache holds credentials at least as recent. */
  lemma {:induction false} Younger(es: seq<Event>, i: nat, n: nat)
    requires RefreshedAt(es, i) && i < n <= |es|
    requires forall k | i < k < n :: es[k].Asked? && (Fetch(es[k].answer).Fresh? ==> es[k].now <= es[k].answer.receivedAt)
    ensures var c := CacheAfter(es[..n]); c.Some? && c.value.fetchedAt >= es[i].answer.receivedAt
  {
    hide NeedsRefresh;
    assert es[..n][..n - 1] == es[..n - 1];
    if n > i + 1 {
      Younger(es, i, n - 1);
      var c := CacheAfter(es[..n - 1]);
      KeptExactly(c.value, es[n - 1].now);
    }
  }

  /** Between resets, refreshes are sixty seconds apart. */
  lemma RefreshesAreSpaced(es: seq<Event>, i: nat, j: nat)
    requires i < j && RefreshedAt(es, i) && RefreshedAt(es, j)
    requires forall k | i < k <= j :: es[k].Asked? && (Fetch(es[k].answer).Fresh? ==> es[k].now <= es[k].answer.receivedAt)
    ensures es[j].answer.receivedAt >= es[i].answer.receivedAt + 60_000_000_000
  {
    hide NeedsRefresh;
    Younger(es, i, j);
    KeptExactly(CacheAfter(es[..j]).value, es[j].now);
  }

  // ---------------------------------------------------------------- the SDK client

  datatype SdkError = NoCredentials(err: FetchError) | CannotBuild

  datatype Built = Built(sdk: Creds) | NotBuilt(err: SdkError)

  function KeyOf(c: Option<Creds>): string { if c.Some? then c.value.accessKey else "" }

  /** The SDK client that a call gets, represented by the credentials that it was built from. */
  function EnsureResult(sdk: Option<Creds>, cache: Option<Creds>, now: int, a: Answer, builds: bool): Built {
    var g := GetResult(cache, now, a);
    if g.creds.None? then NotBuilt(NoCredentials(if g.err.Some? then g.err.value else NoAnswer))
    else if sdk.Some? then Built(sdk.value)
    else if builds then Built(g.creds.value)
    else NotBuilt(CannotBuild)
  }

  /** The cloud client: with static keys it has no provider and a client from the start. */
  class Client {
    const podAgency: PodAgencyProvider?
    var sdk: Option<Creds>

    ghost predicate Valid() reads this { podAgency == null ==> sdk.Some? }

    constructor Static(keys: Creds)
      ensures podAgency == null && sdk == Some(keys) && Valid()
    {
      podAgency := null;
      sdk := Some(keys);
    }

    constructor PodAgency(provider: PodAgencyProvider)
      ensures podAgency == provider && sdk == None && Valid()
    {
      podAgency := provider;
      sdk := None;
    }

    /** `builds` says whether the SDK accepts the credentials when it is asked to build a client. */
    method EnsureSdk(now: int, a: Answer, builds: bool) returns (r: Built)
      requires Valid()
      modifies this, podAgency
      ensures Valid()
      ensures podAgency == null ==> sdk == old(sdk) && r == Built(sdk.value)
      ensures podAgency != null ==>
                && r == EnsureResult(old(sdk), old(podAgency.cache), now, a, builds)
                && sdk == (if r.Built? then Some(r.sdk) else old(sdk))
                && podAgency.cache == CacheAfterGet(old(podAgency.cache), now, a)
    {
      hide NeedsRefresh;
      if podAgency == null {
        return Built(sdk.value);
      }
      var g := podAgency.Get(now, a);
      if g.err.Some? && g.creds.None? {
        return NotBuilt(NoCredentials(g.err.value));
      }
      if sdk.None? || podAgency.cache.None? || podAgency.cache.value.accessKey != KeyOf(g.creds) {
        if !builds {
          return NotBuilt(CannotBuild);
        }
        sdk := g.creds;
      }
      return Built(sdk.value);
    }
  }

  /** A call on the client: a Get with whatever building a client then gives. */
  datatype Use = Use(now: int, answer: Answer, builds: bool)

  ghost function CacheAfterUses(us: seq<Use>): Option<Creds> {
    if us == [] then None
    else var u := us[|us| - 1]; CacheAfterGet(CacheAfterUses(us[..|us| - 1]), u.now, u.answer)
  }

  ghost function SdkAfter(us: seq<Use>): Option<Creds> {
    if us == [] then None
    else
      var before, u := us[..|us| - 1], us[|us| - 1];
      var r := EnsureResult(SdkAfter(before), CacheAfterUses(before), u.now, u.answer, u.builds);
      if r.Built? then Some(r.sdk) else SdkAfter(before)
  }

  /** The client is built once, from the credentials of the first use that succeeds, and never again,
      however often the credentials are refreshed afterwards. */
  lemma {:induction false} BuiltOnce(us: seq<Use>, i: nat, n: nat)
    requires i <= n <= |us| && SdkAfter(us[..i]).Some?
    ensures SdkAfter(us[..n]) == SdkAfter(us[..i])
  {
    hide NeedsRefresh;
    if i < n {
      BuiltOnce(us, i, n - 1);
      assert us[..n][..n - 1] == us[..n - 1];
    }
  }

  /** So a use hands out a client with the current key exactly when the key never changed since. */
  lemma SdkIsCurrent(us: seq<Use>, i: nat, n: nat)
    requires i <= n < |us| && SdkAfter(us[..i]).Some?
    ensures var u := us[n];
            var r, g := EnsureResult(SdkAfter(us[..n]), CacheAfterUses(us[..n]), u.now, u.answer, u.builds),
                        GetResult(CacheAfterUses(us[..n]), u.now, u.answer);
            && (r.Built? <==> g.creds.Some?)
            && (r.Built? ==> (r.sdk.accessKey == g.creds.value.accessKey <==> SdkAfter(us[..i]).value.accessKey == g.creds.value.accessKey))
  {
    hide NeedsRefresh;
    BuiltOnce(us, i, n);
  }

  const EARLIER: Use := Use(0, Payload("first", "secret", "token", Some(3600 * SECOND), 0), true)

  const LATER: Use := Use(1800 * SECOND, Payload("second", "secret", "token", Some(5400 * SECOND), 1800 * SECOND), true)

  /** Two uses half an hour apart, with credentials that live for an hour and a key that changes: the
      second refreshes the cache, and hands out the client with the first key. */
  lemma RefreshedNotRebuilt()
    ensures var us := [EARLIER, LATER];
            && SdkAfter(us).Some? && SdkAfter(us).value.accessKey == "first"
            && CacheAfterUses(us).Some? && CacheAfterUses(us).value.accessKey == "second"
            && EnsureResult(SdkAfter(us[..1]), CacheAfterUses(us[..1]), LATER.now, LATER.answer, true) == Built(SdkAfter(us).value)
  {
    hide NeedsRefresh;
    var us := [EARLIER, LATER];
    assert us[..1] == [EARLIER] && [EARLIER][..0] == [];
    assert CacheAfterUses([]) == None && SdkAfter([]) == None;
    assert SdkAfter(us[..1]) == Some(Fetch(EARLIER.answer).creds);
    assert CacheAfterUses(us[..1]) == Some(Fetch(EARLIER.answer).creds);
    KeptExactly(Fetch(EARLIER.answer).creds, LATER.now);
  }
}
