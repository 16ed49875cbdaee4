/** The origin-admission policy of the backend: the allowlist built from the
    two frontend origins, the `origin` callback handed to the CORS middleware,
    and the choice between allow-all mode and allowlist mode.

    The middleware itself (header emission, preflight handling) is not part of
    this model; only the decision it is handed is. */
module CorsPolicy {
  import opened JsValues

  /** The message of the error the callback reports for a foreign origin. */
  const RejectMessage: string := "Not allowed by CORS"

  /** What the origin callback hands back: `callback(null, true)` is `Allow`,
      `callback(new Error(message))` is `Reject(message)`. */
  datatype Decision = Allow | Reject(message: string)

  /** How the CORS middleware is installed: `cors()` with no options, or
      `cors({ origin: <callback over origins>, credentials })`. */
  datatype Mode = AllowAll | Allowlist(origins: seq<string>, credentials: bool)

  /** `Array.prototype.indexOf` with strict (exact, case-sensitive) string
      equality: the first position of `x` in `xs`, or -1 when there is none. */
  function IndexOf(xs: seq<string>, x: string): (r: int)
    ensures -1 <= r < |xs|
    ensures r == -1 <==> x !in xs
    ensures 0 <= r ==> xs[r] == x
    ensures forall j :: 0 <= j < r ==> xs[j] != x
  {
    if xs == [] then -1
    else if xs[0] == x then 0
    else
      var k := IndexOf(xs[1..], x);
      if k == -1 then -1 else k + 1
  }

  /** `values.filter(Boolean)` on optional strings: the truthy entries, in
      order, duplicates kept. */
  function FilterTruthy(values: seq<Option<string>>): (r: seq<string>)
    ensures |r| <= |values|
    ensures forall s :: s in r <==> s != "" && Some(s) in values
    ensures |r| == |values| <==> forall i :: 0 <= i < |values| ==> Truthy(values[i])
  {
    if values == [] then []
    else
      var rest := FilterTruthy(values[1..]);
      assert forall s :: Some(s) in values <==> Some(s) == values[0] || Some(s) in values[1..];
      if Truthy(values[0]) then [values[0].value] + rest else rest
  }

  /** Filtering distributes over concatenation: the truthy entries of `a + b`
      are those of `a` followed by those of `b`. Together with
      `FilterTruthySingle` this fixes the result completely, order and
      duplicates included. */
  lemma {:induction false} FilterTruthyAppend(a: seq<Option<string>>, b: seq<Option<string>>)
    ensures FilterTruthy(a + b) == FilterTruthy(a) + FilterTruthy(b)
  {
    if a == [] {
      assert a + b == b;
    } else {
      assert (a + b)[1..] == a[1..] + b;
      FilterTruthyAppend(a[1..], b);
    }
  }

  lemma FilterTruthySingle(v: Option<string>)
    ensures FilterTruthy([v]) == if Truthy(v) then [v.value] else []
  {
    assert [v][1..] == [];
  }

  /** The allowlist `[FRONTEND_ORIGIN, FRONTEND_PROD_ORIGIN].filter(Boolean)`:
      at most two entries, exactly the configured non-empty values, the
      development origin first, duplicates kept. */
  function BuildAllowlist(devOrigin: Option<string>, prodOrigin: Option<string>): (r: seq<string>)
    ensures |r| == (if Truthy(devOrigin) then 1 else 0) + (if Truthy(prodOrigin) then 1 else 0)
    ensures Truthy(devOrigin) ==> r[0] == devOrigin.value
    ensures Truthy(prodOrigin) ==> r[|r| - 1] == prodOrigin.value
    ensures forall s :: s in r <==> s != "" && (devOrigin == Some(s) || prodOrigin == Some(s))
  {
    FilterTruthyAppend([devOrigin], [prodOrigin]);
    FilterTruthySingle(devOrigin);
    FilterTruthySingle(prodOrigin);
    assert [devOrigin] + [prodOrigin] == [devOrigin, prodOrigin];
    FilterTruthy([devOrigin, prodOrigin])
  }

  /** The `origin` callback of allowlist mode. A missing or empty origin is
      let through (non-browser clients); otherwise the origin must occur
      verbatim in the allowlist, and any other origin is refused with
      `RejectMessage`. */
  function OriginCallback(origin: Option<string>, allowlist: seq<string>): (d: Decision)
    ensures d == Allow <==> !Truthy(origin) || origin.value in allowlist
    ensures d != Allow ==> d == Reject(RejectMessage)
  {
    if !Truthy(origin) then Allow
    else if IndexOf(allowlist, origin.value) != -1 then Allow
    else Reject(RejectMessage)
  }

  /** Mode selection: allow-all installs `cors()` and nothing else; otherwise
      the allowlist is built and installed with `credentials: true`. */
  function SelectMode(allowAll: bool, devOrigin: Option<string>, prodOrigin: Option<string>): (m: Mode)
    ensures m.AllowAll? <==> allowAll
    ensures m.Allowlist? ==> m.credentials
    ensures m.Allowlist? ==> forall s :: s in m.origins <==> s != "" && (devOrigin == Some(s) || prodOrigin == Some(s))
    ensures m.Allowlist? ==> |m.origins| <= 2
  {
    if allowAll then AllowAll
    else Allowlist(BuildAllowlist(devOrigin, prodOrigin), true)
  }

  /** Whether the options handed to the middleware ask for credentials. `cors()`
      with no options passes no credentials option. */
  predicate Credentials(m: Mode) {
    m.Allowlist? && m.credentials
  }

  /** The decision for a request carrying `origin` under mode `m`. In allow-all
      mode the callback is never run and every request is admitted. */
  function Admit(m: Mode, origin: Option<string>): (d: Decision)
    ensures m.AllowAll? ==> d == Allow
    ensures m.Allowlist? ==> (d == Allow <==> !Truthy(origin) || origin.value in m.origins)
    ensures d == Allow || d == Reject(RejectMessage)
  {
    match m
    case AllowAll => Allow
    case Allowlist(origins, _) => OriginCallback(origin, origins)
  }

  /** A request without an origin, or with an empty one, is admitted in every
      mode, whatever the allowlist holds. */
  lemma NoOriginAlwaysAdmitted(m: Mode, origin: Option<string>)
    requires !Truthy(origin)
    ensures Admit(m, origin) == Allow
  {
  }

  /** Growing the allowlist never turns an admitted origin into a rejected one;
      the credentials flag plays no part in the decision. */
  lemma AdmitMonotonic(small: seq<string>, large: seq<string>, c1: bool, c2: bool, origin: Option<string>)
    requires forall s :: s in small ==> s in large
    ensures Admit(Allowlist(small, c1), origin) == Allow ==> Admit(Allowlist(large, c2), origin) == Allow
  {
  }

  /** Appending one origin to the allowlist keeps every admitted origin
      admitted, and admits the appended one. */
  lemma AdmitAppend(list: seq<string>, extra: string, c: bool, origin: Option<string>)
    ensures Admit(Allowlist(list, c), origin) == Allow ==> Admit(Allowlist(list + [extra], c), origin) == Allow
    ensures Admit(Allowlist(list + [extra], c), Some(extra)) == Allow
  {
    AdmitMonotonic(list, list + [extra], c, c, origin);
  }
}
