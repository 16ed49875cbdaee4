# Origin-admission policy of the restaurant-ordering backend

This project models the start-up configuration and the CORS origin-admission
policy of the backend's `Backend/index.js`:

- the listening port (`PORT || 5000`);
- the allow-all flag (`ALLOW_ALL_ORIGINS`, compared with `"true"` after lower-casing);
- the allowlist built from `FRONTEND_ORIGIN` and `FRONTEND_PROD_ORIGIN` with `filter(Boolean)`;
- the `origin` callback handed to the CORS middleware in allowlist mode;
- the choice between allow-all mode (`cors()`) and allowlist mode
  (`cors({ origin, credentials: true })`);
- the line the request logger prints for each request.

Each environment variable is an `Option<string>`: `None` is an unset variable
(`undefined`), and `Some("")` is a variable set to the empty string. Both are
falsy in JavaScript. The callback's two outcomes are a `Decision`.
`callback(null, true)` is `Allow`. `callback(new Error('Not allowed by CORS'))`
is `Reject("Not allowed by CORS")`.

Modules:

- `JsValues` (`js_values.dfy`): `Option`, JavaScript truthiness of a string, `||`, ASCII `toLowerCase`.
- `CorsPolicy` (`cors_policy.dfy`): `indexOf`, `filter(Boolean)`, the allowlist, the callback, `Mode`, `Admit`.
- `ServerConfig` (`server_config.dfy`): the environment record, the port, the allow-all flag, `LoadConfig`.
- `RequestLog` (`request_log.dfy`): the origin placeholder and the log-line layout.

Assumptions:

- `toLowerCase` is modelled on ASCII letters only; other characters are left unchanged.
- The current time is an input: the log line takes the timestamp text as a parameter.

Two facts about the code shape the model:

- `PORT` is not parsed. A non-empty value is kept as the original string, and
  only the fallback is the number 5000. `Port` is therefore
  `EnvPort(text) | NumericPort(number)`.
- Allow-all mode calls `cors()` with no options, so no credentials option is
  passed. `Credentials(AllowAll)` is false.

## Model

| member | source | states |
|---|---|---|
| `ServerConfig.ResolvePort` | Backend/index.js:8 | The port is the number 5000 exactly when PORT is unset or empty; otherwise it is the PORT string, unchanged and non-empty |
| `JsValues.LowerChar` | Backend/index.js:13 | Lower-casing one character never yields an upper-case ASCII letter, and only upper-case ASCII letters change, each to its lower-case partner |
| `JsValues.AsciiLower` | Backend/index.js:13 | Lower-casing keeps the length and maps every character through the ASCII lower-case map |
| `ServerConfig.AsciiLowerIsTrue` | Backend/index.js:13 | A string lower-cases to "true" iff it is the four letters t, r, u, e, each in either case |
| `ServerConfig.ParseAllowAll` | Backend/index.js:13 | The allow-all flag is true iff the variable is present and is the four letters t, r, u, e, each in either case; unset, empty, padded or other spellings give false |
| `ServerConfig.ParseAllowAllExamples` | Backend/index.js:13 | "true", "TRUE" and "True" set the flag; unset, "", " true", "1" and "yes" do not |
| `CorsPolicy.IndexOf` | Backend/index.js:24 | `indexOf` returns -1 iff the string is absent; otherwise it returns a position holding that exact string, with no earlier occurrence |
| `CorsPolicy.FilterTruthy` | Backend/index.js:18 | `filter(Boolean)` keeps exactly the non-empty present strings, never grows the list, and keeps every entry iff all are truthy |
| `CorsPolicy.FilterTruthyAppend` | Backend/index.js:18 | Filtering a concatenation equals concatenating the filtered parts, so order and duplicates are kept |
| `CorsPolicy.FilterTruthySingle` | Backend/index.js:18 | A single entry survives the filter iff it is truthy, and it survives as its string value |
| `CorsPolicy.BuildAllowlist` | Backend/index.js:18 | The allowlist has one entry per truthy origin (at most two), the development origin first and the production origin last, and holds exactly the configured non-empty origins |
| `CorsPolicy.OriginCallback` | Backend/index.js:21-26 | The callback allows iff the origin is absent or empty, or occurs verbatim in the allowlist; any other origin gets the error "Not allowed by CORS" |
| `CorsPolicy.SelectMode` | Backend/index.js:14-29 | Allow-all mode is chosen iff the flag is set; allowlist mode always carries credentials and an allowlist of at most two configured non-empty origins |
| `CorsPolicy.Admit` | Backend/index.js:14-29 | Allow-all mode admits every request; allowlist mode admits iff the origin is absent, empty or listed; every refusal carries "Not allowed by CORS" |
| `CorsPolicy.NoOriginAlwaysAdmitted` | Backend/index.js:23 | A request with no origin or an empty origin is admitted in every mode, whatever the allowlist holds |
| `CorsPolicy.AdmitMonotonic` | Backend/index.js:24 | Enlarging the allowlist never turns an admitted origin into a rejected one, and the credentials flag does not affect the decision |
| `CorsPolicy.AdmitAppend` | Backend/index.js:24 | Appending an origin keeps every admitted origin admitted and admits the appended origin |
| `ServerConfig.LoadConfig` | Backend/index.js:8-29 | Start-up defaults the port to 5000 exactly when PORT is falsy; it selects allow-all mode iff ALLOW_ALL_ORIGINS spells "true" in any case; otherwise it installs the two-origin allowlist with credentials |
| `ServerConfig.AllowAllIgnoresAllowlist` | Backend/index.js:13-16 | With the flag set, every origin, present or absent, is admitted; the configured frontend origins do not change the mode; no credentials option is passed |
| `ServerConfig.AllowlistAdmitsConfiguredOrigins` | Backend/index.js:17-29 | With the flag off, a non-empty origin is admitted iff it equals FRONTEND_ORIGIN or FRONTEND_PROD_ORIGIN; otherwise it is rejected with "Not allowed by CORS"; credentials are on |
| `ServerConfig.ConfiguredScenario` | Backend/index.js:8-29 | With PORT unset and both frontend origins set, the port is 5000 and the allowlist is [dev, prod]; the dev origin and a request with no origin are admitted; a foreign origin is rejected |
| `RequestLog.OriginLabel` | Backend/index.js:41 | The logged origin is the origin itself when it is non-empty; it is "none" iff the origin is absent, empty or literally "none" |
| `RequestLog.FormatLogLine` | Backend/index.js:41 | The line opens with the bracketed timestamp, then "] " and the method, then a space and the url; it closes with " Origin:" and the origin label; its length is the fields' lengths plus 12 |
| `RequestLog.FormatLogLineOriginInjective` | Backend/index.js:41 | For a fixed timestamp, method and url, two lines are equal iff their origin labels are equal |
| `RequestLog.LogLineExamples` | Backend/index.js:41 | The concrete lines for an absent origin (`Origin:none`) and for a real origin (logged verbatim) |
| `RequestLog.NoOriginLoggedAsNone` | Backend/index.js:41 | For any timestamp, method and url, an absent origin, an empty origin and the literal origin "none" give the same line |

## Left out

- Header emission and preflight (`OPTIONS`) handling by the `cors` package: it is foreign code. Only the decision it is handed is modelled.
- `body-parser`, Express middleware chaining and the order of the `app.use` mounts (Backend/index.js:32, 40-43): these are framework internals.
- The route prefixes `/api/auth`, `/internal`, `/api/menu`, `/api/orders` and `/api/payments` (Backend/index.js:56-77): prefix dispatch belongs to Express. The route modules under `routes/` are not part of this model.
- `mongoose.connect(MONGO_URI)` and its callbacks (Backend/index.js:48-50): asynchronous network I/O. `MONGO_URI` is therefore not part of the `Env` record.
- `app.listen` and the `GET /` and `HEAD /` handlers (Backend/index.js:79-94): socket binding and framework responses.
- The start-up log lines naming the CORS mode and the allowlist (Backend/index.js:15, 19) and every other `console.log`: output side effects. The request-log line is modelled as a string, but not its printing.
- `new Date().toISOString()`: the clock is not modelled; the timestamp is a parameter.
- `JsValues.AsciiLower`: only ASCII letters are lower-cased, while JavaScript lower-cases all of Unicode. No non-ASCII character lower-cases to one of the letters of "true", so the allow-all flag is unaffected.
