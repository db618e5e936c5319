# SAV03 order gate, modelled in Dafny

SAV03 is a small Flask front end (`app.py`) for an upstream social-media
panel API. Its one piece of logic is the gate in front of the `add` order
call. The gate strips the three form fields. It checks that the service id
is numeric, that the link starts with `http://` or `https://`, that the
quantity is a positive integer, and that an API key is configured. When all
of that passes, it fetches the service catalogue, looks up the service's
`min`/`max` bounds and rejects a quantity outside them. Only then does it
post the order and read the reply. Beside the gate sits a one-flag admin
session: it is set by a correct password at `/login`, checked by `/admin`
and cleared by `/logout`.

The model is split into these modules:

- `Wrappers`: `Option`, `Result`, and Python's `x or ""`.
- `Text`: `str.strip()`, `str.isdigit()`, `int()` and `str()` on integers, and the `^https?://` match under `re.I`.
- `JsonValue`: decoded JSON values, Python truthiness, `dict.get`, `str(x) == text`, `int(x)` and `in`.
- `Gateway`: `api_post` (the key check and the `data.update(payload)` merge), `get_services` (falls back to `[]` on any exception), and how the `add` reply is read.
- `Catalogue`: `get_service_limits` as the loop with an early return, proved against the recursive `FirstHit`.
- `Order`: the POST branch of `index`. It builds the error list step by step, applies the range gate, and decides whether the order is sent.
- `Admin`: the session's `is_admin` flag as a class, plus a pure account of what the flag is after a run of requests.

Environment variables, the two HTTP exchanges and the form are parameters.
`Gateway.Transport` stands for what `requests.post`, `raise_for_status()` and
`r.json()` yield together: a decoded body, or a failure.

Three behaviours of the code worth knowing:

- An `add` reply counts as a created order only when it is a JSON object with an `"order"` key. A reply carrying only `"order_id"` is shown as an error (`Gateway.OrderIdAloneIsRefused`).
- `get_service_limits` runs outside any `try`. The handler raises in three cases, which the model calls `ServerError`: nothing is ordered and no message is shown.
  - The catalogue is neither a list nor empty.
  - A record that is not an object is reached before any match.
  - The matching record has a `min` or `max` that `int()` rejects. `int()` accepts `"10"` and `true`.
- The range check needs the `services` call first, so a request that passes the field checks always makes one upstream call before the range is known.

## Model

| member | source | states |
|---|---|---|
| Text.LooksLikeUrl | app.py:46-47 | `looks_like_url`: the stripped text, `None` read as `""`, matches the pattern `http`, an optional `s`, then `://` at its start, under case folding; `LooksLikeUrlIff` gives the plain-prefix reading |
| Text.IsDigits | app.py:86 | `sid.isdigit()`: non-empty and all ASCII digits |
| Text.ParseInt | app.py:91 | `int(qty_raw)`: surrounding whitespace ignored, then an optional sign and a non-empty run of at most 4300 ASCII digits (CPython's default `int_max_str_digits`); `None` otherwise, and `None` for any string holding U+001C to U+001F, which `str.isspace()` counts as whitespace but `int()` does not skip. `ParseIntToString` is its round trip |
| Text.SeparatorNeverNumeral | app.py:71-72 | however `int()` trims its whitespace (ASCII `\t\n\v\f\r` and space, plus non-ASCII `str.isspace()` characters), a string holding U+001C to U+001F leaves no numeral, which is why `ParseInt` refuses it |
| Text.TooManyDigitsRejected | app.py:90-96 | a digit run longer than 4300 digits is refused by `int()` |
| Text.TooManySignedDigitsRejected | app.py:90-96 | the same with a leading `+` or `-` |
| Text.Strip | app.py:81-83 | the stripped text neither starts nor ends with a `str.isspace()` character |
| Text.StripIsTrim | app.py:81-83 | `strip()` removes whitespace only, and only from the two ends: the result is a contiguous slice of the input, with whitespace on each side |
| Text.StripIdempotent | app.py:46-47 | stripping twice is stripping once |
| Text.StripEmptyIff | app.py:81-87 | a field strips to `""` exactly when it is empty or all whitespace |
| Text.IntToString | app.py:105 | `str()` of an int is non-empty and starts with `-` exactly for a negative number |
| Text.ParseIntToString | app.py:91 | `int(str(n)) == n` for every integer of at most 4300 digits (CPython's `str()` refuses longer ones) |
| Text.CanonicalDecimalUnique | app.py:69-70 | a digit string with no leading zero is exactly `str()` of its value |
| Text.LooksLikeUrlIff | app.py:46-47 | `looks_like_url` holds exactly when the stripped text starts with `http://` or `https://`. Case is folded as `re.I` does: ASCII letters, and the long s U+017F matches `s` |
| Text.LooksLikeUrlOfStripped | app.py:82-88 | testing the already stripped link gives the same verdict as testing the raw one |
| JsonValue.Truthy | app.py:69 | Python truthiness of a decoded value, as `or` uses it |
| JsonValue.StrEquals | app.py:69-70 | `str(value) == text` for null, booleans, integers, strings and empty containers |
| JsonValue.ToInt | app.py:71-72 | `int(value)` on an integer, a boolean or a string (through `ParseInt`, its whitespace set and digit limit included); `None` where it raises |
| JsonValue.Contains | app.py:117 | `"order" in data`: key membership on an object, element membership on a list, substring on a string; `None` where `in` raises |
| JsonValue.StrEqualsInt | app.py:69-70 | an integer record id matches a numeric request id exactly when the id is that integer's canonical decimal spelling |
| JsonValue.LeadingZeroNeverEqualsInt | app.py:69-70 | an id with a leading zero, such as `"027243"`, never matches an integer record id |
| Gateway.ConfiguredApiKey | app.py:9 | the configured key: the variable's value stripped, unset read as `""` |
| Gateway.ConfiguredApiKeyMissing | app.py:9 | the key counts as missing exactly when the variable is unset or all whitespace |
| Gateway.PostResult | app.py:49-57 | what `api_post` returns or raises: the missing-key error before anything else, then the decoded body or a transport error |
| Gateway.KeyedData | app.py:53-54 | the sent data has the payload's keys plus `key`; every payload entry is kept (it wins over `key` on a clash); `key` holds the configured key otherwise |
| Gateway.ApiPost | app.py:49-57 | nothing is sent when the key is empty, which raises; otherwise exactly the merged data is sent once, and the result is the decoded body or a transport error |
| Gateway.GetServices | app.py:59-64 | `get_services`: the decoded body, or `[]` when `api_post` raised |
| Gateway.GetServicesFallback | app.py:59-64 | a missing key or a failed call gives `[]`; otherwise the decoded body is returned unchanged |
| Gateway.ClassifyAdd | app.py:117-122 | created exactly when the reply is an object with `"order"`, carrying that entry; otherwise refused with the whole reply, except a non-object on which `in` raises or `data["order"]` fails, which ends as the network error |
| Gateway.AddOutcome | app.py:110-122 | any exception inside the `try`, `api_post`'s included, ends as the network error; otherwise the reply is classified |
| Gateway.OrderIdAloneIsRefused | app.py:117-120 | a reply with `"order_id"` but no `"order"` is refused |
| Gateway.AddReplyExamples | app.py:117-120 | `{"order": 555}` is order 555; `{"error": "bad key"}` is refused with that body |
| Catalogue.RecordId | app.py:69 | `s.get("service") or s.get("id")` |
| Catalogue.Examine | app.py:69-73 | one iteration: a non-object raises, a non-matching record is passed over, a matching one yields `int(min)` and `int(max)` with the defaults 1 and 1000000, or raises |
| Catalogue.FirstHit | app.py:68-74 | the first record not passed over decides; none at all gives `(None, None)` |
| Catalogue.Lookup | app.py:68 | `for s in catalogue` over any decoded body: a list is searched, an empty dict or string gives no limits, anything else raises |
| Catalogue.GetServiceLimits | app.py:66-74 | the loop returns `Lookup`'s answer. For a list, bounds come from a record that matches, and every record before it is passed over. No bounds means every record was passed over |
| Catalogue.FirstHitIsFirstMatch | app.py:68-73 | the bounds found are those of the first matching record, and conversely |
| Catalogue.FirstHitNone | app.py:68-74 | `(None, None)` exactly when every record is an object that does not match. A non-object record with no match before it raises instead |
| Catalogue.MissingBoundsDefault | app.py:71-72 | a matching record without `min` gets 1, without `max` gets 1000000 |
| Catalogue.OverlongBoundCrashes | app.py:71 | a matching record whose `min` is a digit string longer than 4300 digits makes the search raise |
| Catalogue.SeparatorBoundCrashes | app.py:71 | a matching record whose `min` is a string holding U+001C to U+001F, such as `"\u001c10"`, makes the search raise |
| Catalogue.IdFallback | app.py:69 | `id` is compared exactly when `service` is missing or falsy |
| Catalogue.NoIdNeverMatches | app.py:69-70 | a record with neither `service` nor `id` prints as `None` and never matches a numeric id |
| Catalogue.IntegerIdMatch | app.py:69-70 | a record whose id is an integer is examined exactly when the request spells that integer canonically |
| Catalogue.FailedFetchNoLimits | app.py:59-74 | a failed fetch yields no limits |
| Order.Field | app.py:81-83 | `(request.form.get(name) or "").strip()` |
| Order.Message | app.py:87-105 | the text shown for each error, the range one naming the service and both bounds |
| Order.FieldErrors | app.py:85-99 | the four field checks' errors as one list, each failed check in the handler's order |
| Order.EmptyFormErrors | app.py:81-99 | an empty form with no API key gets all four field errors, in order |
| Order.AppendErrors | app.py:85-99 | each failed check contributes its error, in the fixed order, each at most once; the list is empty exactly when all four pass; the quantity is the parsed positive value, or 0 when rejected |
| Order.FlaggedMembers | app.py:85-99 | the four checks' errors hold exactly the failed checks, and none is a range error |
| Order.FlaggedInRankOrder | app.py:85-99 | the four checks' errors, appended in the handler's order, are in rank order |
| Order.CheckFields | app.py:81-99 | the field verdicts on the stripped texts: a non-numeric or empty id, a link failing `looks_like_url`, a quantity that is not an integer above 0, and a missing key each add their own error, in order; the list is `FieldErrors` of the stripped texts |
| Order.RankOrderDetermines | app.py:85-105 | two lists in rank order with the same members are equal, so the membership facts fix the error list |
| Order.OverlongQuantityRejected | app.py:90-96 | a quantity longer than 4300 digits makes `int()` raise, so the quantity error is recorded |
| Order.AddPayload | app.py:111-116 | the payload of the `add` call: `action`, `service`, `link` and the parsed `quantity` |
| Order.AddRequestFields | app.py:111-116 | the `add` request carries exactly `key`, `action`, `service`, `link` and `quantity`, with the configured key and the checked fields |
| Order.SubmitOrder | app.py:81-122 | errors in the fixed order, exactly `FieldErrors` of the stripped fields when a field check fails. The catalogue is fetched only when every field check passes. It is rejected on range only when bounds were found and the quantity is below `min` or above `max` (inclusive bounds). A lookup failure is a server error. `add` is sent exactly when the outcome is submitted, with the merged data, and its reply is classified |
| Admin.LoginAccepted | app.py:190-191 | the password check: the admin password is set, non-empty and equal to the posted one (missing read as `""`) |
| Admin.Step | app.py:191-194 | the flag after one request: an accepted login sets it, a refused one keeps it, a logout clears it |
| Admin.FlagAfter | app.py:186-220 | the flag after a run of requests |
| Admin.NoPasswordConfigured | app.py:191 | no login succeeds while the admin password is unset or empty |
| Admin.MissingPasswordRefused | app.py:190-191 | a form without a password never logs in |
| Admin.AcceptedExactly | app.py:190-192 | a login succeeds exactly when the admin password is set, non-empty and equal, unstripped, to the posted one |
| Admin.FlagAfterFrom | app.py:186-220 | after a run of requests the flag is set exactly when it was set and no logout happened, or some login succeeded with no logout after it |
| Admin.FlagAfterIff | app.py:186-220 | in a fresh session `/admin` is open exactly when some login succeeded and no logout came after it |
| Admin.AdminSession.Login | app.py:189-194 | the flag becomes set on an accepted password, and a refused one leaves it as it was |
| Admin.AdminSession.Admin | app.py:204-207 | the panel is shown exactly while the flag is set |
| Admin.AdminSession.Logout | app.py:217-220 | the flag is cleared whether or not it was set |

## Left out

- HTML: `_page`, the flash markup (`"<br>".join`), and the `/services`, `/status` and `/balance` pages. `Order.Message` gives each error's text, but the page around it is not modelled.
- Flask routing, `request.form`, redirects and the session cookie mechanics. The session is the `Admin.AdminSession` object, and the GET form of `/login` is not modelled.
- Reading `PEAKERR_API_KEY`, `ADMIN_PASSWORD` and `FLASK_SECRET`. The values are parameters, and `Gateway.ConfiguredApiKey` states how line 9 reads the key.
- `requests.post`, `raise_for_status`, `r.json()` and the 30-second timeout. The result of the exchange is an input. The text of the exception shown as "Error de red: {e}" is not modelled, only the fact that the request failed.
- JSON floating-point numbers are not modelled, so a float `min`/`max` (which `int()` would truncate) is not represented.
- Text.IsDigits: ASCII digits only. Python's `str.isdigit()` also accepts other Unicode digits, such as superscripts.
- Text.ParseInt: an optional sign and at most 4300 ASCII decimal digits after stripping. Python's `int()` also accepts `_` between digits and non-ASCII decimal digits. The 4300-digit limit is CPython's default. A process that changes it with `sys.set_int_max_str_digits` is not modelled.
- JsonValue.Json: a `JInt` may have any number of digits. `r.json()` refuses integers longer than 4300 digits, so such a value never reaches the handler, and `str()` of it is not modelled as raising.
- JsonValue.StrEquals: `str()` of a non-empty list or object record id is not modelled and is taken never to equal the requested id. The empty ones print as `[]` and `{}`. A non-empty one prints starting with `[` or `{`, so a numeric request id could never match it.
- Text.LooksLikeUrl: case folding covers ASCII letters and the long s (U+017F), the only non-ASCII character `re.I` folds onto the letters of `https`. Other special folds, such as the Kelvin sign onto `k`, concern letters the pattern does not contain.
- Admin.AdminSession.Login: the redirect to `/admin` on success is represented only by `granted`.
