# MindPulse scoring engine in Dafny

This project models the core of the MindPulse backend (`backend/app.py`). That core covers:

- the mental resource index (MRI) calculator: thirteen metrics with defaults, a linear score, then Python's `round`, `clamp` and `int`;
- the three-tier risk classifier and its static text table;
- the seeded seven-day forecast and weekly series generators;
- the arithmetic `/predict` performs around them: the risk score, the shared seed and the confidence;
- the keyword-driven local chat reply;
- the signup and login rules over the user dictionary.

The modules follow the program's layers:

| module | file | covers |
|---|---|---|
| `Numeric` | numeric.dfy | `clamp`, and the Python built-ins `round`, `int()` and `random.uniform` |
| `Metrics` | metrics.dfy | metric extraction and `compute_mri` |
| `Risk` | risk.dfy | `risk_package` |
| `Series` | series.dfy | `build_forecast` and `weekly_series`, as loops proved against specification functions |
| `Predict` | predict.dfy | the `/predict` response |
| `Text` | text.dfy | ASCII `lower`, `strip` and the substring test `in` |
| `Assistant` | assistant.dfy | `local_assistant_reply` |
| `Accounts` | accounts.dfy | `signup` and `login`, as a `UserStore` class whose `users` map field is updated in place |

How the model renders Python's numbers and random generator:

- **Random numbers.** Python's global generator is an explicit stream `rng: (int, nat) -> real`. `rng(s, k)` is the k-th `random.random()` value after `random.seed(s)`. `random.uniform(a, b)` is `a + (b - a) * u` for the draw `u`. This lets the contracts say which draw feeds which day, and that the weekly series is seeded seven past the forecast.
- **Arithmetic.** All arithmetic is on exact reals.
- **`round(x)`** is round-half-to-even, characterised by `NearestEven`.
- **`int(x)`** truncates toward zero.
- **`round(x, 2)`** rounds `100 * x` half to even and divides by 100.

## Model

| member | source | states |
|---|---|---|
| Numeric.Clamp | backend/app.py:34-35 | result lies in [low, high] when low <= high; a value already in range is returned unchanged; below the range gives low, above gives high; with high < low the result is low (`max` wins) |
| Numeric.Trunc | backend/app.py:73 | `int()` of a float, as applied to each forecast day here and to the weekly values and the seed at lines 99, 101 and 157: the integer below a non-negative value (within 1) and the integer above a negative one (within 1) |
| Numeric.RoundHalfEven | backend/app.py:58 | `round()` returns an integer within 0.5 of the argument, and an even one at an exact tie |
| Numeric.NearestEvenUnique | backend/app.py:58 | the nearest-even integer of a real is unique, so `NearestEven` fully determines `round()` |
| Numeric.RoundMonotone | backend/app.py:58 | `round()` preserves order |
| Numeric.RoundOfInteger | backend/app.py:58 | `round()` of a whole number is that number |
| Numeric.RoundWithinPercent | backend/app.py:58 | a score at or below 0 rounds to at most 0, one at or above 100 to at least 100, one in [0, 100] to a value in [0, 100] |
| Numeric.RoundCommutesWithClamp | backend/app.py:58 | `clamp(round(s))` equals `round(clamp(s))`, so the order of rounding and clamping in `compute_mri` does not matter |
| Numeric.UniformWithin | backend/app.py:71 | a unit draw stretched onto [a, b] lands in [a, b] |
| Numeric.Uniform | backend/app.py:71 | `random.uniform(a, b)` lies in [a, b] for a draw in [0, 1], and is a for the draw 0 |
| Metrics.ComputeMri | backend/app.py:38-58 | the index is an integer in [0, 100] for every payload |
| Metrics.ComputeMriRoundsScore | backend/app.py:53-58 | the index is the nearest-even rounding of the weighted score when the score is in [0, 100], 0 when the score is at or below 0, 100 when at or above 100 |
| Metrics.Extract | backend/app.py:39-51 | the thirteen `payload.get(key, default)` reads; what each field holds is stated by `ExtractReadsKey` |
| Metrics.Score | backend/app.py:53-57 | the weighted score, accumulated in the source's five steps; its rounding into the index is stated by `ComputeMriRoundsScore` |
| Metrics.ExtractReadsKey | backend/app.py:39-51 | each of the thirteen metrics is the payload's value for its key, or its documented default when the key is absent |
| Metrics.MissingKeyActsAsDefault | backend/app.py:39-51 | sending a recognised key with its default value gives the same index as leaving it out |
| Metrics.UnknownKeyIgnored | backend/app.py:38-58 | a key outside the thirteen never changes the index |
| Metrics.EmptyPayloadBaseline | backend/app.py:38-58 | the empty payload scores 61.3 and has index 61 |
| Risk.Classify | backend/app.py:115-141 | healthy exactly from 75 up, at risk exactly for 55..74, danger exactly below 55 |
| Risk.RiskPackage | backend/app.py:115-141 | `risk_package`: the table entry of the index's tier; which entry each band gets is stated by `RiskPackageByBand` |
| Risk.RiskPackageByBand | backend/app.py:115-141 | `risk_package` returns the healthy entry for an index >= 75, the at-risk entry for 55..74, and the danger entry below 55 |
| Risk.LevelIdentifiesBand | backend/app.py:115-141 | the returned level is "healthy", "at-risk" or "danger" exactly in the corresponding band, so the level alone tells the band |
| Risk.LevelsAndLabelsDistinct | backend/app.py:119-138 | the three levels differ pairwise, and so do the three forecast labels |
| Risk.ClassifyMonotone | backend/app.py:115-141 | a higher index never lands in a more severe tier |
| Series.ForecastDay | backend/app.py:71-73 | a forecast day is in [0, 100]: the floor of base + 3·day + jitter + shift when that is in range, 0 below, 100 above; day d's jitter comes from draw d |
| Series.ForecastSpec | backend/app.py:61-74 | the forecast has seven values, each in [0, 100] |
| Series.BuildForecast | backend/app.py:61-74 | the loop returns seven values in [0, 100], equal day by day to `ForecastDay` over the seed's stream |
| Series.ForecastWithinJitterBand | backend/app.py:71-73 | each forecast day lies between the values that jitter -4 and jitter +4 would give |
| Series.ForecastDeterminedByDraws | backend/app.py:68-73 | the forecast depends on the generator only through the seed's first seven draws |
| Series.WeeklyDayMri | backend/app.py:90-98 | a day's clamped index lies in [0, 100]; its drift is the day's first draw |
| Series.WeeklyLoad | backend/app.py:100-111 | a day's load lies in [0, 100]; it uses the unfloored day index and the day's second draw |
| Series.WeeklySpec | backend/app.py:77-112 | labels Mon..Sun, seven index values and seven load values, all in [0, 100] |
| Series.WeeklySeries | backend/app.py:77-112 | the loop returns the labels Mon..Sun and seven index and load values in [0, 100], equal to `WeeklySpec` (two draws per day, index first, then load) |
| Series.WeeklyIndexUsesFirstDrawOfDay | backend/app.py:89-99 | the index series depends only on the even-numbered draws |
| Series.WeeklyDeterminedByDraws | backend/app.py:85-112 | the weekly series depends on the generator only through the seed's first fourteen draws |
| Series.LoadUsesUnflooredDayMri | backend/app.py:99-108 | the load is computed from the unfloored day index: a day index of 50.5 lists as 50 yet gives load 49, not 50 |
| Predict.RiskScore | backend/app.py:154-156 | the forecast base is in [0, 100] and equals 100 - mri + 0.12·cs + 0.18·oh - 0.1·rb whenever that is in range |
| Predict.ForecastSeed | backend/app.py:157 | the seed is `mri + risk_score + stress` truncated toward zero |
| Predict.WeeklySeed | backend/app.py:159 | the weekly series is seeded with the forecast seed plus 7 |
| Predict.RoundCents | backend/app.py:166 | `round(x, 2)` is a whole number of hundredths, the nearest-even one to x |
| Predict.Confidence | backend/app.py:160-166 | the reported confidence is always in [0.7, 0.95] |
| Predict.RoundCentsWithin | backend/app.py:166 | rounding to hundredths keeps a value inside a range whose ends are whole hundredths |
| Predict.ConfidenceClampInactive | backend/app.py:160 | for an index in [0, 100] the raw confidence is already in [0.7, 0.95], so the clamp never changes it |
| Predict.ForecastOf | backend/app.py:154-158 | the response forecast has seven values in [0, 100], drawn with base `risk_score` from the stream of `seed` |
| Predict.WeeklyOf | backend/app.py:157-159 | the response weekly series has the day labels and seven index and load values in [0, 100], drawn from the stream of `seed + 7` |
| Predict.Respond | backend/app.py:148-171 | the response for an index carries that index, the tier entry's label, level, pill, forecast label, coach tip and recovery text, the rounded confidence, the forecast and the weekly series; the confidence is in [0.7, 0.95] and both series have seven in-range values |
| Predict.Predict | backend/app.py:144-172 | the index of the payload is in [0, 100], and the response is the one for that index and the payload's metrics |
| Predict.ResponseWithinBounds | backend/app.py:158-171 | every response has a confidence in [0.7, 0.95] and seven forecast, index and load values in [0, 100] under the day labels |
| Predict.EmptyPayloadResponse | backend/app.py:144-166 | the empty payload gives index 61, the at-risk entry, risk score 50, seed 116 and confidence 0.85 |
| Predict.LowStrainPayloadIsHealthy | backend/app.py:53-58 | a low-strain payload scores 149.4 before clamping, gets index 100 and is healthy |
| Text.LowerChar | backend/app.py:181 | a lowered character is never a capital; small letters and other characters are unchanged; capitals move by 32 |
| Text.Lower | backend/app.py:181 | `lower()` keeps the length and lowers every character |
| Text.LowerOfLowercase | backend/app.py:181 | a string with no capitals is its own lower-case form |
| Text.Contains | backend/app.py:182 | Python's `w in s`: a contained word is never longer than the text; that it means an occurrence at some position is stated by `OccurrenceIsContained` and `ContainedHasOccurrence` |
| Text.OccurrenceIsContained | backend/app.py:182 | `w in s` holds whenever `w` occurs at some position of `s` |
| Text.ContainedHasOccurrence | backend/app.py:182 | if `w in s` holds, `w` occurs at some position of `s` |
| Text.LowerPreservesContains | backend/app.py:181-182 | lowering the text keeps every occurrence, in lowered form |
| Text.TrimStart | backend/app.py:224 | the result is a suffix of the input; everything removed is whitespace; it does not start with whitespace |
| Text.TrimEnd | backend/app.py:224 | the result is a prefix of the input; everything removed is whitespace; it does not end with whitespace |
| Text.Strip | backend/app.py:223-225 | `strip()` gives the empty string exactly for an all-whitespace input, and otherwise a string with no whitespace at either end |
| Text.StripOfUnpadded | backend/app.py:223-225 | a string without whitespace at its ends is left as it is |
| Text.StripIdempotent | backend/app.py:223-225 | stripping twice is the same as stripping once |
| Assistant.FirstGroup | backend/app.py:182-205 | the first keyword group mentioned from a position on: that group is mentioned and no group between the start position and it is; past the last group means none is mentioned |
| Assistant.ReplyFor | backend/app.py:183-204 | the four group replies and the general reply, text for text; the reply chosen for a message is stated by `LocalAssistantReply` |
| Assistant.ReplyChoice | backend/app.py:180-205 | the if-chain picks the first group whose keyword occurs in the lowered message, or the general reply |
| Assistant.ChoiceIsFirstMatch | backend/app.py:180-205 | the choice is group g exactly when g is mentioned and no earlier group is |
| Assistant.LocalAssistantReply | backend/app.py:180-205 | the reply is the text of the first mentioned group, or the general reply when none is mentioned |
| Assistant.KeywordInAnyCaseWins | backend/app.py:181-182 | a word whose lower-case form is a keyword, written anywhere in the message in any letter case ("TIRED", "Tired"), selects that keyword's group or an earlier one |
| Assistant.KeywordsAreLowercase | backend/app.py:182-199 | every keyword is written in small letters, so lowering the message cannot hide it |
| Accounts.EmailKey | backend/app.py:224 | the stored address key is no longer than the field and holds no capitals |
| Accounts.UserStore.constructor | backend/app.py:232 | the store starts with the loaded dictionary |
| Accounts.UserStore.Signup | backend/app.py:227-238 | a field that is empty after stripping gives MissingField (400); an address without "@gmail.com" gives NotGmail (400); a known address gives AlreadyExists (409); each rejection leaves the dictionary unchanged; otherwise exactly one entry address ↦ (name, password) is added and every other entry is kept |
| Accounts.UserStore.Login | backend/app.py:247-252 | login succeeds exactly when the stripped, lowered address is stored with the stripped password, and it answers with the stored name and the address |
| Accounts.SignupEnablesLogin | backend/app.py:236-252 | after signup the new credentials are accepted, and login for every other address answers as before |
| Accounts.EmailKeyIdempotent | backend/app.py:224 | a stored address key normalises to itself |

## Left out

- Flask routing, `jsonify`, CORS, `request.get_json`, the index and ping routes, the `/routes` listing and `app.run` are left out. They are HTTP plumbing. The HTTP status codes appear only as `SignupStatus` and `LoginStatus`.
- The chat route's rejection of an empty message (backend/app.py:208-217) is left out. It is request plumbing around `local_assistant_reply`.
- `load_users` and `save_users` are left out: they are file I/O and JSON decoding. The dictionary is the `users` field of `UserStore`.
- Python's Mersenne Twister is replaced by the explicit draw stream `rng`. Bit-exact reproduction of `random.seed`/`random.random` is out of scope, so the concrete numbers a given seed produces are not modelled.
- IEEE-754 floating point is left out. Sums and products are exact reals. Float rounding error in the score, and the ties it can create or remove before `round`, are not modelled. `round(confidence, 2)` is modelled on exact reals, not on the binary value of the float.
- Non-numeric payload values are left out. The payload is a map from key to real. The code has no check of its own for such values (`float()` simply raises), and the model has no error case for them.
- `predict` reads `payload.get("stress", 5)` again without `float()`; the model uses the extracted stress metric, which is the same number for numeric payloads.
- Unicode is left out of `lower()` and `strip()`. `Lower` lowers only ASCII capitals, and `Strip` removes only the ASCII characters `isspace()` accepts.
- The request parsing in `signup` and `login` (`str(payload.get(...))`) is not modelled. The methods receive the three fields as strings.
- Accounts.UserStore.Login: treats every stored entry as a well-formed `{username, password}` record. A malformed entry in the user file (an empty dict, a missing username) is not modelled.
