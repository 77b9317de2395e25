# Trading app core, modelled in Dafny

This project models the logic of a small trading application. The backend is a Python web service; the frontend is a React single-page app.

Backend parts modelled:
- the sliding-window rate limiter;
- the market-data controller: the instrument list, the NIFTY50 and BANKNIFTY listings, and a user's positions with their profit and loss;
- the authentication routes: token login, JSON login, profile update and sign-up.

Frontend parts modelled:
- the two chart components: the polled-data merge, moving averages, the visible index window, the y-axis fit, candle sizing and label precision;
- the enhanced dashboard's option loading and formatting;
- the navigation bar's avatar initial, toasts and instrument loading;
- the help page's FAQ search and accordion;
- the sign-up form's submit handler;
- the broker (Zerodha) login callback;
- the authentication context with its token storage.

The model follows the form of each source file.
- Code that updates state step by step becomes a `class` with `modifies` methods. This covers the rate limiter, the React components' state, the users table and the browser storage.
- Loops become `while` loops with invariants, proved against a specification function.
- Expressions become functions, with lemmas stating what they guarantee.

Prices are exact `real`s and timestamps are `int`s. Network responses, the clock, password hashing and token issuing are parameters. Browser effects are out-parameters or recorded fields: a URL opened, a navigation scheduled, a callback invoked.

Modules, one per source file plus shared helpers:
- `Util`: an option type, JavaScript/Python truthiness, and a query-style `Filter` and `FirstIndex`.
- `Text`: ASCII case mapping, substring search and `trim`.
- `ChartMath`: the candle record, moving average, running extremes, visible window and padded axis, shared by both charts.
- The per-file modules: `RateLimiter`, `LineChart`, `CandlestickChart`, `MarketData`, `Auth`, `Dashboard`, `Navbar`, `HelpPage`, `SignupPage`, `ZerodhaCallback` and `AuthContext`.

## Model

| member | source | states |
|---|---|---|
| RateLimiter.SimpleRateLimiter.constructor | Trading-backend/app/utils/rate_limiter.py:7-10 | stores the limit and window; no key has a queue yet |
| RateLimiter.SimpleRateLimiter.Check | Trading-backend/app/utils/rate_limiter.py:12-22 | the key's queue is pruned of entries at or before `now - window`. The call is admitted exactly when the pruned queue is shorter than the limit, and only then is `now` appended. A rejection is 429 with the fixed detail. Every other key is untouched. Every queue stays within the limit. An in-order queue stays in order. |
| RateLimiter.ExpiredCount | Trading-backend/app/utils/rate_limiter.py:15-16 | the `popleft` loop drops the whole leading run of expired entries and stops at the first live one |
| RateLimiter.PruneKeepsExactlyLive | Trading-backend/app/utils/rate_limiter.py:15-16 | on an ascending queue, front-only pruning leaves exactly the entries later than the cutoff |
| RateLimiter.PruneThenAppendInOrder | Trading-backend/app/utils/rate_limiter.py:15-22 | pruning and then appending `now` keeps a queue ascending and bounded by `now` |
| RateLimiter.NonPositiveLimitRejectsAll | Trading-backend/app/utils/rate_limiter.py:17 | with a limit of 0 or less, no call is admitted |
| RateLimiter.StoreKeepsBound | Trading-backend/app/utils/rate_limiter.py:14-22 | writing back one key's queue within the bound keeps every queue within it |
| ChartMath.CalculateMA | Trading-frontend/trading-app/src/components/ZoomableLineChart.js:81-93 | one entry per candle, so empty data gives an empty list. Entries are null exactly before index `period - 1`. From there each entry is the mean close of the window ending at that index. Some entry is non-null exactly when there are at least `period` candles. The candlestick chart's copy of this loop (CandlestickChart.js:35-46) is the same method. |
| ChartMath.ShownAverages | Trading-frontend/trading-app/src/components/ZoomableLineChart.js:115-126 | the 20- and 50-point overlays are drawn exactly when toggled on and the data has at least 20 (respectively 50) points |
| ChartMath.SumClosesBounds | Trading-frontend/trading-app/src/components/ZoomableLineChart.js:88 | a sum of n closes lying in [lo, hi] lies in [n·lo, n·hi] |
| ChartMath.AverageWithinWindow | Trading-frontend/trading-app/src/components/ZoomableLineChart.js:88-89 | each moving-average value lies between the lowest and highest close of its window |
| ChartMath.Extremes | Trading-frontend/trading-app/src/components/ZoomableLineChart.js:157-169 | the running min/max is absent, with the infinities left in place, exactly when no value was scanned |
| ChartMath.ExtremesWitness | Trading-frontend/trading-app/src/components/ZoomableLineChart.js:164-165 | the running min and max are attained at some scanned position |
| ChartMath.ExtremesBound | Trading-frontend/trading-app/src/components/ZoomableLineChart.js:164-165 | the running min and max are values of the sequence and bound every value |
| ChartMath.ExtremesAppend | Trading-frontend/trading-app/src/components/ZoomableLineChart.js:164-165 | scanning one more value is one `Math.min`/`Math.max` step |
| ChartMath.VisibleWindow | Trading-frontend/trading-app/src/components/CandlestickChart.js:272-275 | the first index is at least 0 and the last is at most len−1. They default to 0 and len−1 for a non-finite bound. Every on-screen index is covered, with at most one partly visible index past a finite bound. |
| ChartMath.PaddedAxis | Trading-frontend/trading-app/src/components/ZoomableLineChart.js:170-172 | the data range sits strictly inside the axis. The axis spans 110% of a non-zero range, or the range ±1 when it is flat. |
| LineChart.FindIndexByDate | Trading-frontend/trading-app/src/components/ZoomableLineChart.js:59-61 | `findIndex` returns the first point with the same timestamp, or −1 exactly when no point has it |
| LineChart.LatestByDate | Trading-frontend/trading-app/src/components/ZoomableLineChart.js:58-66 | the last point of the update for each timestamp; its keys are exactly the update's timestamps |
| LineChart.LatestIsLastOccurrence | Trading-frontend/trading-app/src/components/ZoomableLineChart.js:58-66 | for each timestamp, the update's last point with that timestamp is the one kept |
| LineChart.UpsertStepShape | Trading-frontend/trading-app/src/components/ZoomableLineChart.js:59-66 | one replace-or-push keeps timestamps distinct, adds the point's timestamp, and grows the list only for a new timestamp |
| LineChart.UpsertStepMembers | Trading-frontend/trading-app/src/components/ZoomableLineChart.js:59-66 | after one replace-or-push the list holds the new point and the old points with other timestamps |
| LineChart.UpsertAllDates | Trading-frontend/trading-app/src/components/ZoomableLineChart.js:57-67 | from distinct prior timestamps the merge keeps them distinct; its timestamps are the prior ones plus the update's |
| LineChart.UpsertAllLength | Trading-frontend/trading-app/src/components/ZoomableLineChart.js:57-67 | merged length = prior length + number of update timestamps not already present |
| LineChart.UpsertAllMembers | Trading-frontend/trading-app/src/components/ZoomableLineChart.js:57-67 | a point is in the merge exactly when it is the update's last point for its timestamp, or a prior point whose timestamp the update lacks |
| LineChart.InsertMembers | Trading-frontend/trading-app/src/components/ZoomableLineChart.js:69 | inserting into the sorted part adds exactly the inserted point |
| LineChart.InsertSorted | Trading-frontend/trading-app/src/components/ZoomableLineChart.js:69 | insertion keeps a date-sorted list sorted, and strictly ascending for a new date |
| LineChart.SortByDatePermutes | Trading-frontend/trading-app/src/components/ZoomableLineChart.js:69 | the date sort is a permutation |
| LineChart.SortByDateSorted | Trading-frontend/trading-app/src/components/ZoomableLineChart.js:69 | the date sort yields ascending dates, strictly ascending when the dates are distinct |
| LineChart.MergeUpdate | Trading-frontend/trading-app/src/components/ZoomableLineChart.js:53-70 | a null or non-array update leaves the data unchanged. Otherwise the result is the sorted upsert merge and is ordered by date. From distinct prior dates it is strictly ascending, holds exactly the surviving points, and has the stated length. |
| LineChart.SeriesValuesMembers | Trading-frontend/trading-app/src/components/ZoomableLineChart.js:160-166 | the scanned values are exactly the non-null entries of array datasets at indices in the window |
| LineChart.ScanSeries | Trading-frontend/trading-app/src/components/ZoomableLineChart.js:161-166 | the inner loop extends the running extremes by exactly the visible non-null values of one dataset |
| LineChart.LineExtremes | Trading-frontend/trading-app/src/components/ZoomableLineChart.js:157-167 | the nested loops compute the extremes of all visible values; datasets that are not arrays are skipped |
| LineChart.UpdateLineYAxis | Trading-frontend/trading-app/src/components/ZoomableLineChart.js:147-173 | without both scales or without a visible value the axis is unchanged; otherwise its bounds are the padded extremes |
| LineChart.Precision | Trading-frontend/trading-app/src/components/ZoomableLineChart.js:219-226 | 1 to 4 places. The range spans under 1000 units of the last digit unless at 1 place, and at least 100 unless at 4. |
| LineChart.PrecisionNonIncreasing | Trading-frontend/trading-app/src/components/ZoomableLineChart.js:318-324 | a wider range never gets more decimal places |
| LineChart.LabelPrecision | Trading-frontend/trading-app/src/components/ZoomableLineChart.js:313-326 | two places when there is no y scale, else the range's precision, always 1 to 4 |
| CandlestickChart.SafeData | Trading-frontend/trading-app/src/components/CandlestickChart.js:32 | non-array data is treated as no candles; an array is used as given |
| CandlestickChart.CandleData | Trading-frontend/trading-app/src/components/CandlestickChart.js:52-59 | one view per candle with its prices copied; bullish exactly when close ≥ open |
| CandlestickChart.FlatCandleIsBullish | Trading-frontend/trading-app/src/components/CandlestickChart.js:58 | a candle closing at its open counts as bullish |
| CandlestickChart.ViewFor | Trading-frontend/trading-app/src/components/CandlestickChart.js:73-132 | empty data shows "No data available" whatever the mode; otherwise volume and line modes get their views and any other mode draws candles |
| CandlestickChart.VisibleCount | Trading-frontend/trading-app/src/components/CandlestickChart.js:227 | at least 1; the window's size when it is non-empty |
| CandlestickChart.CandleWidth | Trading-frontend/trading-app/src/components/CandlestickChart.js:228 | at least 4 pixels and at least 60% of a slot, and equal to one of the two |
| CandlestickChart.VisibleLowsHighsIndex | Trading-frontend/trading-app/src/components/CandlestickChart.js:279-284 | the scanned lows and highs are those of the window's candles, in order |
| CandlestickChart.CandleSpanEmpty | Trading-frontend/trading-app/src/components/CandlestickChart.js:277-286 | the fit finds nothing exactly when the clamped window is empty |
| CandlestickChart.CandleSpanLowAttained | Trading-frontend/trading-app/src/components/CandlestickChart.js:279-284 | the fitted lower bound is the low of a visible candle |
| CandlestickChart.CandleSpanHighAttained | Trading-frontend/trading-app/src/components/CandlestickChart.js:279-284 | the fitted upper bound is the high of a visible candle |
| CandlestickChart.CandleSpanBounds | Trading-frontend/trading-app/src/components/CandlestickChart.js:279-284 | the fitted bounds enclose every visible candle's low and high |
| CandlestickChart.CandleStep | Trading-frontend/trading-app/src/components/CandlestickChart.js:282-283 | one loop step widens both running extremes by the next candle |
| CandlestickChart.CandleRange | Trading-frontend/trading-app/src/components/CandlestickChart.js:277-286 | the loop computes the lowest low and highest high of the window, or nothing for an empty window |
| CandlestickChart.UpdateCandlestickYAxis | Trading-frontend/trading-app/src/components/CandlestickChart.js:267-290 | without both scales, without candles or with an empty window the axis is unchanged; otherwise it is the padded span |
| MarketData.GetInstruments | Trading-backend/app/controllers/market_data_controller.py:14-26 | one record per row, in order. `trading_symbol` goes out as `tradingsymbol`; token, name, segment and exchange are copied. |
| MarketData.GetHistoricalData | Trading-backend/app/controllers/market_data_controller.py:28-29 | always an empty list |
| MarketData.ListingFor | Trading-backend/app/controllers/market_data_controller.py:40-47 | the id doubles as instrument token, price is the last price, position is "Neutral", no candles |
| MarketData.ListingsOfSegment | Trading-backend/app/controllers/market_data_controller.py:33-48 | every stock of the segment is listed, every row comes from such a stock, and the list is empty exactly when none exists |
| MarketData.GetSegmentListing | Trading-backend/app/controllers/market_data_controller.py:31-48 | the append loop yields the segment's listing rows in query order |
| MarketData.GetNifty50 | Trading-backend/app/controllers/market_data_controller.py:31-48 | the listing of segment "NIFTY50" |
| MarketData.GetBankNifty | Trading-backend/app/controllers/market_data_controller.py:50-67 | the listing of segment "BANKNIFTY" |
| MarketData.FirstStockBySymbol | Trading-backend/app/controllers/market_data_controller.py:78 | the first stock with the symbol, or none exactly when no stock has it |
| MarketData.PnlLongShortOpposite | Trading-backend/app/controllers/market_data_controller.py:80 | any type other than 'BUY' is short: its P&L is the negation of the long P&L |
| MarketData.PnlSign | Trading-backend/app/controllers/market_data_controller.py:80 | for a positive quantity, a long gains exactly when ltp > average and a short gains exactly when ltp < average. P&L is zero at the average price. |
| MarketData.PositionRowSpec | Trading-backend/app/controllers/market_data_controller.py:78-90 | ltp and instrument come from the first stock with the symbol when there is one, else from the position's current price and symbol; the other fields are copied and pnl follows the side |
| MarketData.PositionsOfUserExactly | Trading-backend/app/controllers/market_data_controller.py:71 | exactly the user's positions, each as many times as stored |
| MarketData.GetPositions | Trading-backend/app/controllers/market_data_controller.py:69-91 | one row per position of the user, in query order; empty when there is none |
| Auth.FirstUserByEmail | Trading-backend/app/routes/auth.py:38 | a user with the email, or none exactly when no user has it |
| Auth.UserIndexById | Trading-backend/app/routes/auth.py:94 | the position of a user with the id, or −1 exactly when none has it |
| Auth.AuthenticateSpec | Trading-backend/app/routes/auth.py:50-63 | unknown email and wrong password fail with the same 400 detail. A bearer token for the user's id is issued exactly when the user exists and the password verifies. |
| Auth.ParseLoginPayloadSpec | Trading-backend/app/routes/auth.py:18-36 | JSON is accepted exactly when it is an object with both fields. A form takes `email`, falling back to `username`, plus `password`. Any other content type, or a body lacking a field, gives 422. |
| Auth.NonObjectJsonCrashes | Trading-backend/app/routes/auth.py:20-25 | on a JSON body that is not an object, the handler as written answers 500 where the corrected one answers 422; elsewhere they agree |
| Auth.FrontendLoginFormAccepted | Trading-backend/app/routes/auth.py:26-33 | the frontend's login form, with the email under `username`, parses to that email and password |
| Auth.LoginAccessTokenSpec | Trading-backend/app/routes/auth.py:16-48 | the token route with the corrected parser fails only with 422 or the credentials error, and succeeds exactly when the payload parses and authenticates |
| Auth.LoginAccessTokenAsWrittenSpec | Trading-backend/app/routes/auth.py:16-48 | the token route as written fails only with 422, the credentials error or 500. It answers 500 exactly for a JSON body that is not an object, and otherwise agrees with the corrected route. |
| Auth.ApplyUpdateSpec | Trading-backend/app/routes/auth.py:98-115 | the id is kept. A changed email is the supplied one and held by no user. The name changes only to a non-empty supplied name. The hash changes only to the new password's hash, after the current password verified. On success a supplied email is the stored email, and a supplied new password's hash is the stored hash. |
| Auth.ApplyUpdateRejections | Trading-backend/app/routes/auth.py:98-114 | each of these fails with 400: a current password without a new one, a new one without the current one, a wrong current password. An email held by another user is "Email already in use", and an unchanged email never is. |
| Auth.UpdateKeepsUnique | Trading-backend/app/routes/auth.py:98-102 | a successful update keeps ids and emails unique, when requests run one at a time |
| Auth.NextId | Trading-backend/app/routes/auth.py:147-154 | the id given to a new row exceeds every existing id |
| Auth.UserTable.UpdateCurrentUser | Trading-backend/app/routes/auth.py:82-122 | a bad token gives 401 and an unknown user 404, then the checks in source order. Any failure leaves the table unchanged. Success replaces exactly the user's row. Ids and emails stay unique. |
| Auth.UserTable.CreateUser | Trading-backend/app/routes/auth.py:124-155 | each request runs as one step. An existing email is refused with 400 and nothing is added. Otherwise exactly one row is appended: the email, the name, the hash of the password and a fresh id. |
| Dashboard.MergeScales | Trading-frontend/trading-app/src/components/EnhancedDashboard.js:30-35 | the `forEach`/`push` loop yields the preferred scales followed by the new fetched ones |
| Dashboard.AppendNewSpec | Trading-frontend/trading-app/src/components/EnhancedDashboard.js:30-35 | the start list is a prefix of the result. The result holds exactly the start and fetched scales, without duplicates. |
| Dashboard.AppendNewOrder | Trading-frontend/trading-app/src/components/EnhancedDashboard.js:31-35 | appended scales follow the order of their first occurrence in the fetched list |
| Dashboard.MergedScalesSpec | Trading-frontend/trading-app/src/components/EnhancedDashboard.js:22-35 | the merged list starts '1m','5m','2d','4d', contains every fetched scale once, and appends new ones in first-occurrence order |
| Dashboard.DashboardState.constructor | Trading-frontend/trading-app/src/components/EnhancedDashboard.js:9-18 | the initial state: no scales or strategies, scale '5m', no strategy, no data, not loading |
| Dashboard.DashboardState.LoadOptions | Trading-frontend/trading-app/src/components/EnhancedDashboard.js:24-43 | a failed fetch changes nothing. Otherwise the merged scales and strategies are stored and the selected scale is `merged[1] \|\| merged[0]`, always '5m'. The selected strategy is the first strategy's id, or unchanged when there are none. |
| Dashboard.DashboardState.LoadData | Trading-frontend/trading-app/src/components/EnhancedDashboard.js:62-73 | without an instrument nothing is requested or changed. Otherwise the instrument's history is requested at the selected scale and stored on success, and loading ends false either way. |
| Dashboard.FormatScaleLabelSpec | Trading-frontend/trading-app/src/components/EnhancedDashboard.js:100-103 | a string ending in 'd' is upper-cased letter by letter and any other value is returned unchanged. No label ends in 'd', so formatting is idempotent. |
| Dashboard.FormatCurrencySpec | Trading-frontend/trading-app/src/components/EnhancedDashboard.js:94-98 | suffix M from 1,000,000 up, K from 1000 up, none below. The amount times the suffix's multiplier is the value. |
| Navbar.UserInitialSpec | Trading-frontend/trading-app/src/components/Navbar.js:18 | the initial comes from the name if non-empty, else the email. It is empty exactly when that text is blank, and otherwise is its first non-blank character upper-cased. |
| Navbar.AvatarText | Trading-frontend/trading-app/src/components/Navbar.js:163 | one character: the initial, or '?' |
| Navbar.ClearIfSameSpec | Trading-frontend/trading-app/src/components/Navbar.js:22-24 | a timer clears the toast only if it still carries the timer's message, and leaves it alone otherwise |
| Navbar.EmptyResultIsPlainFailure | Trading-frontend/trading-app/src/components/Navbar.js:32-51 | an empty array or non-array result is a failure, and never asks for the broker login |
| Navbar.NavbarState.ShowToast | Trading-frontend/trading-app/src/components/Navbar.js:20-25 | shows the toast and queues its timer; no shown toast outlives its timers |
| Navbar.NavbarState.FireTimer | Trading-frontend/trading-app/src/components/Navbar.js:22-24 | the oldest timer applies the conditional clear and keeps the state's link between the shown toast and the latest timer; the toast left after all timers fire is unchanged by firing one |
| Navbar.TimersClearToast | Trading-frontend/trading-app/src/components/Navbar.js:19-25 | once every pending timer has fired, no toast is left: the latest timer carries the shown toast's message, and each older timer either clears the toast or leaves it |
| Navbar.NavbarState.StartBrokerLogin | Trading-frontend/trading-app/src/components/Navbar.js:52-63 | the login URL is opened exactly when one came back; the toast says which of the three outcomes happened |
| Navbar.NavbarState.LoadInstruments | Trading-frontend/trading-app/src/components/Navbar.js:27-70 | only a non-empty array succeeds. Success stores the instruments, sets the details to the selection or else the first instrument, opens the panel, and notifies the parent only when nothing was selected. Failure clears the instruments and details, sets the error and closes the panel. A 401 or 503 asks for the broker login URL; any other failure shows the error toast. The fetching flag ends false on every path. |
| HelpPage.FilterFaqsSpec | Trading-frontend/trading-app/src/pages/HelpPage.js:42-45 | an FAQ is shown exactly when the lower-cased query occurs in its lower-cased question or answer. The result is a subsequence of the FAQs, and filtering again changes nothing. |
| HelpPage.EmptyQueryShowsAll | Trading-frontend/trading-app/src/pages/HelpPage.js:42-45 | the empty query shows every FAQ |
| HelpPage.QuestionHitIsShown | Trading-frontend/trading-app/src/pages/HelpPage.js:42-43 | a case-insensitive occurrence of the query in a question shows that FAQ |
| HelpPage.ToggleFaqSpec | Trading-frontend/trading-app/src/pages/HelpPage.js:47-49 | after a toggle nothing or only that id is open. It is nothing exactly when the id was open, and toggling twice from another state closes it. |
| SignupPage.SignupForm.HandleSubmit | Trading-frontend/trading-app/src/pages/SignupPage.js:17-42 | mismatched passwords set 'Passwords do not match' and call nothing, navigate nowhere and leave loading alone. Otherwise a resolved signup navigates to '/dashboard' with the error cleared, and a missing or rejected one sets 'Failed to create an account'. Loading ends false. |
| ZerodhaCallback.CallbackPage.RunEffect | Trading-frontend/trading-app/src/pages/ZerodhaCallback.js:13-40 | a missing token clears the status, sets the retry error and makes no call. At most one session call is ever made, because the guard is set before it, so a failed call is never retried. Success shows the connected status and schedules '/dashboard/nifty50' after 1200 ms. Failure clears the status and shows the failure error. |
| AuthContext.AuthProvider.constructor | Trading-frontend/trading-app/src/context/AuthContext.js:7-8 | no user, loading |
| AuthContext.AuthProvider.Restore | Trading-frontend/trading-app/src/context/AuthContext.js:10-17 | a stored non-empty token becomes the user; storage is untouched; loading ends false |
| AuthContext.AuthProvider.Login | Trading-frontend/trading-app/src/context/AuthContext.js:19-29 | success stores the token under 'token', sets the user and returns true. Failure returns false and changes nothing. |
| AuthContext.AuthProvider.Logout | Trading-frontend/trading-app/src/context/AuthContext.js:31-34 | 'token' is removed, every other entry kept, and the user cleared |

## Left out

- Rendering is not modelled: Chart.js drawing, the candlestick canvas plugin, the zoom and pan plugin, JSX markup and CSS.
- Number rendering (`toFixed`, `toLocaleString`) and `Date` parsing are not modelled. Timestamps are integers and prices exact reals, so floating-point rounding is not captured.
- Dashboard.FormatCurrencySpec: states the suffix and the scaled amount, not the two-decimal string.
- Network calls, React effect scheduling and the asynchrony of state setters are not modelled. Each fetch outcome is a parameter, and each handler runs to completion as one step.
- ZerodhaCallback.CallbackPage.RunEffect: assumes the session call settles before the effect runs again. The at-most-one-call guarantee does not depend on this.
- `setTimeout` is represented only by what it schedules: the toast timers (all 3.5 s, so they fire in order) and the callback's redirect record.
- `window.open` is represented by the URL it would open.
- The axios client and its interceptor are not part of this model.
- The chart polling interval itself is not modelled, only the merge it performs on each update.
- The rate limiter's `time.time()` is the parameter `now`.
- JWT encoding and decoding, password hashing and verification, and token creation are not modelled. They are the opaque functions of a `Security` value, and the decoded token subject is a parameter.
- Auth.LoginAccessTokenSpec: describes the corrected route. The route as written is `Auth.LoginAccessTokenAsWrittenSpec`. Both assume `verify_password` never raises, so a `ValueError` from it, which this route does not catch and which reaches the client as 500, is not modelled.
- Auth.ApplyUpdateSpec: assumes verification never raises. A `verify_password` that raises `ValueError` on a malformed hash, which the route turns into 401, is not modelled.
- Pydantic validation (the email format, and JSON fields that are not strings) is not modelled. A JSON body is either an object of string fields, another JSON value, or invalid.
- The users table is a sequence of rows. The database's auto-increment id is modelled by `NextId`, one above the largest id.
- Auth.UserTable: each backend request is modelled as one atomic step. The routes run on a thread pool, and the email check and the commit are separate steps. So a race between two overlapping sign-ups or updates with the same email is not captured. Such a race yields either a duplicate row or a database error answered with 500, and the unique-email invariant (`Valid`, `UpdateKeepsUnique`, `CreateUser`) holds only when requests do not overlap.
- SQLAlchemy sessions are not modelled. A failed request persists nothing, which the model expresses by writing the table only at the end.
- The user schema module shown is older than the routes: it lacks `LoginRequest` and `UserUpdate`, and its `UserCreate` has no `name`. The model follows the routes: every update field optional, and an optional name on sign-up.
- MarketData.GetPositions: every column of the stock and position tables is nullable, but the model's `Stock` and `Position` fields are total values. A NULL `last_price`, `average_price` or `quantity` makes the P&L arithmetic raise `TypeError`, which the service answers with 500. That failure is not modelled.
- `read_current_user` and `load_financial_data` are not part of this model.
- The authentication context provides no `signup` function, so with the app as written every sign-up with matching passwords ends in 'Failed to create an account'. The model covers this as the `NoSignupFunction` case.
- The chart sort is an insertion sort by date. Stability of JavaScript's `sort` among equal dates is not claimed.
- Case mapping, `includes` and `trim` cover ASCII letters and the common white-space characters only.

## Findings

| source | as written | input that shows it | evidently intended | confidence | as-written member | corrected member |
|---|---|---|---|---|---|---|
| Trading-backend/app/routes/auth.py:20-25 | a JSON body that is valid JSON but not an object reaches `LoginRequest(**payload)`. This raises `TypeError`, which the `except (ValidationError, ValueError)` does not catch, so the request fails with 500. | `POST /login/access-token` with content type `application/json` and body `[]` | the 422 "Invalid login payload. Provide email and password." that every other unusable body gets | not executed | Auth.ParseLoginPayloadAsWritten | Auth.ParseLoginPayload |
