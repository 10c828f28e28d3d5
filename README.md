# Fire-disaster management client: a verified model

The repository is a React single-page application for wildfire awareness.
A signed-in user gets a dashboard with four tabs:

- an overview card with a weather-based fire-risk label;
- a map page that scores fire risk for any clicked point;
- a form for reporting a fire with a photo;
- a list of alerts.

Authentication goes through a hosted identity provider. This project models
the application's logic in Dafny and proves what that logic promises.

The model covers:

- **The two risk scorers.** The map page computes four clamped factors, their mean, rounded
  stored values and a four-band classification. The overview card has its own unclamped
  three-factor copy. The two are kept apart, as in the source, and compared.
- **The alert list.** Marking read, the three filters, the unread counter, the relative-time
  label and the background classes, over a `NotificationCenter` class.
- **The dashboard shell.** Path-to-tab selection, the mouse-driven sidebar, the dark-mode
  toggle and the one-shot position request.
- **The fire-report form.** Its state machine as a class with one method per handler and
  timer, the submit-enabled rule and the report ID.
- **The sign-up handler.** The validation order, the loading window around the awaited call,
  and the mapping of results to messages.
- **The route guards, the auth wrapper's inner routes and the route table.**
- **The authentication context.** Name derivation, login and sign-up result mapping, and the
  user/loading state.

Things outside the program become parameters or event methods: the weather provider, browser
geolocation, the identity provider, timers and the clock. Examples are a reply arriving, a timer
firing, or the clock reading `now`.

One module per source file:

| file | module | source |
|---|---|---|
| `risk_assessment.dfy` | `RiskAssessment` | `RiskAssessment.tsx` |
| `overview.dfy` | `Overview` | `Overview.tsx` |
| `notifications.dfy` | `Notifications` | `Notifications.tsx` |
| `dashboard.dfy` | `Dashboard` | `Dashboard.tsx` |
| `fire_reporting.dfy` | `FireReporting` | `FireReporting.tsx` |
| `signup.dfy` | `Signup` | `Signup.tsx` |
| `app.dfy` | `App` | `App.tsx` |
| `auth_context.dfy` | `AuthContext` | `AuthContext.tsx` |

There are also three shared modules:

- `Wrappers`, for `T | null`;
- `Strings`, for prefix matching of the dashboard wildcard route and for `includes`;
- `RiskLevel`, for the four bands both scorers use.

## Model

| member | source | states |
|---|---|---|
| RiskAssessment.Clamp | fire_disaster_management_-main/src/components/Dashboard/RiskAssessment.tsx:62-65 | `Math.max(0, Math.min(100, x))` lands in [0, 100], keeps values already there, and sends values below/above to 0/100 |
| RiskAssessment.Round | fire_disaster_management_-main/src/components/Dashboard/RiskAssessment.tsx:69-73 | `Math.round` gives the integer within half a unit of its argument, halves rounding up |
| RiskAssessment.RoundOfInteger | fire_disaster_management_-main/src/components/Dashboard/RiskAssessment.tsx:69-73 | an integral factor is stored unchanged |
| RiskAssessment.TempRisk | fire_disaster_management_-main/src/components/Dashboard/RiskAssessment.tsx:62 | temperature risk lies in [0, 100]; it is 0 at or below 60 degrees and 100 at or above 110 |
| RiskAssessment.HumidityRisk | fire_disaster_management_-main/src/components/Dashboard/RiskAssessment.tsx:63 | humidity risk lies in [0, 100] and is 0 at humidity 100 or more |
| RiskAssessment.WindRisk | fire_disaster_management_-main/src/components/Dashboard/RiskAssessment.tsx:64 | wind risk lies in [0, 100]; it is 0 for speed 0 or less and 100 for speed 20 or more |
| RiskAssessment.VegetationRisk | fire_disaster_management_-main/src/components/Dashboard/RiskAssessment.tsx:65 | vegetation risk lies in [0, 100], is 0 at humidity 100 or more, and never exceeds humidity risk |
| RiskAssessment.MeanRisk | fire_disaster_management_-main/src/components/Dashboard/RiskAssessment.tsx:66 | the unrounded overall score, the mean of the four clamped factors, lies in [0, 100] |
| RiskAssessment.CalculateRisk | fire_disaster_management_-main/src/components/Dashboard/RiskAssessment.tsx:61-75 | every stored field is an integer in [0, 100] within half a point of its own factor formula (temperature, humidity, wind, vegetation), vegetation never exceeds humidity, and the stored overall is within half a point of the true mean |
| RiskAssessment.TempRiskNonDecreasing | fire_disaster_management_-main/src/components/Dashboard/RiskAssessment.tsx:62 | a hotter reading never lowers temperature risk |
| RiskAssessment.HumidityRiskNonIncreasing | fire_disaster_management_-main/src/components/Dashboard/RiskAssessment.tsx:63-65 | more humid air never raises humidity risk or vegetation risk |
| RiskAssessment.WindRiskNonDecreasing | fire_disaster_management_-main/src/components/Dashboard/RiskAssessment.tsx:64 | more wind never lowers wind risk |
| RiskAssessment.RoundNonDecreasing | fire_disaster_management_-main/src/components/Dashboard/RiskAssessment.tsx:69-73 | rounding preserves order, so the stored values keep the factors' monotonicity |
| RiskAssessment.RoundAtLeast | fire_disaster_management_-main/src/components/Dashboard/RiskAssessment.tsx:69-73 | `Math.round(x)` is at least n exactly when x is at least n - 0.5 |
| RiskAssessment.GetRiskLevel | fire_disaster_management_-main/src/components/Dashboard/RiskAssessment.tsx:93-98 | the band is Low, Moderate, High or Extreme exactly when the score is in [..,25), [25,50), [50,75) or [75,..), each with its own badge classes |
| RiskAssessment.GetRiskLevelMonotone | fire_disaster_management_-main/src/components/Dashboard/RiskAssessment.tsx:93-97 | a higher score never falls in a lower band |
| RiskAssessment.BandBoundaries | fire_disaster_management_-main/src/components/Dashboard/RiskAssessment.tsx:93-97 | the strict comparisons put 24 in Low, 25 and 49 in Moderate, 50 in High, and 75 and 100 in Extreme |
| RiskAssessment.BarColor | fire_disaster_management_-main/src/components/Dashboard/RiskAssessment.tsx:79-84 | the bar colour lookup is total on the four bands and yields one of the four bar colours |
| RiskAssessment.BarColorInjective | fire_disaster_management_-main/src/components/Dashboard/RiskAssessment.tsx:79-84 | distinct bands get distinct bar colours |
| RiskAssessment.RiskLevelBarColor | fire_disaster_management_-main/src/components/Dashboard/RiskAssessment.tsx:77-84 | the bar for a score is green, yellow, orange or red exactly when the score is in the Low, Moderate, High or Extreme band |
| RiskAssessment.AssessedLevel | fire_disaster_management_-main/src/components/Dashboard/RiskAssessment.tsx:129-131 | the badge shown for an observation is that of the rounded overall, so it is Low, Moderate, High or Extreme exactly when the unrounded mean is below 24.5, in [24.5, 49.5), in [49.5, 74.5), or at least 74.5 |
| RiskAssessment.WorkedExample | fire_disaster_management_-main/src/components/Dashboard/RiskAssessment.tsx:61-97 | 95 degrees, humidity 10 and wind 20 give stored factors 70/100/100/100, overall 93 (from a mean of 92.5), classified Extreme |
| RiskAssessment.RiskView.constructor | fire_disaster_management_-main/src/components/Dashboard/RiskAssessment.tsx:31-34 | the page starts with no marker, no weather, no assessment and not loading |
| RiskAssessment.RiskView.MapClicked | fire_disaster_management_-main/src/components/Dashboard/RiskAssessment.tsx:100-107 | a map click pins the marker and starts loading; the shown weather and assessment stay, and a stored assessment still belongs to the stored weather |
| RiskAssessment.RiskView.WeatherArrived | fire_disaster_management_-main/src/components/Dashboard/RiskAssessment.tsx:45-58 | a reply stores the observation and the assessment computed from it, and ends loading |
| RiskAssessment.RiskView.WeatherFailed | fire_disaster_management_-main/src/components/Dashboard/RiskAssessment.tsx:54-58 | a failed fetch only ends loading; marker, weather and assessment are unchanged |
| Overview.Overall | fire_disaster_management_-main/src/components/Dashboard/Overview.tsx:27-30 | the card's score is the unclamped mean of three factors: 3 x overall = 2 temp + 5 wind - 1.5 humidity + 110, with no vegetation term |
| Overview.GetRiskLevel | fire_disaster_management_-main/src/components/Dashboard/Overview.tsx:26-35 | the card classifies its own score with the same strict 25/50/75 cut-offs as the detail page |
| Overview.GetRiskLevelClosedForm | fire_disaster_management_-main/src/components/Dashboard/Overview.tsx:26-35 | with s = 2 temp + 5 wind - 1.5 humidity the band is Low iff s < -35, Moderate iff -35 <= s < 40, High iff 40 <= s < 115, Extreme iff s >= 115 |
| Overview.GetRiskLevelMonotone | fire_disaster_management_-main/src/components/Dashboard/Overview.tsx:26-35 | the band never drops when temperature or wind rises or humidity falls |
| Overview.NegativeOverallIsLow | fire_disaster_management_-main/src/components/Dashboard/Overview.tsx:27-31 | with no clamping, humidity above 100 at 20 degrees and no wind gives a negative score, classified Low |
| Overview.HotEnoughIsExtreme | fire_disaster_management_-main/src/components/Dashboard/Overview.tsx:27-34 | for any humidity and wind some temperature pushes the score above 100, which is Extreme |
| Overview.NeutralWeatherIsLow | fire_disaster_management_-main/src/components/Dashboard/Overview.tsx:27-31 | 20 degrees, humidity 100 and no wind give overall 0, Low |
| Overview.CurrentRisk | fire_disaster_management_-main/src/components/Dashboard/Overview.tsx:70-72 | `currentRisk` is `'Loading'` exactly when no weather is present, and otherwise the label of the card's band |
| Overview.GetRiskColor | fire_disaster_management_-main/src/components/Dashboard/Overview.tsx:37-45 | a risk string gets the gray default exactly when it is not one of the four band labels |
| Overview.RiskColorsDistinct | fire_disaster_management_-main/src/components/Dashboard/Overview.tsx:37-45 | the four band labels get four distinct colours, none of them gray |
| Overview.CurrentRiskGrayIffLoading | fire_disaster_management_-main/src/components/Dashboard/Overview.tsx:37-72 | the card is gray exactly while the weather is missing |
| Overview.OnlyTheDetailedScoreIsBounded | fire_disaster_management_-main/src/components/Dashboard/Overview.tsx:27-30 | the detailed mean always lies in [0, 100], while the card's score goes below 0 and above 100 |
| Overview.DetailedMeanAtSeventyDegrees | fire_disaster_management_-main/src/components/Dashboard/RiskAssessment.tsx:62-66 | the detailed mean at 70 degrees, humidity 100 and no wind is 5 |
| Overview.DetailedAtSeventyDegrees | fire_disaster_management_-main/src/components/Dashboard/RiskAssessment.tsx:61-75 | the detailed page stores 20/0/0/0 with overall 5 for that weather |
| Overview.CopiesDisagree | fire_disaster_management_-main/src/components/Dashboard/Overview.tsx:26-35 | on the same numbers (70, 100, 0) the detail page says Low and the card says Moderate |
| Notifications.FilterNotifications | fire_disaster_management_-main/src/components/Dashboard/Notifications.tsx:84-90 | filtering never lengthens the list and every entry it keeps passes the selected filter |
| Notifications.FilterSelectsShownInOrder | fire_disaster_management_-main/src/components/Dashboard/Notifications.tsx:84-90 | the filtered list is the original list restricted to exactly the entries the filter shows (unread ones, alerts, or all), in original order |
| Notifications.FilterAllIsIdentity | fire_disaster_management_-main/src/components/Dashboard/Notifications.tsx:84-90 | the `'all'` filter returns the whole list |
| Notifications.UnreadCount | fire_disaster_management_-main/src/components/Dashboard/Notifications.tsx:130 | the unread counter never exceeds the list length and is positive when the first entry is unread |
| Notifications.UnreadCountCountsUnreadEntries | fire_disaster_management_-main/src/components/Dashboard/Notifications.tsx:130 | the unread counter equals the number of positions whose entry is not read |
| Notifications.UnreadCountZeroIffAllRead | fire_disaster_management_-main/src/components/Dashboard/Notifications.tsx:130 | the unread counter is 0 exactly when every entry is read |
| Notifications.UnreadCountMonotone | fire_disaster_management_-main/src/components/Dashboard/Notifications.tsx:130 | reading more entries (same list otherwise) never raises the unread counter |
| Notifications.MarkRead | fire_disaster_management_-main/src/components/Dashboard/Notifications.tsx:70-76 | exactly the entries with the given id become read; length, order, every other field and every other entry stay unchanged |
| Notifications.MarkAllRead | fire_disaster_management_-main/src/components/Dashboard/Notifications.tsx:78-82 | every entry becomes read and nothing else about any entry changes |
| Notifications.MarkReadIdempotent | fire_disaster_management_-main/src/components/Dashboard/Notifications.tsx:70-76 | marking the same id read twice is the same as once |
| Notifications.MarkReadNeverRaisesUnreadCount | fire_disaster_management_-main/src/components/Dashboard/Notifications.tsx:70-76 | marking an entry read never raises the unread counter |
| Notifications.MarkAllReadClearsUnreadCount | fire_disaster_management_-main/src/components/Dashboard/Notifications.tsx:78-82 | after marking all read the unread counter is 0 |
| Notifications.FormatTime | fire_disaster_management_-main/src/components/Dashboard/Notifications.tsx:115-128 | the minutes form is used exactly when less than an hour has passed, the hours form (1 to 23 hours) exactly when at least an hour and less than a day has passed, each count being the floor of the elapsed time in that unit |
| Notifications.NotificationBg | fire_disaster_management_-main/src/components/Dashboard/Notifications.tsx:103-113 | the classes are the kind's colours, one space, then `bg-opacity-30` when read and `bg-opacity-60` when unread |
| Notifications.MockNotifications | fire_disaster_management_-main/src/components/Dashboard/Notifications.tsx:20-65 | the page loads five entries |
| Notifications.MockNotificationsCounts | fire_disaster_management_-main/src/components/Dashboard/Notifications.tsx:20-67 | on load two entries are unread and two are alerts |
| Notifications.MockNotificationsTimes | fire_disaster_management_-main/src/components/Dashboard/Notifications.tsx:27-62 | on load the newest entry is 30 minutes old and the oldest 12 hours old |
| Notifications.NotificationCenter.constructor | fire_disaster_management_-main/src/components/Dashboard/Notifications.tsx:15-16 | the page starts with an empty list and the `'all'` filter |
| Notifications.NotificationCenter.Load | fire_disaster_management_-main/src/components/Dashboard/Notifications.tsx:18-68 | mounting installs the mock entries |
| Notifications.NotificationCenter.MarkAsRead | fire_disaster_management_-main/src/components/Dashboard/Notifications.tsx:70-76 | the list becomes `MarkRead` of the old list and the unread counter does not grow |
| Notifications.NotificationCenter.MarkAllAsRead | fire_disaster_management_-main/src/components/Dashboard/Notifications.tsx:78-82 | the list becomes `MarkAllRead` of the old list and the unread counter is 0 |
| Notifications.NotificationCenter.SetFilter | fire_disaster_management_-main/src/components/Dashboard/Notifications.tsx:16 | selecting a filter changes only the filter |
| Notifications.NotificationCenter.Filtered | fire_disaster_management_-main/src/components/Dashboard/Notifications.tsx:84-90 | the rendered list is the selected filter applied to the stored list: no longer than it, every entry passing the filter, and under `'all'` the stored list itself |
| Strings.ContainsIffOccurs | fire_disaster_management_-main/src/components/Dashboard/Dashboard.tsx:45-47 | `includes` holds exactly when the marker occurs at some position of the path |
| Strings.MissingCharNotContained | fire_disaster_management_-main/src/components/Dashboard/Dashboard.tsx:45-47 | a path lacking one of a marker's characters does not include the marker |
| Strings.Contains | fire_disaster_management_-main/src/components/Dashboard/Dashboard.tsx:45-47 | `includes` holds whenever the marker is a prefix of the path, and only when the marker is no longer than the path |
| Dashboard.GetCurrentTab | fire_disaster_management_-main/src/components/Dashboard/Dashboard.tsx:42-49 | both forms of the dashboard root select the overview, and a tab other than the overview is chosen only when its marker is in the path and no earlier marker is |
| Dashboard.ReportTakesPriority | fire_disaster_management_-main/src/components/Dashboard/Dashboard.tsx:45 | a non-root path that includes `/report` is the report tab even if it also includes `/risk` or `/notifications` |
| Dashboard.RiskBeforeNotifications | fire_disaster_management_-main/src/components/Dashboard/Dashboard.tsx:46-47 | without `/report`, a path including `/risk` is the risk tab even if it includes `/notifications` |
| Dashboard.NotificationsAfterEarlierMarkers | fire_disaster_management_-main/src/components/Dashboard/Dashboard.tsx:47 | a non-root path without `/report` or `/risk` that includes `/notifications` is the alerts tab |
| Dashboard.UnknownPathIsOverview | fire_disaster_management_-main/src/components/Dashboard/Dashboard.tsx:48 | a path with none of the three markers falls back to the overview |
| Dashboard.TabPathsSelectTheirTab | fire_disaster_management_-main/src/components/Dashboard/Dashboard.tsx:35-49 | each sidebar entry's own path selects that entry's tab |
| Dashboard.DashboardState.constructor | fire_disaster_management_-main/src/components/Dashboard/Dashboard.tsx:16-19 | no location, guard open, light mode, sidebar closed |
| Dashboard.DashboardState.LocationEffect | fire_disaster_management_-main/src/components/Dashboard/Dashboard.tsx:21-22 | a position is requested exactly when geolocation exists and none has been fetched |
| Dashboard.DashboardState.PositionReceivedAsWritten | fire_disaster_management_-main/src/components/Dashboard/Dashboard.tsx:24-29 | as written the callback stores the position and then throws at `updateLocation`, leaving the guard flag as it was |
| Dashboard.DashboardState.PositionReceived | fire_disaster_management_-main/src/components/Dashboard/Dashboard.tsx:24-29 | as intended the callback stores the position and sets the guard flag |
| Dashboard.DashboardState.MouseMoved | fire_disaster_management_-main/src/components/Dashboard/Dashboard.tsx:66-69 | x < 40 opens the sidebar, x > 240 closes it, and anything between leaves it unchanged |
| Dashboard.DashboardState.ToggleDarkMode | fire_disaster_management_-main/src/components/Dashboard/Dashboard.tsx:104 | the button negates dark mode |
| Dashboard.ToggleTwiceRestores | fire_disaster_management_-main/src/components/Dashboard/Dashboard.tsx:104 | two presses restore the theme |
| Dashboard.FirstPositionAsWritten | fire_disaster_management_-main/src/components/Dashboard/Dashboard.tsx:21-33 | as written, on a fresh mount with geolocation the position is requested and stored, then the callback throws at `updateLocation`, and the guard flag stays false |
| Dashboard.FirstPositionAsIntended | fire_disaster_management_-main/src/components/Dashboard/Dashboard.tsx:21-33 | as intended, the callback stores the position without an error and sets the flag, after which the guard refuses another request |
| FireReporting.FireReportForm.constructor | fire_disaster_management_-main/src/components/Dashboard/FireReporting.tsx:5-10 | no image, empty description, severity `moderate`, not loading, not submitted, no location |
| FireReporting.FireReportForm.SubmitEnabled | fire_disaster_management_-main/src/components/Dashboard/FireReporting.tsx:187 | the submit button is enabled only with both a photo and a position, never while loading, and it is disabled exactly when one of these fails |
| FireReporting.FireReportForm.PositionReceived | fire_disaster_management_-main/src/components/Dashboard/FireReporting.tsx:15-20 | the position callback stores the location |
| FireReporting.FireReportForm.ImageChosen | fire_disaster_management_-main/src/components/Dashboard/FireReporting.tsx:28-33 | the first chosen file becomes the selection; an empty choice keeps the previous one |
| FireReporting.FireReportForm.RemoveImage | fire_disaster_management_-main/src/components/Dashboard/FireReporting.tsx:117 | the remove button clears the selection |
| FireReporting.FireReportForm.SeverityChosen | fire_disaster_management_-main/src/components/Dashboard/FireReporting.tsx:147 | the select stores the chosen severity |
| FireReporting.FireReportForm.DescriptionTyped | fire_disaster_management_-main/src/components/Dashboard/FireReporting.tsx:165 | the text area stores the description |
| FireReporting.FireReportForm.Submit | fire_disaster_management_-main/src/components/Dashboard/FireReporting.tsx:35-37 | submitting sets loading |
| FireReporting.FireReportForm.SubmitTimerFires | fire_disaster_management_-main/src/components/Dashboard/FireReporting.tsx:40-42 | the first timer clears loading and sets submitted |
| FireReporting.FireReportForm.ResetTimerFires | fire_disaster_management_-main/src/components/Dashboard/FireReporting.tsx:44-49 | the reset clears submitted, image and description and restores severity `moderate`; loading and location are untouched |
| FireReporting.ReportCycle | fire_disaster_management_-main/src/components/Dashboard/FireReporting.tsx:35-51 | one report from an empty form through both timers ends with the form reset (no image, empty description, default severity, not loading, not submitted) and the location kept; the general submit-enabled rule is `FireReportForm.SubmitEnabled` |
| FireReporting.Decimal | fire_disaster_management_-main/src/components/Dashboard/FireReporting.tsx:65 | `toString` of the clock reading is a non-empty string of decimal digits with no leading zero except for 0 itself |
| FireReporting.DecimalRoundTrip | fire_disaster_management_-main/src/components/Dashboard/FireReporting.tsx:65 | the digits of `toString` denote the number again |
| FireReporting.DecimalLength | fire_disaster_management_-main/src/components/Dashboard/FireReporting.tsx:65 | a number of at least 10^k has more than k digits |
| FireReporting.Last | fire_disaster_management_-main/src/components/Dashboard/FireReporting.tsx:65 | `slice(-k)` keeps the last k characters, or the whole string when it is shorter |
| FireReporting.LastDigitsValue | fire_disaster_management_-main/src/components/Dashboard/FireReporting.tsx:65 | the last k digits of a number denote its remainder by 10^k |
| FireReporting.ReportId | fire_disaster_management_-main/src/components/Dashboard/FireReporting.tsx:65 | the ID is `FR-` followed by one to six digits |
| FireReporting.ReportIdShape | fire_disaster_management_-main/src/components/Dashboard/FireReporting.tsx:65 | the ID's digits are the clock reading modulo 1000000, and the ID has 9 characters once the reading has six digits |
| Signup.SignupForm.constructor | fire_disaster_management_-main/src/components/Auth/Signup.tsx:7-13 | all fields empty, not loading, no error |
| Signup.SignupForm.BeginSubmit | fire_disaster_management_-main/src/components/Auth/Signup.tsx:17-33 | the error is cleared first; a mismatch gives `Passwords must match` whatever the length; a short matching password gives the length error; in both cases `signup` is not called and loading is untouched; otherwise `signup` is called with loading raised |
| Signup.SignupForm.SubmitSettled | fire_disaster_management_-main/src/components/Auth/Signup.tsx:33-47 | `true` navigates to `/dashboard`, `confirm` gives the check-email message, anything else the failure message, a rejection the unexpected-error message, and loading ends false on every way out |
| Signup.SignupForm.Submit | fire_disaster_management_-main/src/components/Auth/Signup.tsx:17-48 | a whole submission is the two halves in sequence: validation messages without a call, or the call with its outcome mapped to a navigation or message and loading false afterwards |
| Signup.MismatchReportedFirst | fire_disaster_management_-main/src/components/Auth/Signup.tsx:21-29 | a too-short, mismatched pair is reported as a mismatch and `signup` is not called |
| Signup.RetryReplacesMessage | fire_disaster_management_-main/src/components/Auth/Signup.tsx:19-41 | a failed attempt's message is cleared by the next, successful submission |
| Signup.LoadingSpansTheCall | fire_disaster_management_-main/src/components/Auth/Signup.tsx:31-47 | while the call is in flight loading is true (the button is disabled), and after it settles, whatever the outcome, loading is false |
| App.ProtectedRoute | fire_disaster_management_-main/src/App.tsx:12-17 | loading shows the loading screen; otherwise the children are rendered exactly when there is a user; otherwise the redirect goes to `/login` |
| App.InnerRoute | fire_disaster_management_-main/src/App.tsx:74-77 | the inner routes render the login form exactly at `/login`, the sign-up form exactly at `/signup`, and no form on any other path |
| App.AuthWrapper | fire_disaster_management_-main/src/App.tsx:20-34 | never renders protected content; loading first, then a user is redirected to `/dashboard`, then `/` to `/login`; a visitor elsewhere gets the landing page exactly once loading is over, with the form the inner routes pick for the path |
| App.UnderDashboard | fire_disaster_management_-main/src/App.tsx:114 | the dashboard wildcard matches `/dashboard` itself and every path that continues it with a `/`, and nothing else |
| App.Route | fire_disaster_management_-main/src/App.tsx:109-120 | the dashboard and every path below it go through `ProtectedRoute`, every other path through `AuthWrapper` |
| App.OnlyUsersSeeDashboard | fire_disaster_management_-main/src/App.tsx:12-17 | on any path, the dashboard is rendered exactly for a signed-in user, after loading, on a dashboard path |
| App.UsersNeverSeeForms | fire_disaster_management_-main/src/App.tsx:27-29 | a signed-in user, once loading is over, never gets the login or sign-up landing page |
| App.LoadingHidesEveryRoute | fire_disaster_management_-main/src/App.tsx:12-25 | while loading, every path, signed in or not, shows the loading screen |
| App.RejectedFetchShowsLoading | fire_disaster_management_-main/src/App.tsx:12-25 | after a rejected session fetch the provider is still loading, so every path keeps showing the loading screen |
| App.OneRedirectSettles | fire_disaster_management_-main/src/App.tsx:109-120 | following a redirect once never leads to another redirect |
| App.SignedInLoginReachesDashboard | fire_disaster_management_-main/src/App.tsx:27-29 | a signed-in user at `/login` is sent to `/dashboard`, where the dashboard is shown |
| App.VisitorReachesLoginForm | fire_disaster_management_-main/src/App.tsx:15-34 | a visitor at a dashboard path is sent to `/login`, where the landing page shows the login form |
| AuthContext.EmailPrefix | fire_disaster_management_-main/src/contexts/AuthContext.tsx:47 | `split('@')[0]` is a prefix of the email without `@`, ending at the first `@` or at the end of the email |
| AuthContext.EmailPrefixOfAddress | fire_disaster_management_-main/src/contexts/AuthContext.tsx:47 | splitting `local@rest` returns `local` whenever `local` has no `@` |
| AuthContext.EmailPrefixWithoutAt | fire_disaster_management_-main/src/contexts/AuthContext.tsx:47 | an email without `@` is its own name |
| AuthContext.HasFullName | fire_disaster_management_-main/src/contexts/AuthContext.tsx:47 | a full name counts exactly when it is present and non-empty; a missing or empty one falls through to the email |
| AuthContext.DisplayName | fire_disaster_management_-main/src/contexts/AuthContext.tsx:47 | the name is `full_name` when it is non-empty, otherwise exactly `split('@')[0]` of the email (empty if missing), which is a prefix of the email without `@` |
| AuthContext.NoNameNoEmail | fire_disaster_management_-main/src/contexts/AuthContext.tsx:46-47 | no full name and no email give the empty name |
| AuthContext.ToUser | fire_disaster_management_-main/src/contexts/AuthContext.tsx:43-48 | the user keeps the session user's id, its email or `""`, and exactly the derived display name |
| AuthContext.NameFromAddress | fire_disaster_management_-main/src/contexts/AuthContext.tsx:43-48 | a session user `local@domain` without full name is called `local` |
| AuthContext.LoginResult | fire_disaster_management_-main/src/contexts/AuthContext.tsx:73-85 | `login` is true exactly when sign-in returned without an error and did not throw |
| AuthContext.SignupResultOf | fire_disaster_management_-main/src/contexts/AuthContext.tsx:87-113 | `signup` is false exactly on an error or exception, `confirm` exactly when neither a user nor a session came back, and true otherwise |
| AuthContext.AuthState.constructor | fire_disaster_management_-main/src/contexts/AuthContext.tsx:35-36 | no user and loading |
| AuthContext.AuthState.SessionFetched | fire_disaster_management_-main/src/contexts/AuthContext.tsx:39-51 | a resolved fetch with a session user makes it the user, one without leaves the user unchanged, and both end loading; a rejected fetch changes nothing, so loading never ends |
| AuthContext.AuthState.AuthStateChanged | fire_disaster_management_-main/src/contexts/AuthContext.tsx:55-66 | the user follows the session and becomes null without one |
| AuthContext.AuthState.Logout | fire_disaster_management_-main/src/contexts/AuthContext.tsx:115-118 | logout leaves the user null |
| AuthContext.FetchAndListenerAgree | fire_disaster_management_-main/src/contexts/AuthContext.tsx:42-62 | the session fetch and the listener build the identical user from one session user |

## Left out

- Network calls: the weather `fetch` and its JSON field access are not modelled. An observation
  is an input of `WeatherArrived`, and a failure is `WeatherFailed`.
- The overview card's own fetch and its `hasFetchedWeather` ref are not modelled either. The card
  only sees an optional observation.
- Browser geolocation: the callbacks are methods (`PositionReceived`, `LocationEffect`). The
  geolocation error callback only logs.
- Timers: `setTimeout` expiry is a method call (`SubmitTimerFires`, `ResetTimerFires`), with no
  real time.
- The one-second clock and `Intl.DateTimeFormat` on the overview card are left out.
- All identity-provider calls become inputs: `SignInResponse`, `SignUpResponse`, the
  `SessionReply` passed to `SessionFetched` (rejected, or resolved with an optional session user)
  and the session passed to `AuthStateChanged`.
- AuthContext.AuthState.Logout: sign-out is assumed to return. A rejected `signOut` would skip clearing the user.
- Unsubscribing the listener and the order in which the fetch and the listener race are left
  out.
- Numbers are Dafny reals and integers, not IEEE-754 doubles, so rounding error and NaN from a
  missing JSON field are not modelled.
- Leaflet map setup, marker rendering, all JSX, Tailwind and icon choice (`getNotificationIcon`)
  are display only.
- Notifications.FormatTime: returns which form is used and its count, not the rendered text.
  `toLocaleDateString` is locale formatting.
- Notifications.MockNotifications: the five entries keep their ids, kinds, titles, locations,
  timestamps and read flags, but their message texts are empty. They are display text that no
  rule reads.
- `Dashboard.tsx`'s `handleLogout` and navigation calls are left out. So are the tab buttons'
  navigation and the routes inside the dashboard.
- Dashboard.GetCurrentTab: paths are compared exactly. The router's case-insensitive matching is
  not modelled.
- App.Route: the dashboard wildcard is matched as `/dashboard` or a `/dashboard/` prefix, again
  case-sensitively.
- The `isLogin` flag of `AuthWrapper` is left out. It is set but never read.
- App.InnerRoute: `/login` and `/signup` are matched exactly; the router's case-insensitive and
  trailing-slash matching is not modelled.
- FireReporting.Last: `slice(-0)` in JavaScript returns the whole string, while `Last(s, 0)` is
  empty. The ID always takes six digits, so this case never arises.
- Signup.SignupForm.Submit: the length check counts Unicode scalar values, while JavaScript
  counts UTF-16 code units. The two differ only for characters outside the Basic Multilingual
  Plane.
- The show-password toggle and the input handlers of the sign-up form are left out. They store
  text and do not affect the checks.
- `src/components/Dashboard/SlidebarLayout.tsx` and `src/lib/supabaseClient.ts` are not part of
  this model.

## Findings

| source | as written | input that shows it | evidently intended | confidence | as-written member | corrected member |
|---|---|---|---|---|---|---|
| fire_disaster_management_-main/src/components/Dashboard/Dashboard.tsx:21-33 | The position callback calls `updateLocation`, which the auth context's value (`AuthContext.tsx`:120-126) does not provide, so `updateLocation` is undefined. The call throws a `TypeError` after `setUserLocation` and before `locationFetched.current = true`. | Geolocation available and one successful position callback: the position is stored, then an uncaught `TypeError` is raised and the flag stays false. The effect cannot run again within the mount (its one dependency stays undefined) and a remount re-creates the flag, so the uncaught error is the observable consequence. | The callback completes, sets the flag, and the guard refuses any further request. | not executed | Dashboard.FirstPositionAsWritten | Dashboard.FirstPositionAsIntended |
