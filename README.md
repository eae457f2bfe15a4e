# Financial health backend — a Dafny model

This project models the decision logic of a small financial-health backend. At its centre is
the scoring engine. It takes a profile of monthly income and expenses, savings, debt and debt
payments, emergency fund, investments, credit score, age and a target number of months of
expenses, and computes five category scores:

- Savings, Debt, Emergency, Investing and Credit, each a ladder of thresholds;
- a weighted health score rounded like `Math.round`;
- a grade;
- up to six risk flags in a fixed order;
- a list of recommendations in a fixed order, with a "maintain" item only when nothing else applies.

Around the engine the model covers:

- the score endpoint's controller: the required-income check, the in-place conversion loop over the ten numeric fields of the request body, and the `||` defaults;
- the input guards of the authentication endpoints: the email pattern, the password length, the six-digit OTP format, the OTP generator and its expiry;
- the CORS origin policy;
- the central error-to-HTTP mapping;
- the bearer-token middleware, which writes the decoded claims onto the request;
- the admin gate.

Modules, one per source file, plus three of shared vocabulary:

- `Wrappers` defines `Option` and `Result`.
- `JsText` holds the JavaScript string operations the code relies on: `trim`, `split`/`join`, the UTF-16 `length`, and decimal rendering of integers.
- `Http` holds request-body values (`Raw`), `(status, message)` error responses, token claims, and the mutable `Request` class.
- `FinancialHealth` models `backend/src/services/financialHealthService.js`.
- `HealthController` models `backend/src/controllers/financialHealthController.js`.
- `AuthController` models the guards of `backend/src/controllers/authController.js`.
- `Cors` models the CORS part of `backend/src/app.js`.
- `ErrorMiddleware`, `AuthMiddleware` and `AdminOnly` model the three middlewares.

The code builds values step by step in several places: the three accumulating scorers, the flag and recommendation builders that push onto arrays, the controller's loop over the body, and the middleware that assigns request fields. Each of these is a `method`, proved equal to a specification function, and the properties are lemmas about those functions. Everything else is a function.

Numbers are exact: money is `real`, and category and health scores are `int`.

## Model

| member | source | states |
|---|---|---|
| FinancialHealth.SavingsScore | backend/src/services/financialHealthService.js:83-113 | the Savings score lies in [0,100] and is 0 when income is 0 |
| FinancialHealth.CalculateSavingsScore | backend/src/services/financialHealthService.js:83-113 | the accumulating `score +=` ladder over months covered and savings rate, capped at 100, equals the Savings score and lies in [0,100] |
| FinancialHealth.DebtScore | backend/src/services/financialHealthService.js:118-149 | the Debt score lies in [0,100]; with income 0 it is 100 exactly when the debt is 0 and 0 otherwise |
| FinancialHealth.CalculateDebtScore | backend/src/services/financialHealthService.js:118-149 | 100 less the ratio and service penalties, clamped to [0,100], equals the Debt score |
| FinancialHealth.EmergencyScore | backend/src/services/financialHealthService.js:154-169 | the Emergency score lies in [0,100]; with no expenses it is 100 when there is a fund and 50 otherwise |
| FinancialHealth.AgeTarget | backend/src/services/financialHealthService.js:181-190 | the target ratio is never negative and is 0 up to age 20 |
| FinancialHealth.InvestingScore | backend/src/services/financialHealthService.js:174-199 | the Investing score lies in [0,100] and is 0 when income is 0 |
| FinancialHealth.CalculateInvestingScore | backend/src/services/financialHealthService.js:174-199 | the ratio rung plus the value rung, capped at 100, equals the Investing score |
| FinancialHealth.CreditScoreNormalized | backend/src/services/financialHealthService.js:204-213 | the Credit score lies in [0,100] and is 50 exactly for the unknown credit score 0 |
| FinancialHealth.HealthScore | backend/src/services/financialHealthService.js:41-55 | the weighted aggregate (0.20, 0.25, 0.25, 0.15, 0.15) rounded half up; its closed form, range and monotonicity are `HealthScoreExact`, `HealthScoreRange` and `HealthScoreMonotone` |
| FinancialHealth.HealthScoreExact | backend/src/services/financialHealthService.js:41-55 | the weighted, half-up rounded health score equals floor((20S+25D+25E+15I+15C+50)/100) in integers |
| FinancialHealth.HealthScoreRange | backend/src/services/financialHealthService.js:41-55 | category scores in [0,100] give a health score in [0,100] |
| FinancialHealth.HealthScoreMonotone | backend/src/services/financialHealthService.js:41-55 | raising any category score never lowers the health score |
| FinancialHealth.GradeOf | backend/src/services/financialHealthService.js:218-223 | `getGrade`'s cascade of three thresholds; its bands and monotonicity are `GradeBands` |
| FinancialHealth.GradeBands | backend/src/services/financialHealthService.js:218-223 | Excellent iff score >= 80, Good iff 65..79, Average iff 50..64, Poor iff below 50; the grade never falls as the score rises |
| FinancialHealth.IdentifyRiskFlags | backend/src/services/financialHealthService.js:228-301 | the six guarded pushes produce exactly the flags whose condition holds, in detection order |
| FinancialHealth.RiskFlagsOrdered | backend/src/services/financialHealthService.js:228-301 | every flag is raised iff its own condition holds; flags appear at most once, in strictly increasing detection order; there are at most six |
| FinancialHealth.NoIncomeNoDebtFlags | backend/src/services/financialHealthService.js:240-249 | without positive income neither the debt-to-income nor the debt-service flag is raised |
| FinancialHealth.NoExpensesEmergencyFlag | backend/src/services/financialHealthService.js:252-259 | with no expenses the emergency-fund flag is always raised, even when the Emergency score is 100 |
| FinancialHealth.AllSixFlags | backend/src/services/financialHealthService.js:228-301 | when every condition holds, all six flags are raised in detection order |
| FinancialHealth.GenerateRecommendations | backend/src/services/financialHealthService.js:306-451 | the guarded pushes, followed by the "maintain" fallback tested on the array's length, equal the recommendation list |
| FinancialHealth.TriggeredOrdered | backend/src/services/financialHealthService.js:306-432 | the triggered items are exactly the present candidates, in strictly increasing generation order; there are at most six; the list is empty iff no candidate applies |
| FinancialHealth.RecommendationsOrdered | backend/src/services/financialHealthService.js:306-451 | the final list is in generation order (Emergency, Debt, Savings, Investing, Credit, Cash Flow, Maintain) with no repeats |
| FinancialHealth.InvestingAtMostOnce | backend/src/services/financialHealthService.js:373-398 | at most one investing item appears |
| FinancialHealth.InvestingChoice | backend/src/services/financialHealthService.js:373-398 | "start investing" appears iff Investing < 60 and Emergency >= 60; "prioritise the emergency fund" appears iff that test fails, Emergency < 60 and investments are positive; the two never appear together |
| FinancialHealth.EmergencyShortfallFacts | backend/src/services/financialHealthService.js:320-336 | the emergency item appears iff Emergency < 60; its shortfall is max(0, 6 x expenses - fund), never negative and independent of the months-of-expenses target |
| FinancialHealth.MaintainOnlyAlone | backend/src/services/financialHealthService.js:435-448 | "maintain" appears iff the score is >= 80 and nothing else was triggered, and then it is the only item; a score >= 80 always yields a non-empty list |
| FinancialHealth.Assess | backend/src/services/financialHealthService.js:11-78 | the assessment of a profile, which `CalculateHealthScore` computes step by step; its well-formedness is `AssessmentWellFormed`, its value on the demo profile `DemoAssessment` |
| FinancialHealth.CalculateHealthScore | backend/src/services/financialHealthService.js:11-78 | the assessment is the five scores, their weighted score, its grade, the flags and the recommendations; all scores lie in [0,100] |
| FinancialHealth.AssessmentWellFormed | backend/src/services/financialHealthService.js:11-78 | every assessment has scores in [0,100], the grade of its health score and at most six flags; an Excellent grade always comes with recommendations |
| FinancialHealth.NoIncomeScores | backend/src/services/financialHealthService.js:84-121 | with income 0, Savings and Investing are 0, and Debt is 100 iff there is no debt, 0 otherwise |
| FinancialHealth.SavingsMonotone | backend/src/services/financialHealthService.js:87-110 | more savings never lowers the Savings score |
| FinancialHealth.DebtMonotone | backend/src/services/financialHealthService.js:124-146 | more debt or larger monthly payments never raise the Debt score |
| FinancialHealth.EmergencyMonotone | backend/src/services/financialHealthService.js:155-168 | a larger emergency fund never lowers the Emergency score |
| FinancialHealth.CreditMonotone | backend/src/services/financialHealthService.js:204-213 | for known scores a higher credit score never lowers the Credit score; the unknown 0 scores 50, above the 10 of scores below 500 |
| FinancialHealth.YoungInvestorFloor | backend/src/services/financialHealthService.js:181-195 | up to age 20, with positive income and non-negative investments, Investing is at least 60 even with nothing invested |
| FinancialHealth.DemoProfile | backend/src/services/financialHealthService.js:456-469 | the fixed demo profile; what it scores is `DemoAssessment` and `NoFlagsForDemo` |
| FinancialHealth.NoFlagsForDemo | backend/src/services/financialHealthService.js:456-469 | the demo profile with its category scores raises no risk flag |
| FinancialHealth.DemoAssessment | backend/src/services/financialHealthService.js:456-469 | the demo profile scores 90/90/60/80/90, giving 81, Excellent, no flags and the single "maintain" recommendation |
| HealthController.Convert | backend/src/controllers/financialHealthController.js:48-56 | the conversion loop as a recursion over the field list; `CalculateScore`'s loop is proved against it, and `ConvertRejectsFirstBad`, `ConvertedValues` and `ConvertKeepsNumbers` state what it does |
| HealthController.ProfileOf | backend/src/controllers/financialHealthController.js:59-70 | the `||` defaults (30 for age, 6 for months of expenses, 0 otherwise); `FieldOrBounds`, `ProfileBounds` and `GivenValuesReachEngine` state what reaches the engine |
| HealthController.ScoreFor | backend/src/controllers/financialHealthController.js:27-75 | the endpoint's answer for a body: the required check, the loop, then one call of the engine; `ScoreOutcome`, `MissingIncomeRejected` and `ZeroIncomeAccepted` state when it fails and with which message |
| HealthController.CalculateScore | backend/src/controllers/financialHealthController.js:25-75 | the answer is the endpoint's answer for the original body; the body is left converted up to the first rejected field (untouched when income is missing); no other field of the request changes |
| HealthController.MissingIncomeRejected | backend/src/controllers/financialHealthController.js:30-32 | the answer is 400 "monthlyIncome is required" exactly when the income is absent or falsy other than 0 |
| HealthController.ZeroIncomeAccepted | backend/src/controllers/financialHealthController.js:30-32 | an income of 0 passes the required check, and a body holding only that income is scored |
| HealthController.FirstBadFacts | backend/src/controllers/financialHealthController.js:48-53 | the first bad field is a numeric field that is bad, and every field before it is fine |
| HealthController.ConvertRejectsFirstBad | backend/src/controllers/financialHealthController.js:48-56 | the in-place loop stops at exactly the first field, in `numericFields` order, that is present, not null, and NaN or negative |
| HealthController.ScoreOutcome | backend/src/controllers/financialHealthController.js:30-75 | the endpoint fails iff the income is missing or some numeric field is bad; it then names the first bad field, and a success carries the fixed message |
| HealthController.ConvertedValues | backend/src/controllers/financialHealthController.js:48-56 | after a successful loop each converted field holds its number; fields the loop skips and keys outside the list are untouched |
| HealthController.ConvertKeepsNumbers | backend/src/controllers/financialHealthController.js:48-56 | a body whose numeric fields are absent, null or non-negative numbers passes the loop unchanged |
| HealthController.FieldOrBounds | backend/src/controllers/financialHealthController.js:59-70 | an `||` default keeps a converted field non-negative, and a positive default keeps it positive |
| HealthController.ProfileBounds | backend/src/controllers/financialHealthController.js:59-73 | every profile that reaches the engine has non-negative amounts, a positive age and a positive months-of-expenses target |
| HealthController.GivenValuesReachEngine | backend/src/controllers/financialHealthController.js:54-70 | a field given as a positive number reaches the engine unchanged; one absent, null or 0 gets whatever default `||` supplies |
| AuthController.RegisterCheck | backend/src/controllers/authController.js:16-29 | registration's guards in source order; specified by `MissingFieldsFirst` and `RegisterAccepts` |
| AuthController.LoginCheck | backend/src/controllers/authController.js:94-96 | login checks only that both fields are given; specified by `LoginAccepts` and `MissingFieldsFirst` |
| AuthController.ForgotPasswordCheck | backend/src/controllers/authController.js:158-166 | forgot-password checks presence, then the email pattern; specified by `MissingFieldsFirst` and `ForgotPasswordOrder` |
| AuthController.VerifyOtpCheck | backend/src/controllers/authController.js:221-234 | verify-OTP's guards in source order; specified by `MissingFieldsFirst`, `VerifyOtpOrder` and `IssuedOtpVerifies` |
| AuthController.ResetPasswordCheck | backend/src/controllers/authController.js:278-296 | reset-password's guards in source order; specified by `MissingFieldsFirst` and `ResetPasswordOrder` |
| AuthController.IsExpired | backend/src/controllers/authController.js:250 | `!user.otp_expiry \|\| currentTime > user.otp_expiry`; what it means for an issued OTP is `OtpExpiry` and `IssuedOtpLifetime` |
| AuthController.OtpDecision | backend/src/controllers/authController.js:242-257 | the row and expiry checks after the guards, as in verify-OTP and reset-password (lines 304-319); specified by `OtpDecisionFacts` and `IssuedOtpVerifies` |
| AuthController.EmailPatternCharacterised | backend/src/controllers/authController.js:21-22 | the email pattern accepts a string iff it has no whitespace and exactly one '@', the part before the '@' is non-empty, and the part after it has a '.' that is neither its first nor its last character |
| AuthController.MissingFieldsFirst | backend/src/controllers/authController.js:16-18 | a missing field is reported before any format check in all five handlers |
| AuthController.RegisterAccepts | backend/src/controllers/authController.js:16-29 | registration passes its guards iff both fields are given, the email is well formed and the password has at least 6 UTF-16 code units; exactly 6 passes |
| AuthController.ResetPasswordOrder | backend/src/controllers/authController.js:278-296 | reset-password checks presence, then email, then password length, then OTP format; each error fires iff the earlier checks pass and its own fails |
| AuthController.LoginAccepts | backend/src/controllers/authController.js:94-96 | login passes its guards iff both fields are given, and otherwise answers 400 "Email and password are required" |
| AuthController.ForgotPasswordOrder | backend/src/controllers/authController.js:158-166 | with an email given, forgot-password answers "Invalid email format" iff the email is not well formed, and passes iff it is |
| AuthController.VerifyOtpOrder | backend/src/controllers/authController.js:221-234 | verify-OTP checks presence, then email, then OTP format |
| AuthController.GenerateOtp | backend/src/controllers/authController.js:145-147 | for every random value in [0,1) the code is six ASCII digits denoting a number in [100000, 999999] |
| AuthController.OtpExpiry | backend/src/controllers/authController.js:185 | the stored expiry lies after the issue time, and the expiry test of lines 250 and 312 passes at exactly the times up to 300000 ms after issue (unless the expiry is the value 0, which the test reads as absent) |
| AuthController.IssueOtp | backend/src/controllers/authController.js:182-191 | the stored row holds a well-formed code and the expiry now + 300000 |
| AuthController.IssuedOtpLifetime | backend/src/controllers/authController.js:250 | an issued OTP is unexpired at time t iff t <= issue time + 300000; an expiry equal to the current time is still valid |
| AuthController.OtpDecisionFacts | backend/src/controllers/authController.js:242-257 | a failed guard decides alone; with no matching row the answer is "Invalid OTP"; a row is refused as expired iff its expiry is absent, 0 or past |
| AuthController.IssuedOtpVerifies | backend/src/controllers/authController.js:145-147 | a freshly issued code passes verify-OTP's format guard for any well-formed email, and its expiry check passes exactly within five minutes |
| Cors.CorsOrigin | backend/src/app.js:10-27 | `getCorsOrigin` for given values of CORS_ORIGIN and NODE_ENV; specified by `UnsetAllowsAll` and `ConfiguredEntries` |
| Cors.Decide | backend/src/app.js:30-51 | the `origin` callback's chain of early returns; specified by `NoOriginAllowed`, `ListDecision` and `PaddedOriginRefused` |
| Cors.UnsetAllowsAll | backend/src/app.js:18-41 | without CORS_ORIGIN the setting is '*' whatever NODE_ENV is, and every origin is allowed |
| Cors.ConfiguredEntries | backend/src/app.js:14-15 | with CORS_ORIGIN set, the allowed list has one trimmed entry per comma-separated piece (one more than the commas); entries have no padding and no comma; the pieces rejoin to CORS_ORIGIN |
| Cors.NoOriginAllowed | backend/src/app.js:34-36 | a request with no origin is always allowed |
| Cors.ListDecision | backend/src/app.js:39-50 | with a list, an origin is allowed iff the list has '*' or the origin exactly; a refusal names the origin |
| Cors.PaddedOriginRefused | backend/src/app.js:14-15 | an origin with leading or trailing whitespace is refused by a list without '*', since only the configured entries are trimmed |
| ErrorMiddleware.HandleError | backend/src/middlewares/errorMiddleware.js:30-71 | the cascade from error code and name to status and message; specified by `CodeBeforeName`, `NamedErrors`, `DefaultHandling`, `StatusClassification` and `NoLeakInProduction` |
| ErrorMiddleware.DefaultStatus | backend/src/middlewares/errorMiddleware.js:66 | the default status is never 0 and keeps a non-zero status code |
| ErrorMiddleware.CodeBeforeName | backend/src/middlewares/errorMiddleware.js:31-46 | a recognised database code decides the response whatever the name, message or status; duplicate entry is 400, the others 500 |
| ErrorMiddleware.NamedErrors | backend/src/middlewares/errorMiddleware.js:49-63 | without a recognised code, the two token errors answer 401 and a validation error answers 400 with its messages joined by ", " |
| ErrorMiddleware.DefaultHandling | backend/src/middlewares/errorMiddleware.js:66-71 | any other error keeps its status code or gets 500; a production 500 says "Internal server error", otherwise its own message or "Server Error" |
| ErrorMiddleware.StatusClassification | backend/src/middlewares/errorMiddleware.js:31-71 | the status is 400, 401 or 500, or the unrecognised error's own non-zero status code |
| ErrorMiddleware.NoLeakInProduction | backend/src/middlewares/errorMiddleware.js:37-71 | in production a 500 carries only one of the handler's fixed messages |
| AuthMiddleware.Authenticate | backend/src/middlewares/authMiddleware.js:11-41 | what the middleware decides for a header: the claims or the 401; specified by `HeaderRejections`, `TokenRoundTrip` and `VerificationMessages`, and written onto the request by `Authorize` |
| AuthMiddleware.ResolvedUserId | backend/src/middlewares/authMiddleware.js:29 | `decoded.userId \|\| decoded.id`: a present, non-zero userId, otherwise id; `Authorize` attaches it |
| AuthMiddleware.VerificationMessage | backend/src/middlewares/authMiddleware.js:33-41 | the 401 message per verification error name; specified by `VerificationMessages` |
| AuthMiddleware.BearerToken | backend/src/middlewares/authMiddleware.js:13-18 | a token exists iff the header is given and starts with exactly "Bearer "; the header is then "Bearer " followed by the token |
| AuthMiddleware.Authorize | backend/src/middlewares/authMiddleware.js:11-42 | on a verified token the decoded claims, the resolved user id and the role are written onto the request and control passes on; on failure the 401 is returned and the request is unchanged |
| AuthMiddleware.HeaderRejections | backend/src/middlewares/authMiddleware.js:13-22 | every failure is 401; a missing or wrongly prefixed header is refused before verification; a bare "Bearer " is an invalid token format |
| AuthMiddleware.PrefixIsExact | backend/src/middlewares/authMiddleware.js:13 | the prefix test is case-sensitive and needs the space |
| AuthMiddleware.TokenRoundTrip | backend/src/middlewares/authMiddleware.js:18-25 | "Bearer " plus a non-empty token yields that token, which goes to the verifier unchanged |
| AuthMiddleware.VerificationMessages | backend/src/middlewares/authMiddleware.js:33-41 | verification errors map to exactly three messages, each tied to its error name |
| AdminOnly.AdminGate | backend/src/middlewares/adminOnly.js:9-24 | control passes iff there is a user and either the attached role or the user's role is 'admin' |
| AdminOnly.GateOrder | backend/src/middlewares/adminOnly.js:11-18 | without a user the answer is 401 whatever the role; with a user the only refusal is 403 |
| AdminOnly.AuthenticatedAdmin | backend/src/middlewares/adminOnly.js:16-20 | behind the authentication middleware the gate passes iff the verified claims have the role 'admin' |
| AdminOnly.AuthorizeAdmin | backend/src/middlewares/adminOnly.js:11-20 | running the authentication middleware then the gate reaches the route iff the token verifies to claims whose role is 'admin'; a verified user who is not an admin gets exactly the 403 "Admin privileges required", with the claims already attached; on a verified token the request carries the claims, the resolved user id and the role; a failed token gets the middleware's 401 and leaves the request unchanged |
| JsText.SplitJoin | backend/src/app.js:15 | `split(',')` yields one piece more than there are commas, and joining the pieces with ',' gives the string back |
| JsText.DecimalRoundTrip | backend/src/controllers/authController.js:146 | the decimal rendering of a natural number reads back as that number |

## Left out

- Database queries, bcrypt hashing, JWT signing, the OTP email and the responses they lead to are not modelled. The row an OTP lookup would find is a parameter of `AuthController.OtpDecision`, and JWT verification is a function parameter of the authentication middleware.
- Every user-row lookup and insert keys on `email.toLowerCase().trim()`. The rows are not modelled, so neither is that normalisation. For an email that passes the pattern the trim changes nothing; lower-casing decides which row a mixed-case email finds.
- `Math.random()` and `Date.now()` are parameters: a value in [0,1) and a time in epoch milliseconds.
- `toLocaleString` in the recommendation texts is not modelled. The emergency shortfall and the monthly savings goal are carried as numbers inside the recommendation.
- JavaScript doubles are modelled as exact reals, so rounding artefacts of `0.15 * x` and of halves in `Math.round` are not modelled. Infinity is not modelled: `Number("Infinity")` or a JSON number such as `1e400` is neither NaN nor negative, so the controller passes it on to the engine, but a body value here is a finite real. NaN cannot reach the engine, and every division in the engine is guarded.
- `Number()` of a string is not modelled. A string in the request body carries the number it converts to, or nothing for NaN, as data. Arrays and objects in the body are treated as NaN, so cases such as `Number([5]) == 5` are not modelled.
- Email, password and OTP values that are not strings are not modelled: numbers, arrays and objects. `RegExp.test` converts its argument to a string, so a JSON number such as `{"otp": 123456}` passes the OTP format guard in the source; the model only takes strings.
- The engine's destructuring defaults (`age = 30`, `monthsOfExpenses = 6`, the zeros) are not modelled separately. The controller always passes every key, so they never apply.
- The `riskFlags` parameter of `generateRecommendations` is not modelled, because the function never reads it.
- A `ValidationError` without `errors` would throw inside the handler. Here it is an empty list of messages.
- The catch branch of `adminOnly` is not modelled, because nothing in its body can throw. No route in the repository mounts `adminOnly`. The model covers the gate and the composition its comment prescribes, after the authentication middleware (`AdminOnly.AuthenticatedAdmin`, `AdminOnly.AuthorizeAdmin`).
- Process environment reads (`CORS_ORIGIN`, `NODE_ENV`) are parameters.
- Not modelled: logging, async control flow, the success envelope of `sendSuccess`, the demo endpoint wrapper, the route wiring and server start-up.
- `AuthController.OtpDecision` for reset-password stops before the new password is hashed and stored.
- The emergency-fund flag uses covered months of 0 when there are no expenses. Its condition "fewer than 3 months covered" is therefore true for every profile without expenses, even one whose Emergency score is 100. The model follows the code here (`FinancialHealth.NoExpensesEmergencyFlag`).
