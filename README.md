# deemo volunteer client: session, sign-up and opportunity filter in Dafny

This project models the three parts of the deemo SwiftUI client that have logic of their own.

1. **`AuthViewModel`** is the login session. It has three observable fields: `isLoggedIn`, `errorMessage` and `userProfile`. It also uses one persisted slot, the `"authToken"` key of `UserDefaults.standard`. It has three operations: `login`, `fetchUserProfile` and `logout`.
2. **`SignUpView.signUpUser`** is the sign-up form. It runs three validation guards in a fixed order, sends the sign-up POST, and handles the response. It uses `isValidEmail`, a whole-string match of `[A-Z0-9a-z._%+-]+@[A-Za-z0-9.-]+\.[A-Za-z]{2,}`.
3. **`OpportunitiesViewModel`** is the opportunity browser. It holds five seeded opportunities. `filteredOpportunities` keeps those whose name contains the search text, ignoring case, and whose category equals the selected category.

Modules:

- `Wrappers` (wrappers.dfy): `Option` and `Result`. A `Result` is `Success(value)` or `Failure(message)`, where `message` is the error's `localizedDescription`.
- `Http` (http.dfy): a `URLRequest` as a value. It holds the method, the URL, the headers and a JSON object body.
- `Session` (session.dfy): the session as a value `AuthState`, with one function per transition.
  - Each asynchronous call is split into two events. The first issues the request and appends it to `inFlight`. The second delivers a `Result` for the in-flight request at a given index.
  - `Run` applies a sequence of such events.
  - The lemmas state what each transition does, and that "logged in implies a token is stored" holds on every run.
- `Auth` (auth.dfy): the classes `UserDefaults` and `AuthViewModel`. Their fields are updated in place. `UserDefaults` is a key-value map with the three operations the view model uses. Each `AuthViewModel` method is proved equal to the `Session` transition of the same name, via `State()`.
- `Email` (email.dfy): a recursive-descent recognizer for the address pattern. `EmailSplit` gives the pattern's meaning as a split into local part, domain and top-level label, and the recognizer is proved to accept exactly those strings.
- `SignUp` (signup.dfy): the guard chain `ValidationError`, the response handling `HandleResponse` and the class `SignUpView`.
- `Opportunities` (opportunities.dfy): the record, the seed data, the filter with its sequence lemmas, and the class `OpportunitiesViewModel`.

Where this model follows the code as written:

- `errorMessage` is never cleared. A successful login, a successful profile fetch and `logout` all leave it as it was.
- Requests are not tagged with the session they belong to, and `logout` does not cancel subscriptions. So a login result that arrives after `logout` logs the user back in and stores its token. `Session.LateLoginResultAfterLogout` shows this trace.
- For the same reason a profile result that arrives after `logout` sets `userProfile` again, although the user stays logged out. `Session.LateProfileResultAfterLogout` shows this trace.
- A failed profile fetch sets `isLoggedIn` to false but keeps the stored token and the last profile.

## Model

| member | source | states |
|---|---|---|
| `Session.StoredToken` | deemo/frontend/AuthViewModel.swift:45 | `string(forKey: "authToken")` on the store's map; no contract of its own: `Session.FetchWithoutTokenIssuesNothing` and `Session.FetchSendsStoredToken` state what each of its answers leads to |
| `Session.LoginRequest` | deemo/frontend/AuthViewModel.swift:20-25 | the login `URLRequest`; no contract of its own: `Session.LoginIssuesPost` states its method, URL, header and body |
| `Session.ProfileRequest` | deemo/frontend/AuthViewModel.swift:55-57 | the profile `URLRequest`; no contract of its own: `Session.FetchSendsStoredToken` states its method, URL and bearer header |
| `Session.Initial` | deemo/frontend/AuthViewModel.swift:7-12 | a fresh view model over the existing store; no contract of its own: `Session.ReachableStatesLoggedInHaveToken` shows it satisfies the invariant and every state reachable from it does too |
| `Session.Login` | deemo/frontend/AuthViewModel.swift:14-42 | `login(email:password:)` as a transition; no contract of its own: `Session.LoginIssuesPost` states that it only issues the JSON POST with the credentials |
| `Session.FetchUserProfile` | deemo/frontend/AuthViewModel.swift:44-59 | `fetchUserProfile()` as a transition; no contract of its own: `Session.FetchWithoutTokenIssuesNothing` and `Session.FetchSendsStoredToken` state both of its branches |
| `Session.ReceiveLoginResult` | deemo/frontend/AuthViewModel.swift:31-40 | the login subscription's completion and value handlers; no contract of its own: `Session.LoginFailureKeepsStore` and `Session.LoginSuccessStoresTokenThenFetches` state both outcomes, `Session.StepPreservesInvariant` the invariant it keeps |
| `Session.ReceiveProfileResult` | deemo/frontend/AuthViewModel.swift:63-72 | the profile subscription's completion and value handlers; no contract of its own: `Session.ProfileFailureKeepsToken` and `Session.ProfileSuccessSetsProfile` state both outcomes |
| `Session.Logout` | deemo/frontend/AuthViewModel.swift:76-80 | `logout()` as a transition; no contract of its own: `Session.LogoutClearsSession` and `Session.LogoutIdempotent` state what it does |
| `Session.LoginIssuesPost` | deemo/frontend/AuthViewModel.swift:14-27 | login only subscribes to a POST to the login URL, whose only header is the JSON content type and whose body is `{email, password}`; no field and no stored value changes |
| `Session.LoginSuccessStoresTokenThenFetches` | deemo/frontend/AuthViewModel.swift:36-40 | a delivered token is stored under `"authToken"` (other keys untouched), `isLoggedIn` becomes true, and a profile GET with that token is issued; `errorMessage` and `userProfile` stay |
| `Session.LoginFailureKeepsStore` | deemo/frontend/AuthViewModel.swift:31-35 | a failed login sets `errorMessage` to `"Login failed: " + message` and `isLoggedIn` to false; the store and `userProfile` are unchanged and no request is issued |
| `Session.FetchWithoutTokenIssuesNothing` | deemo/frontend/AuthViewModel.swift:45-48 | with no stored token, fetching sets `errorMessage` to `"No token found"` and changes nothing else |
| `Session.FetchSendsStoredToken` | deemo/frontend/AuthViewModel.swift:55-59 | with a stored token, fetching appends exactly one GET to the profile URL whose `Authorization` header is `"Bearer " + token`; nothing else changes |
| `Session.ProfileSuccessSetsProfile` | deemo/frontend/AuthViewModel.swift:69-72 | a delivered profile becomes `userProfile`; `isLoggedIn`, `errorMessage` and the store are unchanged, and only the delivered request leaves `inFlight` |
| `Session.ProfileFailureKeepsToken` | deemo/frontend/AuthViewModel.swift:63-68 | a failed profile fetch sets `errorMessage` to `"Error fetching profile: " + message` and `isLoggedIn` to false; the stored token and the last profile stay, and only the delivered request leaves `inFlight` |
| `Session.LogoutClearsSession` | deemo/frontend/AuthViewModel.swift:76-80 | after logout no token is stored, `userProfile` is nil and `isLoggedIn` is false; `errorMessage` and the in-flight requests are untouched |
| `Session.LogoutIdempotent` | deemo/frontend/AuthViewModel.swift:76-80 | logging out twice gives the same state as logging out once |
| `Session.StepPreservesInvariant` | deemo/frontend/AuthViewModel.swift:31-80 | every transition keeps "`isLoggedIn` implies a token is stored" |
| `Session.RunPreservesInvariant` | deemo/frontend/AuthViewModel.swift:14-80 | any run of calls and deliveries from a state that satisfies the invariant ends in a state that satisfies it |
| `Session.ReachableStatesLoggedInHaveToken` | deemo/frontend/AuthViewModel.swift:8-10 | in every state reachable from a fresh view model, being logged in means a token is stored |
| `Session.LoginThenProfile` | deemo/frontend/AuthViewModel.swift:27-72 | login, a delivered token, then a delivered profile: logged in, with that profile and that token, and nothing left in flight |
| `Session.LateLoginResultAfterLogout` | deemo/frontend/AuthViewModel.swift:76-80 | a login result delivered after logout still sets `isLoggedIn`, stores its token and issues a profile fetch |
| `Session.LateProfileResultAfterLogout` | deemo/frontend/AuthViewModel.swift:69-80 | a profile result delivered after logout sets `userProfile` again, while the user stays logged out with no token stored |
| `Auth.UserDefaults.Set` | deemo/frontend/AuthViewModel.swift:37 | `set(_:forKey:)` overwrites the key's value and keeps the others |
| `Auth.UserDefaults.StringForKey` | deemo/frontend/AuthViewModel.swift:45 | `string(forKey:)` returns the stored value, or nil when the key is absent |
| `Auth.UserDefaults.RemoveObject` | deemo/frontend/AuthViewModel.swift:77 | `removeObject(forKey:)` removes the key and keeps the others |
| `Auth.AuthViewModel.constructor` | deemo/frontend/AuthViewModel.swift:7-12 | a new view model is logged out, with no error, no profile and nothing in flight, over the existing store |
| `Auth.AuthViewModel.Login` | deemo/frontend/AuthViewModel.swift:14-42 | the new state is `Session.Login` of the old one, and the invariant is kept |
| `Auth.AuthViewModel.FetchUserProfile` | deemo/frontend/AuthViewModel.swift:44-74 | the new state is `Session.FetchUserProfile` of the old one, and the invariant is kept |
| `Auth.AuthViewModel.ReceiveLoginResult` | deemo/frontend/AuthViewModel.swift:31-40 | the new state is `Session.ReceiveLoginResult` of the old one, including the nested profile fetch, and the invariant is kept |
| `Auth.AuthViewModel.ReceiveProfileResult` | deemo/frontend/AuthViewModel.swift:63-72 | the new state is `Session.ReceiveProfileResult` of the old one, and the invariant is kept |
| `Auth.AuthViewModel.Logout` | deemo/frontend/AuthViewModel.swift:76-80 | the new state is `Session.Logout` of the old one, and the invariant is kept |
| `Email.IsValidEmail` | deemo/frontend/SignUpView.swift:160-164 | `isValidEmail`; no contract of its own: `Email.IsValidEmailMatchesPattern` shows it accepts exactly the strings `EmailSplit` describes |
| `Email.IsValidEmailMatchesPattern` | deemo/frontend/SignUpView.swift:160-164 | the recognizer accepts a string if and only if it splits as local part `[A-Z0-9a-z._%+-]+`, `@`, domain `[A-Za-z0-9.-]+`, `.`, and `[A-Za-z]{2,}` |
| `Email.ValidEmailShape` | deemo/frontend/SignUpView.swift:160-164 | an accepted address has exactly one `@` after a non-empty local part; its last `.` is followed by two or more ASCII letters and preceded by a non-empty domain |
| `Email.AcceptedExample` | deemo/frontend/SignUpView.swift:161 | `ann@x.com` is accepted |
| `Email.RejectedExamples` | deemo/frontend/SignUpView.swift:161 | a one-letter top-level label, an empty local part and a second `@` are each rejected |
| `SignUp.ValidationError` | deemo/frontend/SignUpView.swift:101-116 | the guard chain of `signUpUser()`; no contract of its own: `SignUp.ValidationOrder` states which message each guard chooses and when all pass |
| `SignUp.HandleResponse` | deemo/frontend/SignUpView.swift:143-154 | the completion handler's choice; no contract of its own: `SignUp.ResponseOutcomes` states when it navigates and which message it shows otherwise |
| `SignUp.SignUpRequest` | deemo/frontend/SignUpView.swift:127-137 | the sign-up `URLRequest`; no contract of its own: `SignUp.SignUpRequestCarriesForm` states its contents |
| `SignUp.SignUpRequestCarriesForm` | deemo/frontend/SignUpView.swift:127-137 | the sign-up request is a POST to `http://localhost:5500/api/auth/signup` whose only header is the JSON content type and whose body has exactly the keys `name`, `email` and `password`, holding the form's three fields |
| `SignUp.ValidationOrder` | deemo/frontend/SignUpView.swift:101-116 | the empty-field message is chosen exactly when a field is empty; the mismatch message exactly when all fields are filled and the passwords differ; the address message exactly when both earlier guards pass and the address is rejected; none of them exactly when all guards pass |
| `SignUp.PassedValidationHasAddressShape` | deemo/frontend/SignUpView.swift:113-118 | once validation passes, the address has the shape `Email.ValidEmailShape` describes |
| `SignUp.ResponseOutcomes` | deemo/frontend/SignUpView.swift:143-154 | the handler navigates exactly when there is no transport error and the status is 200 or 201; a transport error shows `"Network error: " + message`; any other status shows the body, or `"Unknown error"` without one |
| `SignUp.SignUpView.constructor` | deemo/frontend/SignUpView.swift:5-12 | the form starts with empty fields and message, not loading, not navigating |
| `SignUp.SignUpView.EditFields` | deemo/frontend/SignUpView.swift:32-59 | the text-field bindings set the four fields and nothing else |
| `SignUp.SignUpView.SignUpUser` | deemo/frontend/SignUpView.swift:97-138 | a failed guard sets its message, sends nothing and leaves `isLoading` alone; when all guards pass, `errorMessage` is `""`, `isLoading` is true and exactly the sign-up POST with `{name, email, password}` is sent |
| `SignUp.SignUpView.ReceiveResponse` | deemo/frontend/SignUpView.swift:139-156 | on every completion path `isLoading` is false; it then navigates to login or shows the message that `HandleResponse` chooses; the form fields are unchanged |
| `Opportunities.Lowered` | deemo/frontend/FowView.swift:31 | `lowercased()`, for ASCII: the result has the input's length and no capital letter; each capital becomes the small letter 32 code points above it, and every other character is kept |
| `Opportunities.SameIgnoringCaseLowered` | deemo/frontend/FowView.swift:31 | two strings that differ only in the case of ASCII letters, position by position, lower-case to the same string |
| `Opportunities.Contains` | deemo/frontend/FowView.swift:31 | `contains`; no contract of its own: `Opportunities.ContainsIffOccurs` shows it is true exactly when the needle occurs at some position |
| `Opportunities.Keeps` | deemo/frontend/FowView.swift:30-32 | the filter closure; no contract of its own: `Opportunities.SearchMatchesSubstring`, `Opportunities.SearchIgnoresCase` and `Opportunities.FilterCategoryExact` state its two criteria |
| `Opportunities.Filter` | deemo/frontend/FowView.swift:29-34 | the result is no longer than the list, and every item in it is in the list and meets both criteria |
| `Opportunities.FilterIsSubsequence` | deemo/frontend/FowView.swift:29-34 | the result is an order-preserving subsequence of the list |
| `Opportunities.FilterComplete` | deemo/frontend/FowView.swift:30-33 | every item that meets both criteria is returned, as many times as it occurs in the list |
| `Opportunities.FilterDropsRejected` | deemo/frontend/FowView.swift:30-33 | an item that fails either criterion never appears in the result |
| `Opportunities.FilterIdentity` | deemo/frontend/FowView.swift:31-32 | with empty search text and no category, the result is the whole list |
| `Opportunities.FilterCategoryExact` | deemo/frontend/FowView.swift:32 | with a category selected, every returned item's category equals it, case included |
| `Opportunities.SearchIgnoresCase` | deemo/frontend/FowView.swift:31 | changing the letter case of the search text or of an item's name does not change whether it is kept; "changing the case" is defined character by character, as a capital and the small letter 32 code points above it, without the lower-casing function |
| `Opportunities.SearchMatchesSubstring` | deemo/frontend/FowView.swift:31 | with non-empty search text, an item is kept exactly when the lower-cased text occurs at some position of the lower-cased name |
| `Opportunities.ContainsIffOccurs` | deemo/frontend/FowView.swift:31 | the left-to-right substring search answers true exactly when the needle occurs at some position |
| `Opportunities.SeedOpportunities` | deemo/frontend/FowView.swift:19-25 | the five seeded opportunities; no contract of its own: `Opportunities.SeedCategoriesOffered` states their number and that each category is offered by the picker |
| `Opportunities.SeedCategoriesOffered` | deemo/frontend/FowView.swift:19-40 | five opportunities are seeded, and each one's category is an entry of the picker's `categories` |
| `Opportunities.OpportunitiesViewModel.constructor` | deemo/frontend/FowView.swift:17-26 | the view model starts with the seed list, empty search text and no category |
| `Opportunities.OpportunitiesViewModel.SetSearchText` | deemo/frontend/FowView.swift:46 | the search field's binding sets `searchText` only |
| `Opportunities.OpportunitiesViewModel.SelectCategory` | deemo/frontend/FowView.swift:51 | the picker's binding sets `selectedCategory` only |
| `Opportunities.OpportunitiesViewModel.FilteredOpportunities` | deemo/frontend/FowView.swift:29-34 | `filteredOpportunities` is an order-preserving subsequence of `opportunities`, holds exactly the items meeting both criteria, each as many times as in `opportunities`, and is the whole list when neither criterion is set |

## Left out

- Other writers of the store are not modelled. The invariant `Valid()` of `Auth.AuthViewModel` assumes that this view model is the only writer of `"authToken"`. Another `AuthViewModel()` over `UserDefaults.standard`, such as the one created at ContentView.swift:6, could remove the token while this one is logged in.
- Other writers of `isLoggedIn` are not modelled. LoginView.swift:72 binds it to a `NavigationLink`, so leaving the dashboard sets it to false outside `login`, `fetchUserProfile` and `logout`. That write keeps the invariant.
- Networking, JSON and Combine are not modelled. `URLSession`, `JSONSerialization`, `JSONDecoder` and the `dataTaskPublisher`/`decode`/`sink` pipelines are replaced by abstract results delivered as separate events. A decoding failure is one more `Failure(message)`.
- The `URL(string:)` guards on constant URLs are left out, because they never fail. These are AuthViewModel.swift:15-18 and 50-53, and SignUpView.swift:121-125.
- The `JSONSerialization.data` guard at SignUpView.swift:128-132 is left out, because a dictionary of strings always serialises.
- Scheduling is not modelled. Results are delivered on the main queue in arrival order. The model lets them arrive in any order, each as one atomic step.
- The `"No token found"` assignment is made through `DispatchQueue.main.async`. The model applies it at once instead of one main-queue turn later.
- The 1.5-second check in LoginView.swift:99-104 depends on timing, so it is not modelled.
- Subscriptions in `cancellables` are never removed or cancelled. `inFlight` holds only the requests that have not delivered yet, so finished subscriptions are not kept.
- Letter case uses ASCII only. Unicode `lowercased()` is replaced by ASCII lower-casing. String equality and `contains` compare characters one by one, without Unicode canonical equivalence.
- The regex engine behind `NSPredicate` is replaced by the recognizer in `Email`, which works on Dafny characters rather than UTF-16 code units.
- `Opportunity.id` is left out of the record. It is a random `UUID()` used only as the list's identity.
- `UserProfile` is not part of this model's sources. Its fields are taken from how ProfileView.swift:51-55 uses them.
- View bodies and navigation are not modelled. This covers ProfileView editing, whose `saveProfileChanges` is empty, as well as the bar chart, the hour tracker and the SwiftData container.
