# Labour-services app: navigation and form controllers

A Dafny model of the Android client of a small labour-services
marketplace. Customers search for labour services and submit labour
requests. Labour providers create services with typed subscription plans and
attach existing services to their account. The model covers:

- the activity's navigation: the nine remembered values of `MainActivity`
  and the callbacks that switch between the screens;
- the state and handlers of the six form screens:
  - `AuthScreen`: phone OTP login, email login and sign-up;
  - `LabourHomeScreen`: create a service, open the service manager;
  - `LabourProviderScreen`: attach a service, create a service, list the
    mapped services with a search;
  - `LabourScreen`: submit a labour request, list one's requests;
  - `HomeScreen`: search the mapped services, request one;
  - `QueryScreen`: send a support query;
- the validation each submit button performs, the request it builds, and how
  the reply changes the screen;
- the Kotlin library functions these use: `trim`, `isBlank`, `ifBlank`,
  `split`, `uppercase`, digit filtering, `toIntOrNull`, `firstOrNull` and
  `coerceIn`.

Modules, one per source file, plus shared ones:

| module | file | models |
|---|---|---|
| `Wrappers` | `wrappers.dfy` | Kotlin nullables (`Option`), the elvis operator, `firstOrNull`, and the `Result` of a form check |
| `Text` | `text.dfy` | the string functions above, each with its algebra: trim is idempotent, split/join round-trip, the URL-list parser round-trip, uppercase idempotence |
| `Api` | `api.dfy` | the request and reply records of the three Retrofit interfaces; a server call as `Call` (a reply with a success flag and an optional body, or a thrown exception); the "list refreshed from a reply" rule shared by three screens |
| `ServiceForms` | `service_forms.dfy` | the add-type and create-service checks shared by the two labour screens |
| `Navigation` | `navigation.dfy` | the activity state, its `when` dispatch as `ScreenOf`, each callback as a state function, an event-trace semantics with a proved invariant, and a `MainActivity` class whose methods are the callbacks |
| `Auth` | `auth.dfy` | `AuthScreen` as a class |
| `LabourHome` | `labour_home.dfy` | `LabourHomeScreen` as a class |
| `LabourProvider` | `labour_provider.dfy` | `LabourProviderScreen` as a class |
| `LabourRequests` | `labour_requests.dfy` | `LabourScreen` as a class |
| `Home` | `home.dfy` | `HomeScreen` as a class |
| `Query` | `query.dfy` | `QueryScreen` as a class |
| `Wiring` | `wiring.dfy` | lemmas that chain screens through the activity |

Each screen is a class whose fields are the screen's `remember`ed state.
Every handler is a method:

- it `modifies` exactly the fields the Kotlin handler assigns;
- the server's answer is a parameter (`reply`), and so are the platform
  checks the model cannot see (`toDoubleOrNull`, the email pattern);
- its `ensures` give the request sent as a pure check function of the old
  fields;
- they also give the new field values for every kind of reply.

The check functions carry the validation order. Each error holds exactly
when the source's guard fires, so the contracts are if-and-only-if
statements. The one exception is the add-type guard, which the model
corrects (see "## Findings"): it also rejects a NaN price, which the
source lets through.

Every class keeps a `Valid()` invariant. It holds the screen's own
invariants, for example:

- the OTP is at most six UTF-16 code units long;
- phone login and a sent OTP occur only in login mode, as the sign-up toggle resets both;
- the years field holds digits only;
- the plan field is upper-case;
- a selected service is one of the listed services;
- every pending service type is one the corrected add-type check accepts,
  so its price is positive.

`Valid()` also says that no loading flag is left set when a handler returns.

## Model

| member | source | states |
|---|---|---|
| Wrappers.FirstOrNull | app/src/main/java/com/example/myapplication/LabourProviderScreen.kt:103 | `null` exactly for the empty list, otherwise the head |
| Text.TrimStart | app/src/main/java/com/example/myapplication/LabourScreen.kt:254 | the result is no longer than the input and starts with a non-whitespace character |
| Text.TrimStartDrops | app/src/main/java/com/example/myapplication/LabourScreen.kt:254 | what trimming the start drops is a blank prefix; the rest is the input's suffix |
| Text.TrimEnd | app/src/main/java/com/example/myapplication/LabourScreen.kt:254 | the result is no longer than the input and ends with a non-whitespace character |
| Text.TrimEndDrops | app/src/main/java/com/example/myapplication/LabourScreen.kt:254 | what trimming the end drops is a blank suffix; the rest is the input's prefix |
| Text.Trim | app/src/main/java/com/example/myapplication/LabourScreen.kt:254 | the result neither starts nor ends with whitespace, and it is empty exactly when the input is blank |
| Text.TrimIsInfix | app/src/main/java/com/example/myapplication/LabourScreen.kt:254 | `trim()` returns an infix of the input and drops only blank text around it |
| Text.TrimAvoids | app/src/main/java/com/example/myapplication/LabourProviderScreen.kt:363-364 | trimming introduces no character, so a piece without a comma stays without one |
| Text.TrimIdempotent | app/src/main/java/com/example/myapplication/LabourScreen.kt:254 | trimming twice is trimming once |
| Text.IfBlankNull | app/src/main/java/com/example/myapplication/AuthScreen.kt:633 | `ifBlank { null }` gives `null` exactly for blank text, otherwise the text unchanged |
| Text.TrimOrNull | app/src/main/java/com/example/myapplication/LabourScreen.kt:255-256 | `trim().ifBlank { null }` gives `null` exactly for blank text, otherwise the non-empty trimmed text |
| Text.Split | app/src/main/java/com/example/myapplication/LabourProviderScreen.kt:363 | `split(",")` yields at least one piece, and no piece holds the delimiter |
| Text.JoinSplit | app/src/main/java/com/example/myapplication/LabourProviderScreen.kt:363 | joining the pieces with the delimiter gives back the text: splitting loses nothing |
| Text.SplitPrefix | app/src/main/java/com/example/myapplication/LabourProviderScreen.kt:363 | text without the delimiter before the rest extends the first piece of the rest |
| Text.SplitJoin | app/src/main/java/com/example/myapplication/LabourProviderScreen.kt:363 | splitting a join of delimiter-free pieces gives back the pieces |
| Text.TrimIdempotentAll | app/src/main/java/com/example/myapplication/LabourProviderScreen.kt:364 | every piece of a list is unchanged by a second trim |
| Text.TrimEach | app/src/main/java/com/example/myapplication/LabourProviderScreen.kt:364 | `map { it.trim() }` keeps the number of pieces and replaces each piece by its trimmed text, which a second trim leaves unchanged |
| Text.NonBlank | app/src/main/java/com/example/myapplication/LabourProviderScreen.kt:365 | `filter { it.isNotBlank() }` keeps only non-blank pieces of the list |
| Text.NonBlankComplete | app/src/main/java/com/example/myapplication/LabourProviderScreen.kt:365 | every non-blank piece is kept |
| Text.NonBlankOfBlank | app/src/main/java/com/example/myapplication/LabourProviderScreen.kt:365 | a list of blank pieces filters to the empty list |
| Text.NonBlankAppend | app/src/main/java/com/example/myapplication/LabourProviderScreen.kt:365 | the filter distributes over concatenation, so it keeps the order |
| Text.NonBlankKeeps | app/src/main/java/com/example/myapplication/LabourProviderScreen.kt:365 | a list with no blank piece passes through unchanged |
| Text.ParseUrlList | app/src/main/java/com/example/myapplication/LabourProviderScreen.kt:363-365 | every URL parsed from a comma-separated field is non-blank, trimmed and comma-free |
| Text.KeptPieces | app/src/main/java/com/example/myapplication/LabourHomeScreen.kt:268-270 | the parsed URLs avoid any character that every piece avoids |
| Text.ParseUrlListComplete | app/src/main/java/com/example/myapplication/LabourHomeScreen.kt:268-270 | every non-blank piece of the field appears, trimmed, among the URLs |
| Text.ParseUrlListRoundTrip | app/src/main/java/com/example/myapplication/LabourHomeScreen.kt:232 | typing a list of trimmed, non-blank, comma-free URLs separated by commas parses back to exactly that list |
| Text.SplitOfBlank | app/src/main/java/com/example/myapplication/LabourHomeScreen.kt:232 | every piece of a blank text is blank |
| Text.ParseUrlListOfBlank | app/src/main/java/com/example/myapplication/LabourHomeScreen.kt:232 | a blank URL field gives no URLs |
| Text.Uppercase | app/src/main/java/com/example/myapplication/AuthScreen.kt:80 | `uppercase()` keeps the length and maps each character to its upper case |
| Text.UppercaseIdempotent | app/src/main/java/com/example/myapplication/LabourHomeScreen.kt:203 | uppercasing twice is uppercasing once |
| Text.UppercaseIsUppercase | app/src/main/java/com/example/myapplication/LabourHomeScreen.kt:203 | the result of `uppercase()` is upper-case, and upper-case text is its own uppercase |
| Text.TrimKeepsUppercase | app/src/main/java/com/example/myapplication/LabourHomeScreen.kt:237 | trimming an upper-case plan keeps it upper-case |
| Text.UppercaseMatchesIgnoreCase | app/src/main/java/com/example/myapplication/MainActivity.kt:56 | for an upper-case constant, comparing the uppercase is the same as `equals(…, ignoreCase = true)` |
| Text.FilterDigits | app/src/main/java/com/example/myapplication/LabourProviderScreen.kt:240 | `filter { it.isDigit() }` keeps only digits, leaves a digits-only text unchanged, and gives the empty text for a text without digits |
| Text.FilterDigitsOfChar | app/src/main/java/com/example/myapplication/LabourProviderScreen.kt:240 | a typed digit is kept and any other character is dropped; with the append lemma this fixes the filter on every text |
| Text.FilterDigitsAppend | app/src/main/java/com/example/myapplication/LabourProviderScreen.kt:240 | the filter keeps the digits in typing order across any split of the text |
| Text.ToIntOrNull | app/src/main/java/com/example/myapplication/LabourProviderScreen.kt:271 | `toIntOrNull()` yields a 32-bit value; a digit string parses to its value when it fits and to `null` when it is empty or too large |
| Text.DecimalText | app/src/main/java/com/example/myapplication/LabourProviderScreen.kt:271 | the decimal text of a count is a non-empty digit string |
| Text.DigitsValueOfDecimalText | app/src/main/java/com/example/myapplication/LabourProviderScreen.kt:271 | the value of a count's decimal text is the count |
| Text.ToIntOrNullOfDecimalText | app/src/main/java/com/example/myapplication/LabourProviderScreen.kt:271 | typing any Int-sized count of years parses back to that count |
| Text.LoggedInLine | app/src/main/java/com/example/myapplication/HomeScreen.kt:144-148 | the account line is the screen's own text without an email, and otherwise "Logged in as " followed by the email, which can be read back from it (the same rule at LabourHomeScreen.kt:123, LabourProviderScreen.kt:201 and LabourScreen.kt:177) |
| Text.Utf16Length | app/src/main/java/com/example/myapplication/AuthScreen.kt:213 | Kotlin's `length` counts UTF-16 code units: between one and two per character, and one per character inside the Basic Multilingual Plane |
| Text.Utf16LengthAppend | app/src/main/java/com/example/myapplication/AuthScreen.kt:213 | a character outside the Basic Multilingual Plane adds two code units and any other adds one |
| Api.ZeroComparisons | app/src/main/java/com/example/myapplication/LabourHomeScreen.kt:227-228 | a price is neither `> 0.0` nor `<= 0.0` exactly when it is NaN, and never both |
| Api.RefreshedList | app/src/main/java/com/example/myapplication/HomeScreen.kt:80-95 | a confirmed reply gives its list, any other reply gives the empty list, and a thrown call keeps the current list |
| Api.MappedServicesQueryFor | app/src/main/java/com/example/myapplication/HomeScreen.kt:69-79 | no query without a token; otherwise the token, and the search as `null` exactly when it is blank |
| ServiceForms.NewServiceType | app/src/main/java/com/example/myapplication/LabourProviderScreen.kt:358-373 | a type is rejected exactly when its name is blank or its price is not a positive number; an accepted type is well formed, with the trimmed name, the trimmed-or-null description, the parsed price and the parsed photo URLs |
| ServiceForms.TypeChecksDifferOnlyOnNaN | app/src/main/java/com/example/myapplication/LabourHomeScreen.kt:227-228 | the written check and the intended check disagree exactly on a NaN price |
| ServiceForms.AsWrittenAcceptsNaNPrice | app/src/main/java/com/example/myapplication/LabourProviderScreen.kt:358-359 | the written guard lets a NaN price through, and NaN is not positive |
| ServiceForms.NewServiceTypeAsWritten | app/src/main/java/com/example/myapplication/LabourProviderScreen.kt:358-373 | the add-type form as written rejects exactly a blank name, a missing price or a price `<= 0.0` |
| ServiceForms.AsWrittenAddsNaNType | app/src/main/java/com/example/myapplication/LabourHomeScreen.kt:227-241 | as written, a NaN price adds a type whose price is not positive; the corrected form rejects it |
| ServiceForms.NewService | app/src/main/java/com/example/myapplication/LabourProviderScreen.kt:391-412 | rejected exactly when the name is blank or there is neither a positive price nor a type; the request has the trimmed non-empty name, carries the price exactly when it is positive, and has the trimmed-or-null description and duration and the pending types |
| Navigation.ScreenOf | app/src/main/java/com/example/myapplication/MainActivity.kt:34-126 | which screen the `when` shows, for each combination of login, role and labour-screen flag, and the arguments it passes |
| Navigation.StepConsistent | app/src/main/java/com/example/myapplication/MainActivity.kt:34-126 | every enabled callback keeps the activity state consistent: nothing about a user is remembered while logged out, a secondary screen is open only while logged in, a pending service id belongs to the customer's request screen, and the user type is one of the two choices |
| Navigation.RunConsistent | app/src/main/java/com/example/myapplication/MainActivity.kt:34-126 | every possible trace of callbacks keeps the state consistent |
| Navigation.ReachableConsistent | app/src/main/java/com/example/myapplication/MainActivity.kt:23-31 | every state reachable from app start is consistent |
| Navigation.ChoosingUserTypeOpensAuth | app/src/main/java/com/example/myapplication/MainActivity.kt:35-46 | choosing an account type opens the auth screen with that preferred role, and "back" returns to role selection |
| Navigation.LoginRoutesByRole | app/src/main/java/com/example/myapplication/MainActivity.kt:47-56 | a login opens the labour home for the labour role, in any case, and the customer home for any other role |
| Navigation.LogoutReturnsToStart | app/src/main/java/com/example/myapplication/MainActivity.kt:66-90 | each logout restores the start state (the remembered manager tab aside) and shows role selection |
| Navigation.ManagerRoundTrip | app/src/main/java/com/example/myapplication/MainActivity.kt:62-81 | opening the service manager shows it on the requested tab, and "back" returns to the same labour home |
| Navigation.RequestServiceRoundTrip | app/src/main/java/com/example/myapplication/MainActivity.kt:94-123 | "Request Service" opens the request screen on that service id, and "back" restores the home state exactly |
| Navigation.MainActivity.constructor | app/src/main/java/com/example/myapplication/MainActivity.kt:23-41 | the activity starts logged out on role selection |
| Navigation.MainActivity.OnSelectCustomer | app/src/main/java/com/example/myapplication/MainActivity.kt:38 | the customer button opens the auth screen with the `CUSTOMER` role |
| Navigation.MainActivity.OnSelectLabour | app/src/main/java/com/example/myapplication/MainActivity.kt:39 | the labour button opens the auth screen with the `LABOUR` role |
| Navigation.MainActivity.OnBackToRoleSelection | app/src/main/java/com/example/myapplication/MainActivity.kt:46 | back from the auth screen returns to role selection |
| Navigation.MainActivity.OnLoginSuccess | app/src/main/java/com/example/myapplication/MainActivity.kt:47-53 | a login stores the session and opens the screen for the role |
| Navigation.MainActivity.OnOpenServiceManager | app/src/main/java/com/example/myapplication/MainActivity.kt:62-65 | the labour home opens the service manager on the given tab |
| Navigation.MainActivity.OnLogout | app/src/main/java/com/example/myapplication/MainActivity.kt:66-73 | logging out from either home clears the session and selection back to the start state |
| Navigation.MainActivity.OnProviderBack | app/src/main/java/com/example/myapplication/MainActivity.kt:81 | back from the service manager shows the labour home again |
| Navigation.MainActivity.OnProviderLogout | app/src/main/java/com/example/myapplication/MainActivity.kt:82-90 | logging out from the service manager returns to the start state |
| Navigation.MainActivity.OnNavigateToLabour | app/src/main/java/com/example/myapplication/MainActivity.kt:120-123 | "Request Service" opens the request screen for that service id |
| Navigation.MainActivity.OnLabourRequestsBack | app/src/main/java/com/example/myapplication/MainActivity.kt:100-103 | back from the request screen clears the service id and shows the customer home |
| Auth.NormalizeRole | app/src/main/java/com/example/myapplication/AuthScreen.kt:80 | the normalized role is `null` exactly when none was given, and otherwise the uppercase of the preferred role, of the same length and already upper-case |
| Auth.InitialRole | app/src/main/java/com/example/myapplication/AuthScreen.kt:82-85 | the form starts with the normalized role, or `CUSTOMER` when there is none |
| Auth.RoleLockedIgnoresCase | app/src/main/java/com/example/myapplication/AuthScreen.kt:80-81 | the role is locked exactly when the preferred role equals `CUSTOMER` or `LABOUR` ignoring case |
| Auth.LockedRoleIsPreferred | app/src/main/java/com/example/myapplication/AuthScreen.kt:81-85 | a locked form's role is the preferred role, which is one of the two account types |
| Auth.PrimaryActionOf | app/src/main/java/com/example/myapplication/AuthScreen.kt:499-500 | the main button signs up exactly outside login mode, and verifies the OTP exactly in phone-login mode |
| Auth.SendOtpCheck | app/src/main/java/com/example/myapplication/AuthScreen.kt:238-249 | nothing is sent exactly when the number is blank; otherwise the number as typed |
| Auth.VerifyOtpCheck | app/src/main/java/com/example/myapplication/AuthScreen.kt:501-514 | "OTP not sent" exactly when none was sent; "invalid OTP" exactly when the code is blank or its `length` in UTF-16 code units is not six; otherwise the number and code |
| Auth.LoginCheck | app/src/main/java/com/example/myapplication/AuthScreen.kt:563-570 | rejected exactly when the email or the password is blank; both are sent untrimmed |
| Auth.RegisterCheck | app/src/main/java/com/example/myapplication/AuthScreen.kt:611-634 | missing fields exactly when one of the four fields is blank, a mismatch exactly when they are filled but the passwords differ; the request carries the selected role and a blank image URL as `null` |
| Auth.SessionOf | app/src/main/java/com/example/myapplication/AuthScreen.kt:515-557 | the login callback fires exactly for a confirmed reply, with the reply's name, email, token and role |
| Auth.AuthScreen.constructor | app/src/main/java/com/example/myapplication/AuthScreen.kt:66-86 | a fresh form is in email-login mode with empty fields, and the role is locked and chosen from the preferred role |
| Auth.AuthScreen.Edit | app/src/main/java/com/example/myapplication/AuthScreen.kt:192-441 | typing into a text field that is shown and enabled (the phone number only before an OTP is sent) replaces that field only |
| Auth.AuthScreen.EditOtpCode | app/src/main/java/com/example/myapplication/AuthScreen.kt:210-213 | the OTP field, there only once an OTP is sent, takes an edit exactly when its `length` in UTF-16 code units is at most six |
| Auth.AuthScreen.ChangeNumber | app/src/main/java/com/example/myapplication/AuthScreen.kt:192-230 | "Change Phone Number", there only in phone login once an OTP is sent, returns to the send step with an empty code |
| Auth.AuthScreen.SelectLoginMethod | app/src/main/java/com/example/myapplication/AuthScreen.kt:148-174 | the email and phone buttons, there only in login mode, choose the login method, so phone login never occurs in sign-up mode |
| Auth.AuthScreen.SelectRole | app/src/main/java/com/example/myapplication/AuthScreen.kt:295-321 | in sign-up mode an unlocked form can switch between the two account types |
| Auth.AuthScreen.SendOtp | app/src/main/java/com/example/myapplication/AuthScreen.kt:238-272 | the request is the send-OTP check, and the OTP counts as sent exactly when the reply is confirmed |
| Auth.AuthScreen.VerifyOtp | app/src/main/java/com/example/myapplication/AuthScreen.kt:501-557 | the request is the verify check; a session is handed over exactly for a confirmed reply, which also resets the phone form; otherwise the form is unchanged |
| Auth.AuthScreen.Login | app/src/main/java/com/example/myapplication/AuthScreen.kt:563-604 | the request is the login check; a session is handed over exactly for a confirmed reply |
| Auth.AuthScreen.Register | app/src/main/java/com/example/myapplication/AuthScreen.kt:611-661 | the request is the sign-up check; a confirmed reply switches to email login and clears the four account fields; otherwise nothing changes |
| Auth.AuthScreen.ToggleMode | app/src/main/java/com/example/myapplication/AuthScreen.kt:710-723 | the toggle flips the mode, resets every field and flag, and restores the initial role |
| Auth.AuthScreen.ClearFields | app/src/main/java/com/example/myapplication/AuthScreen.kt:712-721 | the toggle's resets empty the fields and clear the OTP and visibility flags |
| LabourProvider.CoerceIn | app/src/main/java/com/example/myapplication/LabourProviderScreen.kt:71 | the tab is clamped into the two tabs; a tab already in range is kept |
| LabourProvider.AttachCheck | app/src/main/java/com/example/myapplication/LabourProviderScreen.kt:254-273 | "session expired" exactly without a token, "no service" exactly when none is selected; the request carries the service id, the parsed years and the notes with blank as `null` |
| LabourProvider.LabourProviderScreen.constructor | app/src/main/java/com/example/myapplication/LabourProviderScreen.kt:71-92 | a fresh manager opens on the clamped initial tab with everything empty |
| LabourProvider.LabourProviderScreen.LoadAllServices | app/src/main/java/com/example/myapplication/LabourProviderScreen.kt:94-114 | a delivered list replaces the services and selects the first one only when nothing is selected; any other reply changes nothing |
| LabourProvider.LabourProviderScreen.LoadMappedServices | app/src/main/java/com/example/myapplication/LabourProviderScreen.kt:116-142 | nothing is sent without a token; otherwise the mapped list is refreshed from the reply |
| LabourProvider.LabourProviderScreen.Start | app/src/main/java/com/example/myapplication/LabourProviderScreen.kt:144-147 | the first composition loads the services and then the mapped services for the current search |
| LabourProvider.LabourProviderScreen.SelectAttachTab | app/src/main/java/com/example/myapplication/LabourProviderScreen.kt:180 | the first tab is shown |
| LabourProvider.LabourProviderScreen.SelectMyServicesTab | app/src/main/java/com/example/myapplication/LabourProviderScreen.kt:185-188 | the second tab is shown and the mapped services are reloaded |
| LabourProvider.LabourProviderScreen.Search | app/src/main/java/com/example/myapplication/LabourProviderScreen.kt:440-457 | the search button of the mapped-services tab reloads the mapped services for the search text |
| LabourProvider.LabourProviderScreen.SelectService | app/src/main/java/com/example/myapplication/LabourProviderScreen.kt:193-229 | a dropdown pick on the attach tab selects one of the listed services |
| LabourProvider.LabourProviderScreen.Edit | app/src/main/java/com/example/myapplication/LabourProviderScreen.kt:193-453 | typing into a text field of the shown tab (the search field on the mapped-services tab, the others on the attach tab) replaces that field only |
| LabourProvider.LabourProviderScreen.EditExperienceYears | app/src/main/java/com/example/myapplication/LabourProviderScreen.kt:193-240 | the years field of the attach tab keeps only the digits typed |
| LabourProvider.LabourProviderScreen.AttachService | app/src/main/java/com/example/myapplication/LabourProviderScreen.kt:193-290 | on the attach tab, the request is the attach check, with non-negative years; a confirmed reply clears years and notes and reloads the mapped list; otherwise nothing changes |
| LabourProvider.LabourProviderScreen.AddType | app/src/main/java/com/example/myapplication/LabourProviderScreen.kt:193-378 | on the attach tab, an accepted type is appended to the pending types and the type fields are cleared; a rejected type changes nothing |
| LabourProvider.LabourProviderScreen.ClearTypeFields | app/src/main/java/com/example/myapplication/LabourProviderScreen.kt:374-377 | the four type fields are emptied |
| LabourProvider.LabourProviderScreen.CreateService | app/src/main/java/com/example/myapplication/LabourProviderScreen.kt:193-433 | on the attach tab, the request is the shared create check; a delivered reply clears the form and the pending types, selects the created service and reloads the services; otherwise nothing changes |
| LabourProvider.LabourProviderScreen.ServiceCreated | app/src/main/java/com/example/myapplication/LabourProviderScreen.kt:415-423 | after a created service the form is cleared, the created service stays selected through the reload, and the services are the reloaded list |
| LabourProvider.LabourProviderScreen.ClearServiceFields | app/src/main/java/com/example/myapplication/LabourProviderScreen.kt:417-423 | the four service fields and the pending types are emptied, and the created service is selected |
| LabourHome.CreateServiceCheck | app/src/main/java/com/example/myapplication/LabourHomeScreen.kt:262-291 | "session expired" exactly without a token, missing details exactly under the shared rule; the request also carries the trimmed-or-null image URL and the parsed gallery |
| LabourHome.ManagerTab | app/src/main/java/com/example/myapplication/LabourHomeScreen.kt:326-334 | the first card opens the first tab and the second card the second tab |
| LabourHome.LabourHomeScreen.constructor | app/src/main/java/com/example/myapplication/LabourHomeScreen.kt:60-72 | a fresh form is empty with the plan `WEEKLY` |
| LabourHome.LabourHomeScreen.EditService | app/src/main/java/com/example/myapplication/LabourHomeScreen.kt:145-221 | typing into a service field replaces that field only |
| LabourHome.LabourHomeScreen.EditType | app/src/main/java/com/example/myapplication/LabourHomeScreen.kt:145-221 | typing into a type field replaces that field only |
| LabourHome.LabourHomeScreen.EditSubscriptionPlan | app/src/main/java/com/example/myapplication/LabourHomeScreen.kt:203 | the plan field is the uppercase of what is typed, so it stays upper-case |
| LabourHome.LabourHomeScreen.AddType | app/src/main/java/com/example/myapplication/LabourHomeScreen.kt:225-247 | an accepted type, with the trimmed upper-case plan, is appended and the type fields reset to `WEEKLY`; a rejected type changes nothing |
| LabourHome.LabourHomeScreen.ClearTypeFields | app/src/main/java/com/example/myapplication/LabourHomeScreen.kt:242-246 | the type fields are emptied and the plan reset to `WEEKLY` |
| LabourHome.LabourHomeScreen.CreateService | app/src/main/java/com/example/myapplication/LabourHomeScreen.kt:260-312 | the request is the create check; a delivered reply clears the form and the types and opens the manager on tab 0, keeping the image fields; otherwise nothing changes |
| LabourHome.LabourHomeScreen.ClearServiceFields | app/src/main/java/com/example/myapplication/LabourHomeScreen.kt:296-300 | the four service fields and the pending types are emptied |
| LabourRequests.IndexOfId | app/src/main/java/com/example/myapplication/LabourScreen.kt:92 | the position of the first service with the id, or `null` when no service has it |
| LabourRequests.InitialSelection | app/src/main/java/com/example/myapplication/LabourScreen.kt:92 | a listed service with the requested id when one exists, otherwise the first service; `null` exactly for an empty list |
| LabourRequests.SelectsRequestedService | app/src/main/java/com/example/myapplication/LabourScreen.kt:92 | with distinct ids, opening on a listed service's id selects exactly that service |
| LabourRequests.SubmitCheck | app/src/main/java/com/example/myapplication/LabourScreen.kt:239-257 | "session expired" exactly without a token, missing details exactly without a service or address; the request has the trimmed non-empty address and the trimmed-or-null date and notes |
| LabourRequests.CardOf | app/src/main/java/com/example/myapplication/LabourScreen.kt:331-343 | each request card shows the fallbacks "Service", "NEW" and "-", and the date lines only when non-blank |
| LabourRequests.LabourScreen.constructor | app/src/main/java/com/example/myapplication/LabourScreen.kt:71-82 | a fresh screen is on the submit tab with nothing loaded or typed |
| LabourRequests.LabourScreen.LoadServices | app/src/main/java/com/example/myapplication/LabourScreen.kt:84-102 | a delivered list replaces the services and selects the initial service; any other reply changes nothing |
| LabourRequests.LabourScreen.LoadMyRequests | app/src/main/java/com/example/myapplication/LabourScreen.kt:104-126 | nothing is sent without a token; otherwise the requests are refreshed from the reply |
| LabourRequests.LabourScreen.SelectSubmitTab | app/src/main/java/com/example/myapplication/LabourScreen.kt:154 | the submit tab is shown |
| LabourRequests.LabourScreen.SelectRequestsTab | app/src/main/java/com/example/myapplication/LabourScreen.kt:159-161 | the requests tab is shown and the requests reloaded |
| LabourRequests.LabourScreen.Edit | app/src/main/java/com/example/myapplication/LabourScreen.kt:167-232 | typing into a text field of the submit tab replaces that field only |
| LabourRequests.LabourScreen.SelectService | app/src/main/java/com/example/myapplication/LabourScreen.kt:167-207 | a dropdown pick on the submit tab selects one of the listed services |
| LabourRequests.LabourScreen.Submit | app/src/main/java/com/example/myapplication/LabourScreen.kt:167-285 | on the submit tab, the request is the submit check; a confirmed reply clears address, date and notes; otherwise nothing changes |
| Home.WelcomeTitle | app/src/main/java/com/example/myapplication/HomeScreen.kt:136 | with a non-blank name the title is the greeting, the name and the waving hand, so the name can be read back from it; otherwise the plain greeting |
| Home.CardOf | app/src/main/java/com/example/myapplication/HomeScreen.kt:196-216 | each result card shows the fallbacks for name, labour and experience, the description only when non-blank, and requests the mapping's service id |
| Home.HomeScreen.constructor | app/src/main/java/com/example/myapplication/HomeScreen.kt:64-66 | a fresh screen has no search text and no results |
| Home.HomeScreen.LoadAvailableServices | app/src/main/java/com/example/myapplication/HomeScreen.kt:68-97 | nothing is sent without a token; otherwise the results are refreshed from the reply |
| Home.HomeScreen.Start | app/src/main/java/com/example/myapplication/HomeScreen.kt:99-103 | the first search runs exactly when there is a token |
| Home.HomeScreen.EditSearch | app/src/main/java/com/example/myapplication/HomeScreen.kt:163 | the search field holds what is typed |
| Home.HomeScreen.Search | app/src/main/java/com/example/myapplication/HomeScreen.kt:167 | the results are reloaded for the search text |
| Query.QueryCheck | app/src/main/java/com/example/myapplication/QueryScreen.kt:139-152 | missing fields exactly when one field is blank, an invalid email exactly when they are filled but the email does not match; the fields are sent as typed |
| Query.QueryScreen.constructor | app/src/main/java/com/example/myapplication/QueryScreen.kt:39-42 | the email starts as the logged-in email, or empty |
| Query.QueryScreen.Edit | app/src/main/java/com/example/myapplication/QueryScreen.kt:87-118 | typing into a text field replaces that field only |
| Query.QueryScreen.Submit | app/src/main/java/com/example/myapplication/QueryScreen.kt:139-176 | the request is the query check; a confirmed reply clears subject and message and keeps the email; otherwise nothing changes |
| Wiring.ChosenTypeIsRegistered | app/src/main/java/com/example/myapplication/AuthScreen.kt:80-85 | the account type chosen at start reaches the auth screen, locks the role there, and is the role a sign-up sends |
| Wiring.ConfirmedLoginRoutesByRole | app/src/main/java/com/example/myapplication/MainActivity.kt:47-56 | a confirmed login reply opens the screen for the role it returns |
| Wiring.CardOpensItsTab | app/src/main/java/com/example/myapplication/LabourHomeScreen.kt:326-334 | each labour-home card opens the manager on its own tab, which the manager's clamp keeps |
| Wiring.RequestOpensOnService | app/src/main/java/com/example/myapplication/HomeScreen.kt:216 | "Request Service" on a listed result opens the request screen with that service selected |
| Wiring.UnknownRequestOpensOnFirst | app/src/main/java/com/example/myapplication/LabourScreen.kt:92 | a result whose id is not listed opens the request screen on the first service |

## Left out

- The Compose layout:
  - toasts and the messages they show;
  - dropdown expansion flags and animated visibility;
  - the password "Show"/"Hide" toggles beyond their reset;
  - the forgot-password toast;
  - the titles that only restate the mode.
- Coroutines: each handler runs to completion with the server's reply as a parameter.
  - The `isLoading`-style flags are set and cleared inside one method.
  - `Valid()` states that none is left set, so the `enabled = !…Loading` gating of the buttons is not modelled separately.
  - A reload launched inside a handler (`loadMappedServices()`, `loadAllServices()`) is modelled as running after the handler's `finally`, because it is launched in its own coroutine.
- Retrofit and the HTTP layer: `RetrofitClient` and the API interfaces are not modelled. Only their request and reply records are mirrored, and what the backend decides is a parameter.
- `toDoubleOrNull` and the Android email pattern are parameters:
  - `toDoubleOrNull` as `toDoubleOrNull: string -> Option<Double>`, where `Double` is a datatype with finite values, the two infinities and NaN;
  - the email pattern as `matchesEmail: string -> bool`.
- Whitespace, digits and case are modelled on ASCII and the Unicode space separators. Unicode case mapping beyond ASCII is not modelled. Text lengths are characters, except the OTP length, which counts UTF-16 code units as Kotlin's `length` does.
- `UserTypeSelectionScreen` is not part of this model beyond its two callbacks, which only assign a value.
- `QueryScreen` is not reachable from the activity's `when`. It is modelled as a standalone screen.
- LabourProvider.LabourProviderScreen.AddType: uses the corrected add-type check of "## Findings". For a NaN price the source (LabourProviderScreen.kt:358-377) appends the type and clears the four type fields; the model rejects it and changes nothing.
- LabourHome.LabourHomeScreen.AddType: uses the corrected add-type check of "## Findings". For a NaN price the source (LabourHomeScreen.kt:227-246) appends the type and resets the type fields; the model rejects it and changes nothing.
- Text.ToIntOrNull: the body parses an optional sign, but the contract states only the bounds and the unsigned cases. The years field feeds it digits only.

## Findings

| source | as written | input that shows it | evidently intended | confidence | as-written member | corrected member |
|---|---|---|---|---|---|---|
| app/src/main/java/com/example/myapplication/LabourProviderScreen.kt:358-359 (also LabourHomeScreen.kt:227-228) | the add-type guard rejects `parsedTypePrice == null \|\| parsedTypePrice <= 0.0`, and NaN passes it, because every comparison with NaN is false | type name "Interior", price text "NaN", which `toDoubleOrNull()` parses to `Double.NaN` | only a positive price is accepted, as the create-service check already demands with `parsedPrice > 0.0` | not executed | ServiceForms.AsWrittenAddsNaNType | ServiceForms.NewServiceType |
