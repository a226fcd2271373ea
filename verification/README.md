# Stitcher: a verified model of the marketplace's client and server rules

Stitcher is a Next.js and Firebase marketplace. It connects customers with
tailors. This project models its rules in Dafny, with one module per source
file:

- validation of the onboarding and recommendation forms;
- the profile documents that the server actions write;
- the onboarding carousels;
- the phone and one-time-code sign-in, with its resend cooldown;
- the measurement card and the measurement page;
- the profile page;
- the horizontal ruler's scroll-to-value mapping;
- the tailor card;
- the two sidebars;
- the role redirect.

Shared modules:

- `JsValues`: the JavaScript values that forms and documents hold, truthiness
  and `||`, `Number(...)` coercion, and `startsWith`.
- `Zod`: the validators the schemas use, with the library's messages.
- `DocumentStore`: the document store. It is a map from collection to document
  id to document. A `setDoc(..., { merge: true })` is a map override,
  performed by `Database.SetMerge`.
- `Ui`: toasts, placeholder avatars and menu entries.

Things outside the program are parameters of the operations:

- the signed-in user (`Option`);
- whether a write fails (`writeFails`);
- the recommendation agent (a function from the request to its reply);
- the Google popup and the one-time-code confirmation (their answers as
  datatypes);
- the visible width of the ruler.

A stateful component is a class. Its handlers are methods whose `ensures`
clauses give the new state, the returned route, and the toast. Navigation is
the route a handler returns. A button that the page disables becomes a
`requires`.

Differences from the source's own intent, followed here as the code is written:

- `src/components/onboarding-flow.tsx:22` imports `onboardingSchema` from
  `src/app/actions/onboarding.ts`, which does not export it. The flow is
  modelled with the schema of `src/lib/schemas/onboarding.ts`, which is the one
  that action uses.
- The enums differ from file to file, and each file's own enum is kept:
  - units: `cm|inch|meter` in the onboarding page, `cm|in` in the schema,
    `cm|inch` in the measurement card;
  - gender: lower case in the onboarding page, capitalised in the schema;
  - minimum name length: 2 in the onboarding page, 3 in the schema.

## Model

| member | source | states |
|---|---|---|
| DocumentStore.MergeWrite | src/app/actions/user.ts:38-46 | A merge write creates the document if needed, gives every written field its new value, keeps every other field of the document, and leaves every other document alone |
| DocumentStore.Database.constructor | src/app/actions/user.ts:7 | The database handle starts with the given documents |
| DocumentStore.Database.SetMerge | src/app/actions/user.ts:38-46 | `setDoc(ref, payload, { merge: true })` replaces the store by its merge write |
| JsValues.ParseNumberOfNatText | src/lib/schemas/onboarding.ts:8-15 | `Number(...)` reads a number input's decimal text back as that number |
| JsValues.EmptyTextIsZero | src/lib/schemas/onboarding.ts:8-15 | An empty number input coerces to 0, not to NaN, so it reaches the minimum check |
| Zod.StringMin | src/lib/schemas/onboarding.ts:5-6 | `z.string().min(n, msg)` passes exactly the strings of length at least n, and fails a shorter string with exactly `msg` |
| Zod.CoercedNumberMin | src/lib/schemas/onboarding.ts:8-15 | `z.coerce.number().min(n, msg)` passes iff the coerced number exists and is at least n; NaN gets the number-type message and a small number gets `msg` |
| Zod.EnumOf | src/lib/schemas/onboarding.ts:7 | `z.enum` passes exactly the strings in the option list, case-sensitively |
| Zod.OptionalString | src/app/onboarding/page.tsx:25 | An optional string passes when the field is absent or a string |
| Zod.OptionalEmail | src/app/onboarding/page.tsx:26 | An optional e-mail passes when the field is absent or an e-mail-shaped string, and otherwise fails with the given message |
| Zod.EmptyIsNotEmail | src/app/onboarding/page.tsx:26 | The empty string is not e-mail-shaped |
| OnboardingSchema.SafeParse | src/lib/schemas/onboarding.ts:4-16 | Valid iff every one of the eleven fields passes its check; the parsed data holds exactly those fields with their coerced values; an invalid record reports the non-empty map of field errors |
| OnboardingSchema.FullNameRule | src/lib/schemas/onboarding.ts:5 | `fullName` has no error iff it is a string of at least 3 characters; a shorter string carries "Full name must be at least 3 characters." |
| OnboardingSchema.AddressRule | src/lib/schemas/onboarding.ts:6 | `address` has no error iff it is a string of at least 5 characters, with its message otherwise |
| OnboardingSchema.GenderRule | src/lib/schemas/onboarding.ts:7 | `gender` has no error iff it is exactly Male, Female or Other; "male" is rejected |
| OnboardingSchema.UnitRule | src/lib/schemas/onboarding.ts:11 | `measurementUnit` has no error iff it is exactly "cm" or "in"; "inch" is rejected |
| OnboardingSchema.ZeroTextIsZero | src/lib/schemas/onboarding.ts:8-15 | The text "0" coerces to 0 |
| OnboardingSchema.NumericRule | src/lib/schemas/onboarding.ts:8-15 | A numeric field has no error iff it coerces to a number of at least 1; a stored 0, "" or "0" carries exactly the field's "... is required." message |
| OnboardingSchema.ValidIffNoFieldErrors | src/lib/schemas/onboarding.ts:4-16 | A record is valid iff its field-error map is empty |
| UserActions.CollectionFor | src/app/actions/user.ts:32 | The collection is `customers` iff the role is "customer", and `tailors` for any other role |
| UserActions.CreateUserProfile | src/app/actions/user.ts:24-55 | An empty uid and then an empty role throw their messages before any write; a failed write throws "Failed to create user profile." and leaves the store alone; otherwise the record is merged into the role's collection |
| UserActions.CreatedRecord | src/app/actions/user.ts:38-46 | After creation the document holds the uid, the four nullable identity fields, a fresh `createdAt` and the role, and keeps every other field it had |
| UserActions.BuildProfileData | src/app/actions/user.ts:68-84 | Assigning the fields one by one, as the source does, yields exactly the payload that the field rule describes |
| UserActions.AddressDerived | src/app/actions/user.ts:71-78 | With all five parts present, `address` is "house, street, city, state zip", replacing any given address, and all five parts are written |
| UserActions.PartialAddressDropped | src/app/actions/user.ts:68-71 | With any part missing or empty, no part is written, no address is derived, and a given address passes through unchanged |
| UserActions.OtherFieldsCopied | src/app/actions/user.ts:69-84 | Other fields are copied unchanged; a truthy completion flag becomes `true` and a falsy one passes through; `updatedAt` is always stamped |
| UserActions.UpdateUserProfile | src/app/actions/user.ts:62-95 | An empty uid throws before any write; a failed write throws "Failed to update user profile." with the store unchanged; otherwise the payload is merged into `customers/uid` |
| OnboardingAction.SavePayload | src/app/actions/onboarding.ts:38-45 | The saved record is the validated data plus `onboardingCompleted = true` |
| OnboardingAction.SaveOnboardingData | src/app/actions/onboarding.ts:15-61 | Login is checked first, then validation, and each returns its result with no write; a failed write returns the generic failure; otherwise the record goes to `customers/uid`, whatever the role, with success |
| OnboardingPage.FormParse | src/app/onboarding/page.tsx:22-44 | The merged slide schema is valid iff every field passes; the parsed record holds exactly the present fields with their coerced values |
| OnboardingPage.FieldsToValidate | src/app/onboarding/page.tsx:263-272 | The fields validated at a step are all fields of the form |
| OnboardingPage.StepFieldsPartition | src/app/onboarding/page.tsx:263-272 | Customers validate {name, address}, then {gender, age, height, weight}, then {chest, waist, hips, inseam, measurementUnit}; tailors validate step 1 only; the three lists are disjoint |
| OnboardingPage.MissingEmailBlocksSubmit | src/app/onboarding/page.tsx:226-237 | A user signed in without an e-mail is prefilled with "", which fails the e-mail check, so the final validation rejects the form |
| OnboardingPage.DefaultAgeBlocksSubmit | src/app/onboarding/page.tsx:192-211 | With no stored age the default 0 fails the final validation, for tailors too |
| OnboardingPage.SubmitPayload | src/app/onboarding/page.tsx:296-305 | The payload holds `onboardingCompleted` = true and `updatedAt` = the server timestamp unless the submitted data overrides them, then every submitted field, and `displayName` = name exactly when the name is non-empty |
| OnboardingPage.Page.constructor | src/app/onboarding/page.tsx:181-211 | The page starts at step 0 with no user and no role, loading, with the default form values |
| OnboardingPage.Page.ResolveUser | src/app/onboarding/page.tsx:215-248 | The customer document is looked up first; a completed profile routes to its dashboard and an incomplete one prefills the form (3 slides for customers, 1 for tailors); with no document or no user the route is "/" and the role, form and slide count are unchanged |
| OnboardingPage.Page.AttachCarousel | src/app/onboarding/page.tsx:252-257 | Once the carousel is attached, the slide count is the role's and the current step is 1 |
| OnboardingPage.Page.SetField | src/app/onboarding/page.tsx:208-213 | A field change sets that one field |
| OnboardingPage.Page.HandleBack | src/app/onboarding/page.tsx:348-352 | Back, shown after step 1, goes back one step |
| OnboardingPage.Page.OnSubmit | src/app/onboarding/page.tsx:285-318 | No user or no role gives "User not found." with no write; a failed write gives the failure toast and no route; success merges the payload into the role's collection and routes to the role's dashboard; `isSubmitting` is false afterwards |
| OnboardingPage.Page.HandleNext | src/app/onboarding/page.tsx:259-283 | A failed step validation changes nothing; a passed one before the last step advances; at the last step the whole form is parsed and, if valid, submitted as `OnSubmit` does, with its "User not found.", failure or success message |
| OnboardingFlow.SlideFields | src/components/onboarding-flow.tsx:55-74 | Every field a slide lists is a schema field |
| OnboardingFlow.ProgressGrows | src/components/onboarding-flow.tsx:112 | The progress grows strictly with the step, is positive, and is 100 at the last step |
| OnboardingFlow.SlidesPartitionSchema | src/components/onboarding-flow.tsx:55-74 | The three slides' field lists are disjoint and together cover exactly the eleven schema fields |
| OnboardingFlow.StepsAgreeWithSchema | src/components/onboarding-flow.tsx:55-74 | Passing all three step validations is equivalent to the whole record passing the schema |
| OnboardingFlow.Flow.constructor | src/components/onboarding-flow.tsx:30-51 | The flow starts at step 0 with the default values |
| OnboardingFlow.Flow.SetField | src/components/onboarding-flow.tsx:36-53 | A field change sets that one field |
| OnboardingFlow.Flow.HandleNext | src/components/onboarding-flow.tsx:76-83 | Next, offered before the last step, advances by exactly one iff the current slide validates, and otherwise leaves the step unchanged |
| OnboardingFlow.Flow.HandlePrev | src/components/onboarding-flow.tsx:85-88 | Back, disabled at step 0, goes back one step without validating |
| OnboardingFlow.Flow.HandleSubmit | src/components/onboarding-flow.tsx:90-110 | The save runs only if the last slide validates; completion happens iff the save succeeds, with the success toast; a failed save gives the destructive "Oops! Something went wrong." toast and no write, described as not signed in, invalid data or a failed write according to the cause |
| Recommendations.Entry | src/app/actions/recommendations.ts:27-31 | A form entry reaches the schema as its string, or as `null` exactly when it is missing |
| Recommendations.MissingEntryIsNullType | src/app/actions/recommendations.ts:7-11 | A missing field fails with "Expected string, received null", not with "Required" |
| Recommendations.ValidIffNoErrors | src/app/actions/recommendations.ts:7-11 | The form is valid iff no field has an error; that is, garment type of length at least 1, and details and location of length at least 3 |
| Recommendations.GetTailorRecommendations | src/app/actions/recommendations.ts:23-50 | Invalid input returns the invalid-data message and the field errors, with no data and no agent call; a missing or empty result gives "No tailors found…" with []; a non-empty result gives the success message with the results in order; a throw gives the server-error message with no data |
| Recommendations.AnswerIgnoresPreviousState | src/app/actions/recommendations.ts:23-31 | The answer does not depend on the previous state; for invalid input it does not depend on the agent either |
| Recommendations.DataMatchesMessage | src/app/actions/recommendations.ts:33-49 | Data is present iff the agent answered; it is non-empty iff the message is the success message; errors are present iff the message is the invalid-data message |
| FindTailorView.PanelOf | src/components/find-tailor-view.tsx:84-109 | No data shows the introduction, an empty list shows "No Tailors Found", and a non-empty list shows its tailors' cards in order |
| FindTailorView.FirstError | src/components/find-tailor-view.tsx:66-76 | Under a field appears its first error message, and only when it has one |
| FindTailorView.InitialStateIsQuiet | src/components/find-tailor-view.tsx:17-108 | The initial state raises no toast, shows the introduction, and shows no field errors |
| FindTailorView.GarmentChoicesPass | src/components/find-tailor-view.tsx:57-64 | Every garment the select offers passes the garment-type check |
| FindTailorView.ToastIffFailure | src/components/find-tailor-view.tsx:35-43 | After a submission the error toast appears iff the form was rejected or the agent threw |
| FindTailorView.PanelAfterSubmit | src/components/find-tailor-view.tsx:84-109 | After a submission the introduction stays iff the form was rejected or the agent threw; cards appear iff the agent returned a non-empty list, and they are its tailors |
| FindTailorView.RejectedFormShowsFieldErrors | src/components/find-tailor-view.tsx:66-76 | A failing field shows the first of its schema messages |
| FindTailorView.View.constructor | src/components/find-tailor-view.tsx:17-32 | The view starts in the initial state |
| FindTailorView.View.Submit | src/components/find-tailor-view.tsx:32-43 | The action's answer becomes the state, and the error toast is raised with the state's message iff that message is neither empty nor one of the two normal outcomes |
| HorizontalRuler.JsRound | src/components/ui/horizontal-ruler.tsx:58 | `Math.round` lands within half a unit of its argument |
| HorizontalRuler.StepIsOneTenth | src/components/ui/horizontal-ruler.tsx:32-34 | The step is 0.1 for every unit; totalTicks = round((max − min)·10) and the width is 10 pixels per tick |
| HorizontalRuler.RoundOfInteger | src/components/ui/horizontal-ruler.tsx:58 | `Math.round` leaves a whole number unchanged |
| HorizontalRuler.ToFixedKeepsTenths | src/components/ui/horizontal-ruler.tsx:61 | `parseFloat(x.toFixed(1))` is the identity on multiples of 0.1 |
| HorizontalRuler.ToFixedIsTenth | src/components/ui/horizontal-ruler.tsx:61 | `parseFloat(x.toFixed(1))` is always a multiple of 0.1 |
| HorizontalRuler.ScrollValueIsTenth | src/components/ui/horizontal-ruler.tsx:57-61 | The value read back is a multiple of 0.1 counted from 0, not from min |
| HorizontalRuler.ScrollValueInBounds | src/components/ui/horizontal-ruler.tsx:57-61 | With bounds on the 0.1 grid, the value read back lies in [min, max] |
| HorizontalRuler.OffGridBoundOvershoot | src/components/ui/horizontal-ruler.tsx:59-61 | The rounding after the clamp can overshoot a bound that is off the grid: with bounds [0, 0.06] a far scroll reads 0.1 |
| HorizontalRuler.ScrollRoundTrip | src/components/ui/horizontal-ruler.tsx:42-61 | Scrolling to the position computed for a value in bounds on the 0.1 grid reads that value back, for any ruler width |
| HorizontalRuler.TickClasses | src/components/ui/horizontal-ruler.tsx:70-89 | Tick i is major iff i % 10 = 0 and half iff i % 5 = 0 but not major; only major ticks are labelled, and their label is min + i·0.1 for min on the grid |
| HorizontalRuler.Ruler.constructor | src/components/ui/horizontal-ruler.tsx:20-30 | A ruler starts with its properties, not dragging and unscrolled |
| HorizontalRuler.Ruler.CenterValue | src/components/ui/horizontal-ruler.tsx:36-49 | The effect scrolls so that the current value sits under the centre line |
| HorizontalRuler.Ruler.Scroll | src/components/ui/horizontal-ruler.tsx:51-66 | A scroll reports the value read back iff it differs from the current value |
| HorizontalRuler.Ruler.RenderTicks | src/components/ui/horizontal-ruler.tsx:68-94 | Ticks 0 to totalTicks are drawn, each as its index classifies it, and none when totalTicks is negative |
| HorizontalRuler.CenteredValueIsStable | src/components/ui/horizontal-ruler.tsx:36-66 | Centring a value in bounds on the grid and then scrolling to that position reports no change |
| MeasurementCard.SliderBounds | src/components/measurement-card.tsx:52-58 | The slider runs over [20, 200] for cm and over [8, 80] for inches |
| MeasurementCard.SliderStep | src/components/measurement-card.tsx:92 | The slider steps by 1 for cm and by 0.1 for inches |
| MeasurementCard.Find | src/components/measurement-card.tsx:60 | `points.find`: a found point is in the list and has the name; nothing is found iff no point has the name |
| MeasurementCard.PointsLayout | src/components/measurement-card.tsx:10-33 | Each name appears once in `points`; the two columns are disjoint and together cover all six measurements |
| MeasurementCard.FindPointAt | src/components/measurement-card.tsx:60 | Looking a point up by its name finds that point |
| MeasurementCard.ImageFollowsSelection | src/components/measurement-card.tsx:60 | The picture is the selected point's image, or the default picture when nothing is selected |
| MeasurementCard.Card.constructor | src/components/measurement-card.tsx:44 | Nothing is selected at first |
| MeasurementCard.Card.Open | src/components/measurement-card.tsx:64-66 | Tapping a point selects it |
| MeasurementCard.Card.OpenChange | src/components/measurement-card.tsx:63 | Closing any sheet clears the selection; opening one keeps it |
| MeasurementCard.Card.SliderChange | src/components/measurement-card.tsx:46-50 | The first thumb's value is reported for the selected point, and nothing is reported without a selection |
| MeasurementPage.SavedFields | src/app/customer/measurement/page.tsx:59 | The save writes exactly the measurements object and the update stamp |
| MeasurementPage.Page.constructor | src/app/customer/measurement/page.tsx:19-29 | The page starts with Shoulder 45, Chest 98, Waist 82, Hips 104, Inseam 78, Sleeve 62, no user, loading |
| MeasurementPage.Page.Load | src/app/customer/measurement/page.tsx:31-46 | Stored measurements replace the current ones only when the document exists and holds them; a signed-out visitor is sent to "/customer/login" |
| MeasurementPage.Page.MeasurementChange | src/app/customer/measurement/page.tsx:48-50 | Only the named measurement changes; every other one is unchanged |
| MeasurementPage.Page.Save | src/app/customer/measurement/page.tsx:52-74 | Without a user: an error toast and no write; a failed update: the failure toast; otherwise `{ measurements }` goes through `updateUserProfile`; `isSaving` is false afterwards |
| ProfilePage.Filled | src/app/customer/profile/page.tsx:64-73 | Each defaulted field holds its stored value when that is truthy, else its default; a stored 0 is replaced |
| ProfilePage.IdentityKeysNotDefaulted | src/app/customer/profile/page.tsx:61-77 | The identity fields are not among the defaulted ones |
| ProfilePage.LoadedProfile | src/app/customer/profile/page.tsx:61-77 | The loaded profile has the defaulted fields and the identity fields; its uid is the signed-in uid and its role is always "Fashion Enthusiast" |
| ProfilePage.LoadedIdentity | src/app/customer/profile/page.tsx:63-75 | fullName is the stored full name, else the display name, else "New User"; email is the stored one, else the sign-in one, else ""; avatar is the stored photo, else the sign-in photo, else the uid-seeded placeholder |
| ProfilePage.StoredZeroReplaced | src/app/customer/profile/page.tsx:66-67 | A stored height of 0 shows as 175; a missing age shows as 0 |
| ProfilePage.StrippedProfile | src/app/customer/profile/page.tsx:105 | The save drops uid, email, avatarUrl and role and keeps every other field unchanged |
| ProfilePage.SavedFieldsOfLoaded | src/app/customer/profile/page.tsx:101-107 | A loaded profile saves exactly the ten defaulted fields and fullName |
| ProfilePage.SliderBounds | src/app/customer/profile/page.tsx:36-38 | Height runs over [120, 220], Weight over [40, 150], and every other slider over [50, 150] |
| ProfilePage.Page.constructor | src/app/customer/profile/page.tsx:47-50 | The page starts with no profile, not editing, loading |
| ProfilePage.Page.Load | src/app/customer/profile/page.tsx:53-86 | With a customer document the profile is the filled-out one; with none it is kept; signing out clears it |
| ProfilePage.Page.StartEditing | src/app/customer/profile/page.tsx:173 | The edit button turns editing on |
| ProfilePage.Page.SliderChange | src/app/customer/profile/page.tsx:88-92 | A slider sets exactly its field to its first thumb's value |
| ProfilePage.Page.TextChange | src/app/customer/profile/page.tsx:94-99 | An editable input sets exactly its field to the typed text |
| ProfilePage.Page.Save | src/app/customer/profile/page.tsx:101-116 | Without a profile nothing happens; a failed write shows the error and keeps editing; success merges the stripped profile into `customers/uid` and ends editing; `isSaving` is false afterwards |
| AuthRedirect.GetUserRole | src/hooks/useAuthRedirect.ts:12-26 | The role is customer iff a customer document exists, tailor iff only a tailor document exists, and none iff neither exists |
| AuthRedirect.Redirect | src/hooks/useAuthRedirect.ts:32-39 | A route is pushed iff a user is signed in and has a role, and it is that role's dashboard |
| AuthRedirect.RoleDependsOnlyOnExistence | src/hooks/useAuthRedirect.ts:12-39 | Only the existence of the two documents matters; their contents, the onboarding flag among them, do not |
| AuthRedirect.CustomerFirst | src/hooks/useAuthRedirect.ts:14-17 | A customer document wins whatever the tailor collection holds, and the redirect is "/customer/dashboard" |
| LoginForm.FailureDescriptionsIdentifyCause | src/components/login-form.tsx:208-215 | The expired text appears iff the code expired, the invalid text iff the code is invalid, and the default text for anything else |
| LoginForm.ResendCaption | src/components/login-form.tsx:315 | The resend caption is plain "Resend OTP" exactly when the cooldown is 0; otherwise it is "Resend OTP in " followed by a numeral that reads back as the remaining seconds, then "s" |
| LoginForm.Form.constructor | src/components/login-form.tsx:48-52 | The form starts at the phone step with cooldown 0, empty inputs, not loading |
| LoginForm.Form.Tick | src/components/login-form.tsx:74-80 | One timer tick lowers a positive cooldown by one and leaves 0 at 0, so the cooldown stays in [0, 30] |
| LoginForm.Form.RunCooldown | src/components/login-form.tsx:74-80 | The timer fires once per second of cooldown and then stops at 0, after which resend is enabled unless loading |
| LoginForm.Form.SetPhone | src/components/login-form.tsx:271 | Typing sets the phone number |
| LoginForm.Form.SetOtp | src/components/login-form.tsx:292 | Typing sets the code |
| LoginForm.Form.SelectCountry | src/components/login-form.tsx:254 | Picking a country sets the dialling prefix |
| LoginForm.Form.PhoneSignIn | src/components/login-form.tsx:151-178 | The number dialled is the prefix followed by the phone; a sent code opens the code step with cooldown 30 and the "OTP Sent" toast; a failure changes only the toast; loading always ends |
| LoginForm.Form.Resend | src/components/login-form.tsx:311-312 | Resend, enabled only when not loading and the cooldown is 0, requests a new code; on success it restarts the cooldown and a new confirmation is pending, on failure the previous confirmation is kept |
| LoginForm.Form.Back | src/components/login-form.tsx:299-307 | The "Back" link goes back to the phone step |
| LoginForm.Form.SuccessfulLogin | src/components/login-form.tsx:111-130 | The profile is created under the form's role, then the route is that role's dashboard; if creation fails there is no route, a toast appears and loading ends |
| LoginForm.Form.GoogleSignIn | src/components/login-form.tsx:132-149 | A popup user signs in as above, and the profile is merged into the role's collection exactly when the dashboard route is taken; otherwise nothing is written; a popup error ends loading, with an error toast unless the user closed the popup |
| LoginForm.Form.OtpSubmit | src/components/login-form.tsx:185-223 | Without a pending confirmation it returns to the phone step with "Please request a new OTP."; a confirmed user signs in, with the profile written only on success; any other answer ends loading with the text for its error code and writes nothing, and an invalid code also clears the typed code |
| LoginForm.SendAndConfirm | src/components/login-form.tsx:151-223 | Sending a code and confirming it signs the user in: the profile document exists and the route is the role's dashboard |
| TailorCard.StarRow | src/components/tailor-card.tsx:11-27 | The row is drawn iff no count is negative; it then has five stars: the full ones first, then the half star at position floor(rating) if there is one, then empty ones |
| TailorCard.StarSplit | src/components/tailor-card.tsx:12-14 | fullStars = floor(rating); a half star iff the rating is not whole; full + half + empty = 5; a rating in [0, 5] always draws |
| TailorCard.OverFiveDoesNotDraw | src/components/tailor-card.tsx:14-22 | A rating of 5.5 yields a negative empty count, so the row cannot be drawn |
| TailorCard.ShownSpecialties | src/components/tailor-card.tsx:60 | The badges are the first min(3, n) specialties, in order |
| TailorCard.AvatarImagePerTailor | src/components/tailor-card.tsx:30-37 | Two cards share a placeholder image iff their tailors share an id |
| TailorCard.AvatarInitial | src/components/tailor-card.tsx:38 | The fallback is the name's first character, or empty for an empty name |
| Ui.PicsumAvatarInjective | src/components/tailor-card.tsx:30 | Distinct seeds give distinct placeholder URLs |
| Ui.Highlighted | src/components/customer-sidebar.tsx:39-43 | Entry i of a sidebar menu is highlighted iff the path starts with its link; both sidebars use the same test |
| Ui.AtMostOneActive | src/components/customer-sidebar.tsx:43 | In a menu where no link is a prefix of another, at most one entry is active for any path |
| CustomerSidebar.MenuIsPrefixFree | src/components/customer-sidebar.tsx:16-22 | No customer link is a prefix of another, so at most one customer entry is highlighted for any path |
| CustomerSidebar.PrefixMatching | src/components/customer-sidebar.tsx:43 | Matching is a plain prefix test: "/customer/profile-x" highlights Profile and "/customer" highlights nothing |
| TailorSidebar.LinksUnderTailor | src/components/tailor-sidebar.tsx:16-22 | Every tailor link begins with "/tailor/" |
| TailorSidebar.MenuIsPrefixFree | src/components/tailor-sidebar.tsx:16-22 | No tailor link is a prefix of another, so at most one tailor entry is highlighted for any path |
| TailorSidebar.CustomerPathsHighlightNothing | src/components/tailor-sidebar.tsx:43 | A customer page highlights no tailor entry |

## Left out

- Firebase: authentication, the network and the recaptcha verifier are not modelled. Their answers are parameters (the signed-in user, `writeFails`, the popup and confirmation answers, `codeSent`). `serverTimestamp()` is one opaque value.
- The recommendation agent (`src/ai/flows/tailor-recommendation.ts`) is a function parameter. Its own checking of its output is not modelled.
- The IP geolocation lookup and the WebOTP autofill of the login form are browser and network I/O. `src/lib/countries.ts` is not part of this model, so the dialling prefix is a constructor argument that `SelectCountry` changes.
- Rendering, toasts and router pushes are not modelled as effects. A toast and a route are values that a handler returns. `revalidatePath` is not modelled.
- Interleaving of asynchronous auth callbacks with saves in flight is not modelled. Each handler runs to completion.
- Numbers are exact reals, not IEEE doubles. `Number(text)` accepts a sign, digits and at most one decimal point. Exponents, hexadecimal and `Infinity` are not modelled.
- Zod string lengths count characters, where JavaScript counts UTF-16 code units.
- No cm↔inch conversion exists in the source, so none is modelled.
- The ruler's `step` property is never read by the source, and the model drops it.
- Browser clamping of `scrollLeft` to the scrollable range is not modelled: `Scroll` takes any position.
- DocumentStore.MergeWrite: merges top-level fields only. Firestore also merges nested maps field by field, so a stored measurement key missing from a newly saved `measurements` object survives there and is dropped here.
- UserActions.UpdateUserProfile: an address part that is truthy but not a string, such as a number, is treated as missing, because the model formats the address from strings only.
- MeasurementPage.Page.Load: a truthy `measurements` field that is not an object of numbers is treated as absent. The source would install it as the measurements.
- MeasurementCard.Find: the contract says a found point is in the list and has the name. It does not say the point is the first such one. With the unique names of `Points` (see `PointsLayout`) the two coincide.
- OnboardingPage.Page.HandleNext: the carousel's `select` event is folded into the step change. With a carousel attached, `current` advances at once; without one, nothing moves.
- OnboardingPage.Page.OnSubmit: the toast is given by its description only. The titles ("Error" or "Success") are not modelled.
- The login form's `isLoading` stays true after a successful sign-in while the page navigates away. The model keeps that state and does not model the next page.
- Browser-level `required` attributes on the recommendation form are not modelled. The server-side check covers the same fields.
- The tailor card's numeric displays (`rating.toFixed(1)`, the distance) and the markup are not modelled.
