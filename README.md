# AutoGrant front-end rules, modelled in Dafny

AutoGrant is a grant-discovery web application. Almost all of it is React/Next.js
markup over a hosted document store and identity provider. This project models the
few rules with real logic inside its components. Each rule is stated and proved
about a Dafny model:

- **Profile-completion card.** The card counts how many of nine profile fields are
  filled. It shows the rounded percentage and hides itself at 100%.
- **Business-profile provider.** This holds the user's list of business profiles
  and the selected one. When a new list arrives from the live query, it reconciles
  the selection with that list. It also has a signed-out reset, an error callback,
  `switchProfile` and the `useProfile` guard.
- **Top bar.** This covers the unread count, mark-one-read and mark-all-read over
  the notification list, and the two dropdowns that are never open together.
- **Sidebar profile section.** This covers the add-profile dialog (trimmed-name
  guard, the write, and the state after success or failure), the disabled rule
  of the create button, and the list of other profiles to switch to.
- **Landing-page auth dialog.** Opening it resets the form. Submitting checks the
  password confirmation in sign-up mode and maps the identity provider's error
  codes to messages.
- **Custom-field dialog.** Its submit guard ignores a blank name; a valid submit
  resets the form to its defaults.
- **FAQ accordion.** It has one `openItem` slot, so at most one answer is shown.
- **Testimonial initials.** The initials are `split(' ').map(n => n[0]).join('')`.

There is one module per component: `ProfileCompletion`, `ProfileContext`,
`Topbar`, `Sidebar`, `Hero`, `AddFieldModal`, `Faq` and `Testimonials`. A
`Common` module holds `Option`, `Result` and an exact model of
`String.prototype.trim`, which removes the ECMAScript WhiteSpace and
LineTerminator code points.

Some components are pure computations: the completion card, the initials, the
other-profiles filter and the error-message mapping. These are functions, with
lemmas about them. Components whose `useState` slots change become classes, with one
field per slot the model covers. Their handlers are methods whose postconditions give the whole
new state in terms of the old state.

External calls are left abstract. These are the identity provider's sign-in and
sign-up, the document store's `addDoc` and `onSnapshot`, the router and the
toasts. Each call's outcome is a method parameter: success, a thrown error, or
an error code. What the component passes out is a method result, such as the
account call with its email and password, the document written, the route
pushed, or the toast shown. Every run is sequential: an `await` is the point
where the outcome parameter is consulted.

Things the model shows about the code:

- A missing profile field is `undefined`, which is falsy like `""`, so the model
  stores it as `""`.
- `Math.round(k / 9 * 100)` is computed exactly as `(200k + 9) / 18`. For
  k = 0..9, 100k/9 is never exactly half-way between two integers. The percentage
  can only be 0, 11, 22, 33, 44, 56, 67, 78, 89 or 100. The card hides at 100,
  so it shows one of the first nine.
- In the provider, `selectedProfile` in the snapshot callback is the value
  captured when the effect last subscribed. The effect re-subscribes whenever
  `selectedProfile` changes, so in a sequential run it is the current
  selection. `OnSnapshot` reads the field.
- `switchProfile` does not check that the profile is listed. The sidebar may
  select a profile that the provider's list does not yet contain. Any later
  snapshot that contains its id keeps it (`ReconcileKeeps`).
- The empty-name toast "Business name cannot be empty." also appears when no
  user is signed in.
- The confirmation field is read through a ref. When the field is not rendered,
  the ref is null and its value is `undefined`, which no password equals. The
  model passes that value as `Option<string>`.
- Toggling the same FAQ question twice restores the previous state only when
  nothing was open, or that same question was open. If another question was
  open, the first toggle replaces it, so two toggles leave everything closed
  (`ToggleTwiceFromOther`).

Two event-wiring details lie outside this sequential model, and the model does
not claim anything about them:

- The auth dialog's submit button has an `onClick` handler and also sits in a
  form whose `onSubmit` calls the same handler. The mode-toggle button in that
  form has no `type="button"`, so it submits the form too.
- In the sidebar, pressing Enter calls `handleAddProfile` without checking
  `isCreatingProfile`. The disabled button does check it.

## Model

| member | source | states |
|---|---|---|
| Common.IsWhiteSpace | autogrant-dev/src/components/dashboard/sidebar.tsx:48 | the code points `trim()` strips: ECMAScript WhiteSpace and LineTerminator; what trimming does with them is stated by TrimStart, TrimEnd, TrimIsInfix and TrimRemovesWhiteSpace |
| Common.Trim | autogrant-dev/src/components/dashboard/sidebar.tsx:48 | `String.prototype.trim`: both ends stripped; its meaning is given by TrimIsInfix, TrimRemovesWhiteSpace, TrimEmptyIff and TrimIdempotent |
| Common.TrimStart | autogrant-dev/src/components/dashboard/sidebar.tsx:48 | removing leading whitespace leaves a suffix of the input; everything removed is whitespace, and the result does not start with whitespace |
| Common.TrimEnd | autogrant-dev/src/components/dashboard/sidebar.tsx:48 | removing trailing whitespace leaves a prefix of the input; everything removed is whitespace, and the result does not end with whitespace |
| Common.TrimIsInfix | autogrant-dev/src/components/dashboard/sidebar.tsx:58 | `trim()` returns the contiguous piece of the input that starts after the leading whitespace, and that piece has no whitespace at either end |
| Common.TrimRemovesWhiteSpace | autogrant-dev/src/components/dashboard/sidebar.tsx:58 | every character that `trim()` removes, before or after the kept piece, is whitespace |
| Common.TrimEmptyIff | autogrant-dev/src/components/AddFieldModal.tsx:18 | `!s.trim()` holds exactly when every character of `s` is whitespace (both directions) |
| Common.TrimIdempotent | autogrant-dev/src/components/dashboard/sidebar.tsx:48 | a general property of `trim()`: trimming a trimmed string changes nothing |
| ProfileCompletion.Percentage | autogrant-dev/src/components/dashboard/profile-completion-card.tsx:24-38 | the card's `percentage`; its meaning is given by NoProfileIsZero, PercentageIsRoundedShare, PercentageFullIff, FillingFieldIncreases and PercentageTable |
| ProfileCompletion.ShowCard | autogrant-dev/src/components/dashboard/profile-completion-card.tsx:41-43 | whether the card renders; ShowCardIff states exactly when |
| ProfileCompletion.CountFilled | autogrant-dev/src/components/dashboard/profile-completion-card.tsx:34 | the number of filled fields never exceeds the number of fields checked |
| ProfileCompletion.RoundedPercent | autogrant-dev/src/components/dashboard/profile-completion-card.tsx:37 | the result is Math.round(100k/9): the integer r with r <= 100k/9 + 1/2 < r + 1; it is at most 100 |
| ProfileCompletion.CountFilledFullIff | autogrant-dev/src/components/dashboard/profile-completion-card.tsx:34 | the filled count equals the number of names exactly when every listed field is non-empty |
| ProfileCompletion.NoProfileIsZero | autogrant-dev/src/components/dashboard/profile-completion-card.tsx:25 | a null profile gives 0%, so the card shows |
| ProfileCompletion.PercentageIsRoundedShare | autogrant-dev/src/components/dashboard/profile-completion-card.tsx:28-37 | for a profile, the percentage is the rounding of 100 × (filled among the nine) / 9 and lies in [0, 100] |
| ProfileCompletion.PercentageFullIff | autogrant-dev/src/components/dashboard/profile-completion-card.tsx:28-37 | the percentage is 100 exactly when all nine fields are non-empty |
| ProfileCompletion.ShowCardIff | autogrant-dev/src/components/dashboard/profile-completion-card.tsx:41-43 | the card renders exactly when there is no profile or some of the nine fields is empty |
| ProfileCompletion.CountFilledOneMore | autogrant-dev/src/components/dashboard/profile-completion-card.tsx:34 | filling one empty field, with all other listed fields the same, raises the count by exactly one |
| ProfileCompletion.CountFilledSame | autogrant-dev/src/components/dashboard/profile-completion-card.tsx:34 | profiles that agree on every listed field have the same count |
| ProfileCompletion.FillingFieldIncreases | autogrant-dev/src/components/dashboard/profile-completion-card.tsx:34-37 | filling in one more field, changing nothing else, strictly raises the percentage, so it never lowers it |
| ProfileCompletion.PercentageTable | autogrant-dev/src/components/dashboard/profile-completion-card.tsx:37 | the percentage is one of 0, 11, 22, 33, 44, 56, 67, 78, 89, 100 |
| ProfileCompletion.RoundedPercentTable | autogrant-dev/src/components/dashboard/profile-completion-card.tsx:37 | Math.round(k / 9 * 100) for k = 0..9 is 0, 11, 22, 33, 44, 56, 67, 78, 89, 100 in turn |
| ProfileContext.FindById | autogrant-dev/src/context/ProfileContext.tsx:44 | `find` by id returns nothing exactly when no listed profile has the id; otherwise it returns the first listed profile with that id, every earlier profile having another id |
| ProfileContext.Reconcile | autogrant-dev/src/context/ProfileContext.tsx:44-48 | the selection rule for a new snapshot; ReconcileListed, ReconcileFallsBack, ReconcileKeeps, ReconcileEmpty and ReconcileIdempotent state what it does |
| ProfileContext.ReconcileListed | autogrant-dev/src/context/ProfileContext.tsx:44-47 | after a snapshot, an empty list has no selection, and a non-empty list has a selection whose id is one of the listed ids |
| ProfileContext.ReconcileFallsBack | autogrant-dev/src/context/ProfileContext.tsx:44-45 | with no previous selection, or one whose id is no longer listed, the first profile of a non-empty list becomes selected |
| ProfileContext.ReconcileKeeps | autogrant-dev/src/context/ProfileContext.tsx:44-48 | a previous selection whose id is still listed is kept unchanged |
| ProfileContext.ReconcileEmpty | autogrant-dev/src/context/ProfileContext.tsx:46-47 | an empty snapshot clears the selection |
| ProfileContext.ReconcileIdempotent | autogrant-dev/src/context/ProfileContext.tsx:43-48 | delivering the same snapshot twice gives the same selection as delivering it once |
| ProfileContext.ProfileProvider.constructor | autogrant-dev/src/context/ProfileContext.tsx:23-25 | the provider starts with no profiles, no selection, and loading true |
| ProfileContext.ProfileProvider.SignedOut | autogrant-dev/src/context/ProfileContext.tsx:28-32 | with no user: profiles become empty, the selection null, and loading false |
| ProfileContext.ProfileProvider.OnSnapshot | autogrant-dev/src/context/ProfileContext.tsx:37-50 | profiles become the snapshot in snapshot order, the selection is reconciled with it (and so is consistent with it), and loading becomes false |
| ProfileContext.ProfileProvider.OnError | autogrant-dev/src/context/ProfileContext.tsx:51-54 | the error callback only sets loading to false |
| ProfileContext.ProfileProvider.SwitchProfile | autogrant-dev/src/context/ProfileContext.tsx:59-61 | the selection becomes exactly the given profile; nothing else changes |
| ProfileContext.UseProfile | autogrant-dev/src/context/ProfileContext.tsx:72-77 | the hook fails exactly outside a provider and otherwise returns the provider's value |
| ProfileContext.UseProfileOutsideProvider | autogrant-dev/src/context/ProfileContext.tsx:74-76 | outside a provider the hook fails with "useProfile must be used within a ProfileProvider" |
| Topbar.UnreadCount | autogrant-dev/src/components/dashboard/topbar.tsx:88 | the unread count never exceeds the number of notifications |
| Topbar.MarkAsRead | autogrant-dev/src/components/dashboard/topbar.tsx:89 | length, order, ids and texts are preserved; a notification is read afterwards exactly when it was read before or has the given id |
| Topbar.MarkAllAsRead | autogrant-dev/src/components/dashboard/topbar.tsx:90 | length and order are preserved, and each notification is the same record marked read |
| Topbar.ShowUnreadControls | autogrant-dev/src/components/dashboard/topbar.tsx:122-129 | whether the badge and "Mark all read" render; ShowUnreadControlsIff and MarkAllAsReadClears state when |
| Topbar.UnreadZeroIff | autogrant-dev/src/components/dashboard/topbar.tsx:88 | the count of unread notifications is 0 exactly when every notification is read |
| Topbar.ShowUnreadControlsIff | autogrant-dev/src/components/dashboard/topbar.tsx:122 | the badge and "Mark all read" appear exactly when some notification is unread |
| Topbar.MarkAsReadOnlyTouchesId | autogrant-dev/src/components/dashboard/topbar.tsx:89 | notifications with other ids are unchanged; those with the id become read and change in nothing else |
| Topbar.MarkAsReadIdempotent | autogrant-dev/src/components/dashboard/topbar.tsx:89 | marking the same id read twice equals marking it once |
| Topbar.MarkAsReadLowersCount | autogrant-dev/src/components/dashboard/topbar.tsx:88-89 | marking an id read never raises the unread count, and lowers it when a notification with that id was unread |
| Topbar.MarkAllAsReadClears | autogrant-dev/src/components/dashboard/topbar.tsx:88-90 | after mark-all-read the unread count is 0, and the badge and button are hidden |
| Topbar.InitialUnreadCount | autogrant-dev/src/components/dashboard/topbar.tsx:46-50 | two of the three initial notifications are unread, so the badge shows |
| Topbar.TopBar.constructor | autogrant-dev/src/components/dashboard/topbar.tsx:42-50 | the bar starts with both dropdowns closed and the three initial notifications |
| Topbar.TopBar.ToggleNotificationDropdown | autogrant-dev/src/components/dashboard/topbar.tsx:120 | the notification dropdown flips, the user menu closes, and at most one dropdown is open |
| Topbar.TopBar.ToggleUserDropdown | autogrant-dev/src/components/dashboard/topbar.tsx:151 | the user menu flips, the notification dropdown closes, and at most one dropdown is open |
| Topbar.TopBar.CloseAllDropdowns | autogrant-dev/src/components/dashboard/topbar.tsx:95-98 | both dropdowns are closed |
| Topbar.TopBar.MarkNotificationRead | autogrant-dev/src/components/dashboard/topbar.tsx:134 | clicking a notification replaces the list by markAsRead of it; the count does not rise and the dropdowns are untouched |
| Topbar.TopBar.MarkAllNotificationsRead | autogrant-dev/src/components/dashboard/topbar.tsx:129 | the list is replaced by markAllAsRead of it and the unread count becomes 0 |
| Sidebar.OtherProfiles | autogrant-dev/src/components/dashboard/sidebar.tsx:145 | a profile is offered exactly when it is listed and its id differs from the selected id (every one is offered with no selection); the list is no longer than the input; order is fixed by OtherProfilesAppend and OtherProfilesSingle |
| Sidebar.OtherProfilesAppend | autogrant-dev/src/components/dashboard/sidebar.tsx:145 | filtering a concatenation is the concatenation of the filtered parts, so the filter keeps list order and keeps each occurrence once |
| Sidebar.OtherProfilesSingle | autogrant-dev/src/components/dashboard/sidebar.tsx:145 | a one-profile list is kept exactly when the profile's id differs from the selected id, or nothing is selected; with OtherProfilesAppend this fixes the result on every list |
| Sidebar.OtherProfilesNoSelection | autogrant-dev/src/components/dashboard/sidebar.tsx:145 | with no selection every profile is offered, in list order |
| Sidebar.OtherProfilesDropsOne | autogrant-dev/src/components/dashboard/sidebar.tsx:145 | with distinct ids and the selected id listed, exactly one profile is left out |
| Sidebar.OtherProfilesKeepsAll | autogrant-dev/src/components/dashboard/sidebar.tsx:145 | a list without the selected id is offered whole, in order |
| Sidebar.ShownOtherProfiles | autogrant-dev/src/components/dashboard/sidebar.tsx:142-146 | the rendered switch list; ShownOtherProfilesCases states that it is the filtered list once loading is over with two or more profiles and empty otherwise, and ShownOtherProfilesExcludesSelected that it never holds the selected id |
| Sidebar.ShownOtherProfilesExcludesSelected | autogrant-dev/src/components/dashboard/sidebar.tsx:142-146 | the rendered list never contains the selected id, and is empty with at most one profile or while loading |
| Sidebar.ShownOtherProfilesCases | autogrant-dev/src/components/dashboard/sidebar.tsx:122-146 | for any selection or none: not loading with two or more profiles renders exactly the filtered list (its contents and order fixed by OtherProfilesAppend and OtherProfilesSingle); loading or at most one profile renders nothing |
| Sidebar.CreateDisabled | autogrant-dev/src/components/dashboard/sidebar.tsx:232 | the create button's `disabled`; CreateDisabledIff states exactly when |
| Sidebar.CreateDisabledIff | autogrant-dev/src/components/dashboard/sidebar.tsx:232 | the create button is disabled exactly when the name is all whitespace or a creation is in progress |
| Sidebar.ProfileSwitcher.constructor | autogrant-dev/src/components/dashboard/sidebar.tsx:43-45 | the dialog starts closed, with an empty name and no creation in progress |
| Sidebar.ProfileSwitcher.OpenAddProfileModal | autogrant-dev/src/components/dashboard/sidebar.tsx:136 | "Add new profile" opens the dialog and keeps the name |
| Sidebar.ProfileSwitcher.SetNewBusinessName | autogrant-dev/src/components/dashboard/sidebar.tsx:214 | typing sets the name only |
| Sidebar.ProfileSwitcher.CancelAddProfile | autogrant-dev/src/components/dashboard/sidebar.tsx:196-199 | cancel closes the dialog and clears the name |
| Sidebar.ProfileSwitcher.HandleAddProfile | autogrant-dev/src/components/dashboard/sidebar.tsx:47-74 | a blank trimmed name or no user writes nothing, shows the empty-name toast and changes no state. Otherwise the trimmed name is written into the user's profile collection, with the server-timestamp sentinel as its creation time. On success the new profile is selected, the name is cleared and the dialog closes. On failure the name, dialog and selection are kept. Creation ends false after the write either way, and the provider's list and loading flag are untouched |
| Sidebar.ProfileSwitcher.CreateProfile | autogrant-dev/src/components/dashboard/sidebar.tsx:52-73 | after the guard: success selects a profile with the new id and the trimmed name, clears the name, closes the dialog and shows "Profile created!". Failure keeps the selection, name and dialog and shows "Failed to create profile.". Creation ends false either way, and the provider's list and loading flag are untouched |
| Hero.SignUpErrorMessage | autogrant-dev/src/components/Hero.tsx:64-67 | the sign-up error message for a code; SignUpErrorMessageIff states the mapping in both directions |
| Hero.LoginErrorMessage | autogrant-dev/src/components/Hero.tsx:79-83 | the login error message for a code; LoginErrorMessageIff states the mapping in both directions |
| Hero.Confirms | autogrant-dev/src/components/Hero.tsx:51-53 | `password === confirmPasswordRef.current?.value`, with an absent field never confirming; HandleAuthAction states its use |
| Hero.SignUpErrorMessageIff | autogrant-dev/src/components/Hero.tsx:64-67 | `auth/email-already-in-use`, and only that code, gives the existing-account message; every other code gives the generic sign-up message |
| Hero.LoginErrorMessageIff | autogrant-dev/src/components/Hero.tsx:79-83 | the three credential codes, and only they, give "Invalid email or password…"; every other code gives the generic login message |
| Hero.AuthForm.constructor | autogrant-dev/src/components/Hero.tsx:12-19 | the dialog starts closed, in login mode, with an empty form, no error and not loading |
| Hero.AuthForm.OpenAuthModal | autogrant-dev/src/components/Hero.tsx:32-39 | the mode is set, the dialog opens, and the error, email and password are cleared |
| Hero.AuthForm.CloseAuthModal | autogrant-dev/src/components/Hero.tsx:41-43 | only the dialog closes |
| Hero.AuthForm.ToggleMode | autogrant-dev/src/components/Hero.tsx:408 | the mode flips and nothing else changes |
| Hero.AuthForm.SetCredentials | autogrant-dev/src/components/Hero.tsx:349-366 | typing sets the email and password only |
| Hero.AuthForm.HandleAuthAction | autogrant-dev/src/components/Hero.tsx:45-88 | loading is false on every path, and the error is cleared at the start. In sign-up mode an unconfirmed password sets "Passwords do not match." and makes no call. Otherwise sign-up calls create-user and login calls sign-in, with the form's email and password. Success routes to /onboarding or /dashboard, closes the dialog and leaves no error. Failure maps the error code to the mode's message and keeps the dialog |
| AddFieldModal.Accepts | autogrant-dev/src/components/AddFieldModal.tsx:18 | the submit guard `fieldName.trim()`; AcceptsIff states exactly when it passes |
| AddFieldModal.AcceptsIff | autogrant-dev/src/components/AddFieldModal.tsx:18 | a name is accepted exactly when it has a character that is not whitespace |
| AddFieldModal.FieldForm.constructor | autogrant-dev/src/components/AddFieldModal.tsx:11-12 | the form starts with an empty name and type "text", one of the six types offered |
| AddFieldModal.FieldForm.SetFieldName | autogrant-dev/src/components/AddFieldModal.tsx:52 | typing sets the name only |
| AddFieldModal.FieldForm.SetFieldType | autogrant-dev/src/components/AddFieldModal.tsx:65-73 | choosing one of text, number, date, email, url, tel sets the type only |
| AddFieldModal.FieldForm.HandleSubmit | autogrant-dev/src/components/AddFieldModal.tsx:16-24 | a blank name calls nothing and changes nothing. A valid name calls `onAdd` with the untrimmed name and current type, resets the form to "" and "text", and calls `onClose` |
| Faq.Toggle | autogrant-dev/src/components/FAQ.tsx:42 | the new `openItem` of `toggleItem`; ToggleOpensOrCloses, ToggleTwiceRestores and ToggleTwiceFromOther state what it does |
| Faq.AnswerShown | autogrant-dev/src/components/FAQ.tsx:80 | whether an answer renders; AtMostOneShown, NoneShown and FaqShowsAtMostOne state how many do |
| Faq.ToggleOpensOrCloses | autogrant-dev/src/components/FAQ.tsx:41-43 | toggling a closed item opens it and shows its answer; toggling the open item closes everything |
| Faq.ToggleTwiceRestores | autogrant-dev/src/components/FAQ.tsx:41-43 | from nothing open, or from the same item open, toggling an item twice restores the state |
| Faq.ToggleTwiceFromOther | autogrant-dev/src/components/FAQ.tsx:41-43 | with another item open, toggling an item twice leaves everything closed |
| Faq.AtMostOneShown | autogrant-dev/src/components/FAQ.tsx:80 | with distinct ids at most one answer is shown, and exactly one when the open item is listed |
| Faq.NoneShown | autogrant-dev/src/components/FAQ.tsx:80 | when the open item is not listed, no answer is shown |
| Faq.FaqShowsAtMostOne | autogrant-dev/src/components/FAQ.tsx:11-80 | on the FAQ page, with its five ids, at most one answer is ever shown |
| Faq.Accordion.constructor | autogrant-dev/src/components/FAQ.tsx:11 | every item starts closed |
| Faq.Accordion.ToggleItem | autogrant-dev/src/components/FAQ.tsx:41-43 | `openItem` becomes the toggle of its old value, and at most one answer is shown |
| Testimonials.Split | autogrant-dev/src/components/Testimonials.tsx:61 | `split(' ')` gives at least one piece, and no piece contains a space |
| Testimonials.FirstChar | autogrant-dev/src/components/Testimonials.tsx:61 | `n[0]` as `join` writes it, "" for an empty piece; JoinFirstCharsLength states its length |
| Testimonials.JoinFirstChars | autogrant-dev/src/components/Testimonials.tsx:61 | `.map(n => n[0]).join('')`; JoinFirstCharsLength and InitialsScan state what it produces |
| Testimonials.Initials | autogrant-dev/src/components/Testimonials.tsx:61 | an author's avatar initials; InitialsAreWordStarts, InitialsLength, LeadingSpaceIgnored, DoubleSpaceInitials, TwoWordInitials and ListedAuthors state what they are |
| Testimonials.JoinSplit | autogrant-dev/src/components/Testimonials.tsx:61 | joining the pieces with spaces gives back the author's name |
| Testimonials.SplitCount | autogrant-dev/src/components/Testimonials.tsx:61 | there is one more piece than there are spaces, so empty pieces are kept |
| Testimonials.InitialsScan | autogrant-dev/src/components/Testimonials.tsx:61 | the first characters of the pieces are the characters found by a left-to-right scan for word starts |
| Testimonials.InitialsAreWordStarts | autogrant-dev/src/components/Testimonials.tsx:61 | the initials are, in order, the non-space characters that begin the name or follow a space |
| Testimonials.JoinFirstCharsLength | autogrant-dev/src/components/Testimonials.tsx:61 | mapping to first characters and joining yields at most one character per piece, and exactly one per piece when no piece is empty |
| Testimonials.InitialsLength | autogrant-dev/src/components/Testimonials.tsx:61 | the initials are at most as long as the number of pieces, with equality exactly when no piece is empty |
| Testimonials.LeadingSpaceIgnored | autogrant-dev/src/components/Testimonials.tsx:61 | a leading space adds an empty piece, which contributes nothing to the initials |
| Testimonials.DoubleSpaceIgnored | autogrant-dev/src/components/Testimonials.tsx:61 | the word-start scan is the same for a doubled space as for a single one |
| Testimonials.DoubleSpaceInitials | autogrant-dev/src/components/Testimonials.tsx:61 | a repeated space adds an empty piece, which contributes nothing to the initials |
| Testimonials.WordStartsWord | autogrant-dev/src/components/Testimonials.tsx:61 | a word without spaces contributes only its first character, and only at a word start |
| Testimonials.TwoWordInitials | autogrant-dev/src/components/Testimonials.tsx:61 | a first and a last name joined by one space give the two first letters |
| Testimonials.ListedAuthors | autogrant-dev/src/components/Testimonials.tsx:9-61 | each of the three listed authors, Sarah Mitchell, Marcus Rodriguez and Emily Chen, shows the initials "SM", "MR" and "EC" respectively |

## Left out

- Identity provider, document store, router and toasts: these are external
  services. Their results are method parameters and the requests sent to them
  are method results.
- The live query's subscription lifecycle in the provider: subscribing
  (`ProfileContext.tsx:35`), re-subscribing when `selectedProfile` changes, and
  unsubscribing on teardown (`ProfileContext.tsx:56-57`). These concern the
  ordering of asynchronous listeners, which this sequential model does not
  capture.
- Concurrency between an awaited call and further user events. Examples are a
  second submit while a sign-in or profile creation is pending, or the doubled
  `onClick`/`onSubmit` wiring of the auth dialog. The model runs each handler to
  completion.
- The intermediate `isLoading` / `isCreatingProfile` value `true` while a call is
  pending. It cannot be observed in a run-to-completion model. The final values
  are stated.
- The SVG arc of the completion card: floating-point drawing only.
- The landing page's `isLoaded` slot (Hero.tsx:13): it only drives entrance
  animations through CSS classes, so it has no field.
- The stored `createdAt` time: the write carries the server-timestamp sentinel,
  and the store's clock fills it in. The provider's query orders profiles by
  that field (ProfileContext.tsx:35). The model takes each snapshot in the order
  delivered and does not model that ordering.
- The landing page's mobile-menu toggle, the top bar's click-outside listener,
  its search box (which only logs), and sign-out: browser events and external
  calls with no state rule of their own.
- `authcontext.tsx`, `Header.tsx`, `FeatureSection.tsx` and the static pages. They
  are not part of this model.
- Testimonials.FirstChar: `n[0]` on a JavaScript string is a UTF-16 code unit.
  Dafny's `char` is a Unicode scalar value, so a name that starts a word with a
  character outside the Basic Multilingual Plane is not modelled.
- AddFieldModal.FieldForm.SetFieldType: it requires one of the six offered
  values. The `<select>` can only produce those values.
