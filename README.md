# Health portal mockup: session, screens and form state in Dafny

This project models the client-side logic of a demonstration interface for a
national health portal. The portal has a patient login, a patient dashboard,
appointment booking, a telemedicine screen and an administrative waiting-list
panel. All data is fixed in the components, so the behaviour worth stating is
held in a few places:

- the application shell's session state: the authenticated flag, the role and the current view id;
- the switch that picks a screen for a view id;
- the role rule of the login form;
- the urgency filter, labels, colours and score bands of the admin panel;
- the role-dependent navigation bar;
- the selection flow of the booking screen;
- the pre-visit form of the telemedicine screen.

Modules follow the source files:

| module | file | form |
|---|---|---|
| `Types` | shared `Role` and `Option` | datatypes |
| `Sequences` | `Array.prototype.filter` as used by two screens | functions and inductive lemmas |
| `Navigation` | `src/components/Navigation.tsx` | pure functions |
| `Routing` | `src/App.tsx` | `ScreenFor` function plus class `App` with three fields |
| `Login` | `src/components/LoginScreen.tsx` | role function plus class `LoginForm` |
| `Admin` | `src/components/AdminPanel.tsx` | filter, label, colour and band functions plus class `AdminPanel` |
| `Booking` | `src/components/AppointmentBooking.tsx` | gate and doctor filter plus class `AppointmentBooking` |
| `Telemedicine` | `src/components/TelemedicineSession.tsx` | `PreVisitForm` record plus class `TelemedicineSession` |

Each React `useState` cell is a field of the component's class. Each event
handler is a method whose `ensures` give the whole new state. A callback
passed down from the shell (`onLogin`, `onNavigate`, `onLogout`) is modelled
by passing the `Routing.App` object and calling its `Login`, `Navigate` or
`Logout` method. Colours are the enumeration `Admin.Tone`, not CSS class strings.

Two behaviours of the code are kept as written, though a reader might expect otherwise:

- Logout leaves the role as it was (src/App.tsx:21-24). Only the authenticated flag and the view are reset.
- An unknown view id renders the dashboard but stays stored as the current view. The navigation bar therefore highlights nothing for ids such as "appointments".

The login submit handler reads the health id from the render in which the
form was submitted. `LoginForm.BeginSubmit` therefore returns that id, and
`LoginForm.CompleteSubmit` derives the role from it rather than from the
field's later contents.

The browser's own form checks are modelled as the submit step refusing. This
covers `required` inputs and a disabled submit button. In that case the step
reports the refusal (`None` or `false`) and changes nothing.

## Model

| member | source | states |
|---|---|---|
| `Sequences.Filter` | src/components/AdminPanel.tsx:109-112 | the result is no longer than the input and holds only input elements that satisfy the predicate |
| `Sequences.FilterMembership` | src/components/AdminPanel.tsx:109-112 | an element is in the result iff it is in the input and satisfies the predicate |
| `Sequences.FilterMultiset` | src/components/AdminPanel.tsx:109-112 | every copy of a passing element is kept and no copy of a failing one: the result's multiplicity of x is x's multiplicity in the input if x passes, else 0 |
| `Sequences.FilterIsSubsequence` | src/components/AdminPanel.tsx:109-112 | the result is a subsequence of the input: original order is kept |
| `Sequences.FilterKeepsAll` | src/components/AdminPanel.tsx:110 | a predicate true of every element returns the input unchanged |
| `Sequences.FilterIdempotent` | src/components/AdminPanel.tsx:109-112 | filtering twice equals filtering once |
| `Sequences.FilterEmptyIff` | src/components/AdminPanel.tsx:287 | the result is empty iff no input element satisfies the predicate |
| `Navigation.NavItemsFor` | src/components/Navigation.tsx:16-29 | admins get ids [admin, dashboard, settings], patients [dashboard, booking, telemedicine, history], in that order; ids are pairwise distinct |
| `Navigation.AtMostOneActive` | src/components/Navigation.tsx:52-56 | for any role and current view, two highlighted items are the same item |
| `Navigation.SomeActiveIff` | src/components/Navigation.tsx:52-53 | some item is highlighted iff the current view is one of the role's item ids |
| `Navigation.IsActive` | src/components/Navigation.tsx:52-53 | an item is highlighted iff the current view equals its id |
| `Navigation.OnItemClick` | src/components/Navigation.tsx:51 | clicking an item requests navigation to exactly that item's id |
| `Navigation.OnLogoutClick` | src/components/Navigation.tsx:69 | the logout button requests a logout and nothing else |
| `Routing.ScreenFor` | src/App.tsx:26-41 | each of login, dashboard, booking, telemedicine, admin selects the screen it names; every other id selects the dashboard |
| `Routing.ScreenForScreenId` | src/App.tsx:27-37 | every screen is selected by its own view id, which is a known id |
| `Routing.UnknownViewsRenderDashboard` | src/App.tsx:38-39 | "history", "settings" and "appointments" render the dashboard |
| `Routing.LandingView` | src/App.tsx:18 | the view after login is a known id whose screen is the admin panel for admins and the dashboard otherwise |
| `Routing.App.constructor` | src/App.tsx:11-13 | initially unauthenticated, role patient, view "login", login screen shown, no navigation bar |
| `Routing.App.CurrentScreen` | src/App.tsx:53-55 | the main area shows the screen the current view names, or the dashboard for an unknown view |
| `Routing.App.NavigationShown` | src/App.tsx:45-52 | the navigation bar is rendered iff the session is authenticated |
| `Routing.App.Login` | src/App.tsx:15-19 | authenticated, role set to the argument, view "admin" for admins else "dashboard"; the navigation bar is shown |
| `Routing.App.Logout` | src/App.tsx:21-24 | unauthenticated, view "login", login screen shown, no navigation bar, role unchanged |
| `Routing.App.Navigate` | src/App.tsx:31-37 | the view becomes exactly the argument, unvalidated; session flag and role unchanged; an unknown id shows the dashboard |
| `Routing.App.Dispatch` | src/App.tsx:46-51 | a navigation request sets the view to its id; a logout request logs out; the role is never changed |
| `Routing.App.ClickNavItem` | src/components/Navigation.tsx:46-56 | clicking the k-th item of the role's bar sets the view to that item's id, and that item becomes the only highlighted one |
| `Routing.App.ClickLogout` | src/components/Navigation.tsx:68-69 | the logout button has exactly the effect of a logout |
| `Routing.App.LoginThenLogout` | src/App.tsx:15-24 | for any role, login followed by logout gives an unauthenticated session on the login screen, keeping that role |
| `Login.Lower` | src/components/LoginScreen.tsx:25 | lower-casing keeps the length and folds each character on its own |
| `Login.RoleFor` | src/components/LoginScreen.tsx:25 | the role is admin iff the id has at least five characters spelling "admin" in any case mix; the password is not an input |
| `Login.RoleForExamples` | src/components/LoginScreen.tsx:24-25 | "admin123", "ADMIN123" and "AdMiN" give admin; "xadmin", "adm" and "12345678A" give patient |
| `Login.LoginForm.constructor` | src/components/LoginScreen.tsx:11-14 | both fields empty, password hidden, not loading |
| `Login.LoginForm.PasswordInputType` | src/components/LoginScreen.tsx:71 | the password input is of type text iff `showPassword` |
| `Login.LoginForm.SubmitDisabled` | src/components/LoginScreen.tsx:96 | the submit button is disabled exactly while `isLoading` |
| `Login.LoginForm.SetHealthId` | src/components/LoginScreen.tsx:57 | only the health id changes |
| `Login.LoginForm.SetPassword` | src/components/LoginScreen.tsx:74 | only the password changes |
| `Login.LoginForm.TogglePassword` | src/components/LoginScreen.tsx:81 | `showPassword` is negated and the input type flips; nothing else changes |
| `Login.LoginForm.ToggleTwice` | src/components/LoginScreen.tsx:81 | two toggles leave the whole form as it was |
| `Login.LoginForm.BeginSubmit` | src/components/LoginScreen.tsx:17-19 | a submission starts iff not loading and both required fields are filled; it then sets loading, which disables the button, and returns the submitted health id |
| `Login.LoginForm.CompleteSubmit` | src/components/LoginScreen.tsx:24-27 | the role is `RoleFor` of the submitted id; the shell is logged in under it on its landing view; loading ends; fields unchanged |
| `Login.AdminDemoLogin` | src/components/LoginScreen.tsx:17-28 | on a fresh shell, submitting "admin123" with any non-empty password yields role admin, view "admin", authenticated |
| `Admin.FilterWaitingList` | src/components/AdminPanel.tsx:109-112 | "all" returns the list unchanged; any other tag keeps exactly the entries with that urgency, every copy of each, as a subsequence in list order |
| `Admin.FilterWaitingListIdempotent` | src/components/AdminPanel.tsx:109-112 | filtering the filtered list again with the same tag changes nothing |
| `Admin.EmptyStateIff` | src/components/AdminPanel.tsx:287 | the empty-state message shows iff the list is empty ("all") or no entry has the chosen urgency |
| `Admin.HighFilterOnWaitingList` | src/components/AdminPanel.tsx:13-58 | on the shipped list, "high" keeps exactly entries 1 and 4, scored 85 and 92 |
| `Admin.NoOptionEmptiesWaitingList` | src/components/AdminPanel.tsx:177-186 | every option of the filter drop-down keeps at least one shipped entry |
| `Admin.UrgencyLabel` | src/components/AdminPanel.tsx:100-107 | high, medium, low read Alta, Media, Baja; the label is "Normal" iff the tag is none of those |
| `Admin.UrgencyColor` | src/components/AdminPanel.tsx:91-98 | the function is total: high, medium, low are red, yellow, green; gray iff the tag is none of those |
| `Admin.UrgencyBadgesDistinguishTags` | src/components/AdminPanel.tsx:91-107 | two different known tags get different labels and different colours |
| `Admin.LabelAndColorFallBackTogether` | src/components/AdminPanel.tsx:91-107 | the label is "Normal" iff the colour is gray |
| `Admin.ScoreBand` | src/components/AdminPanel.tsx:249-251 | red iff score >= 80, yellow iff 60 <= score < 80, green iff score < 60 |
| `Admin.ScoreBandMonotone` | src/components/AdminPanel.tsx:250-251 | a higher score never gets a less severe band |
| `Admin.WaitingListBandsMatchUrgency` | src/components/AdminPanel.tsx:13-58 | each shipped entry's score band equals its urgency badge colour |
| `Admin.AdminPanel.constructor` | src/components/AdminPanel.tsx:9-11 | filter "all" showing the whole list, modal closed, no patient selected |
| `Admin.AdminPanel.VisibleEntries` | src/components/AdminPanel.tsx:216 | the table rows are the whole list under "all", otherwise exactly the entries with the selected urgency, in list order |
| `Admin.AdminPanel.EmptyStateShown` | src/components/AdminPanel.tsx:287-297 | the empty-state message shows iff a tag other than "all" is selected and no listed patient carries it |
| `Admin.AdminPanel.EditModalShown` | src/components/AdminPanel.tsx:368 | the edit modal is rendered iff it is open and a patient is selected |
| `Admin.AdminPanel.SetFilter` | src/components/AdminPanel.tsx:179 | the filter becomes the chosen option and the rows are the list filtered by it; modal state unchanged |
| `Admin.AdminPanel.EditPatient` | src/components/AdminPanel.tsx:118-121 | the patient is selected and the modal is open and rendered |
| `Admin.AdminPanel.CancelEdit` | src/components/AdminPanel.tsx:397 | the modal is closed and not rendered; the selection and the filter are kept |
| `Admin.AdminPanel.SaveEdit` | src/components/AdminPanel.tsx:403-406 | the modal is closed and not rendered; the rows, the selection and the filter are unchanged |
| `Admin.AdminPanel.DeletePatient` | src/components/AdminPanel.tsx:123-126 | whatever the confirmation answer, the rows and the selection are unchanged; the answer only decides whether a notice is shown |
| `Booking.DoctorsFor` | src/components/AppointmentBooking.tsx:227-228 | a doctor is listed iff it is in the list and has the selected specialty, with every copy kept and list order kept |
| `Booking.NoPediatrician` | src/components/AppointmentBooking.tsx:15-44 | "Pediatría" is offered but has no doctor |
| `Booking.DoctorsPractiseOfferedSpecialties` | src/components/AppointmentBooking.tsx:15-44 | every listed doctor's specialty is one of the offered specialties |
| `Booking.SlotsDistinct` | src/components/AppointmentBooking.tsx:34-37 | no time slot appears twice |
| `Booking.SlotsGateOpen` | src/components/AppointmentBooking.tsx:196 | the slot gate is open iff specialty, location and date are all non-empty |
| `Booking.DropDownChoicesOpenGate` | src/components/AppointmentBooking.tsx:25-31 | any offered specialty and any of the five offered locations, with a date, open the slot grid; the empty placeholder option of either select (line 166 for the location) keeps it closed |
| `Booking.AppointmentBooking.constructor` | src/components/AppointmentBooking.tsx:9-13 | all four selections empty, confirmation off, no slots shown |
| `Booking.AppointmentBooking.SlotsShown` | src/components/AppointmentBooking.tsx:196 | the slot grid shows iff the selection page is up and specialty, location and date are all non-empty |
| `Booking.AppointmentBooking.SlotHighlighted` | src/components/AppointmentBooking.tsx:213 | a slot is highlighted iff it equals the selected time |
| `Booking.AppointmentBooking.ProfessionalsShown` | src/components/AppointmentBooking.tsx:223 | the professionals section shows iff the slot grid shows and a time is selected; so only with all three selections made |
| `Booking.AppointmentBooking.ListedDoctors` | src/components/AppointmentBooking.tsx:196-228 | no doctor is offered unless the professionals section shows: not before a time is chosen, not on the confirmation page, and not once the specialty, location or date is cleared again; when it shows, exactly the selected specialty's doctors are offered, every copy kept and in list order |
| `Booking.AppointmentBooking.SetSpecialty` | src/components/AppointmentBooking.tsx:145 | only the specialty changes |
| `Booking.AppointmentBooking.SetLocation` | src/components/AppointmentBooking.tsx:163 | only the location changes |
| `Booking.AppointmentBooking.SetDate` | src/components/AppointmentBooking.tsx:182 | only the date changes |
| `Booking.AppointmentBooking.SelectSlot` | src/components/AppointmentBooking.tsx:208-215 | the time becomes the clicked slot, which becomes the only highlighted slot; other state unchanged |
| `Booking.AppointmentBooking.BookAppointment` | src/components/AppointmentBooking.tsx:46-48 | confirmation on, slot grid hidden, selections unchanged |
| `Booking.AppointmentBooking.Modify` | src/components/AppointmentBooking.tsx:105 | confirmation off, selections unchanged, slots shown again iff the three-field gate is open |
| `Booking.AppointmentBooking.ConfirmBooking` | src/components/AppointmentBooking.tsx:50-55 | confirmation off and the shell is on "dashboard"; the session is unchanged |
| `Telemedicine.PreVisitForm.With` | src/components/TelemedicineSession.tsx:77-133 | the written field holds the new value and every other field is unchanged |
| `Telemedicine.EmptyForm` | src/components/TelemedicineSession.tsx:10-16 | every field is empty, so the required fields are not filled |
| `Telemedicine.PreVisitForm.RequiredFilled` | src/components/TelemedicineSession.tsx:80-92 | the form is submittable iff symptoms and duration, the two `required` fields, are non-empty |
| `Telemedicine.WithTwice` | src/components/TelemedicineSession.tsx:77-133 | writing a field twice keeps only the second value |
| `Telemedicine.WithCommutes` | src/components/TelemedicineSession.tsx:77-133 | writes to different fields commute |
| `Telemedicine.WithSameValue` | src/components/TelemedicineSession.tsx:77-133 | writing back a field's own value changes nothing |
| `Telemedicine.TelemedicineSession.constructor` | src/components/TelemedicineSession.tsx:9-16 | form hidden, all five fields empty |
| `Telemedicine.TelemedicineSession.OpenForm` | src/components/TelemedicineSession.tsx:210 | the form is shown with its previous contents |
| `Telemedicine.TelemedicineSession.CancelForm` | src/components/TelemedicineSession.tsx:142 | the form is hidden and its contents kept |
| `Telemedicine.TelemedicineSession.UpdateField` | src/components/TelemedicineSession.tsx:77-133 | exactly the edited field changes; the other four and the visibility flag are kept |
| `Telemedicine.TelemedicineSession.SubmitForm` | src/components/TelemedicineSession.tsx:49-53 | accepted iff symptoms and duration are filled; an accepted submit hides the form; the contents are never cleared |
| `Telemedicine.TelemedicineSession.ViewFullHistory` | src/components/TelemedicineSession.tsx:292-293 | the shell's view becomes "history", which renders the dashboard; the session is unchanged |

## Left out

- Translation: the `t()` lookup and language switching are not modelled. Their implementation, `src/contexts/LanguageContext`, is not part of this model. Navigation items keep only the locale key or literal text of their caption.
- `src/components/LanguageSelector.tsx` is not modelled: its only logic is a call into the language context.
- `src/types/language.ts` is not mirrored: the language code has no behaviour here.
- Rendering: markup, CSS class strings and icons are not modelled. Badge and bar colours are the `Tone` enumeration.
- Browser dialogs are not modelled: the `alert` notices of assigning a slot, saving, deleting, confirming a booking, joining the call and submitting the pre-visit form. `handleAssignSlot` and `handleJoinCall` only raise such a notice and change no state, so they have no counterpart.
- Timing: the one-second delay of the login submit is not modelled. Submission is split into `BeginSubmit` and `CompleteSubmit` with no clock between them.
- `Login.LoginForm.CompleteSubmit`: its final "loading ends" can never be observed in the source. `onLogin` switches the view away from "login" first, so the form is already gone when `setIsLoading(false)` runs (src/components/LoginScreen.tsx:26-27). The model keeps the form object alive and states the write anyway.
- Screens are not unmounted when the view changes: the component classes are independent of `Routing.App`, so the model does not reset their local state on navigation.
- Date input: the booking date's minimum, taken from the current clock, is not modelled. Selections are arbitrary strings.
- `Login.Lower`: folds ASCII letters only. JavaScript's `toLowerCase` is Unicode-aware.
- `Login.RoleFor` is exact despite the ASCII-only `Login.Lower`. The only non-ASCII character whose Unicode lower case contains one of a, d, m, i, n is U+0130. It lowers to "i" followed by U+0307, which fails the "admin" test at the next position. So the rule agrees with `toLowerCase().startsWith('admin')` on every health id.
- `src/components/PatientDashboard.tsx` is not modelled: it holds fixtures and constant navigation ids. Some of those ids appear as inputs in `Routing.UnknownViewsRenderDashboard`.
- Static fixtures of the admin panel are not modelled: the KPI cards, the per-specialty table and the alert boxes.
- The edit modal's urgency selector and notes box are not modelled: they are uncontrolled inputs whose values are never read.
- The booking confirmation page always names the same doctor, and the "forgot password" and "audio call" buttons have no handler. None of these have state to model.
