# Commute_io core, modelled in Dafny

Commute_io is a ride-sharing app: a React Native client and a FastAPI/SQLAlchemy backend. This
project models the parts of it that carry sequential logic, and proves what they promise:

- **Client state hooks.** `useRecurringRides`, `useRides` and `useMessages` are classes. Their
  lists, loading flag and error text are fields, and each action is a method whose `modifies`
  clause names exactly the fields the action sets. Every network call is an `Outcome` parameter,
  either `Success(value)` or `Failure(message)`. An error the hook rethrows is the `Thrown`
  value the method returns. Messaging adds the optimistic send protocol, read-marking and the
  unread total.
- **Auth session.** `useAuthProvider` is a class over `user`, `isLoading`, `isAuthenticated`
  and the two `pending_*` storage entries. The route a call goes to next is a returned value.
- **Screens and pickers.**
  - The root screen's routing decision (`app/index.tsx`).
  - The e-mail login screen's address pattern and submit handler.
  - The schedule pickers: the 48 half-hour time options, built by the same nested loop as the
    source, the passenger options, and select/close behaviour.
- **Backend tables.** The recurring-ride and ride-request tables are classes over a `seq` of
  rows, with an autoincrement key.
  - Create inserts a row. Update and delete are guarded by ownership. The partial patch runs the
    same `setattr` loop as the source and is proved equal to a field-by-field reference patch
    (`Patched`).
  - The getters are filters. The driver's request list is sorted newest first.
  - The endpoints map a missing or foreign row to a 404 reply.

Shared modules:

- `Outcomes`: optional values, call outcomes, and `err.message || fallback`.
- `Text`: JavaScript whitespace, `trim`, `toString`, `padStart`, and reading digits back.
- `Lists`: the array operations the hooks use, keyed by a field — replace by key, filter, find.

Value conventions:

- Times are integer milliseconds. Every `Date.now()` value and ISO stamp the source reads is a
  parameter; temporary ids are not assumed to be unique.
- Fares are whole cents and are never computed with.
- A `start_time` of a recurring ride is seconds after midnight.

Where the code's behaviour differs from what a reader might expect, the model follows the code:

- A failed `sendMessage` keeps the optimistic message in the open conversation; nothing rolls it
  back (hooks/useMessages.ts:195-198). `MessagesHook.Messages.SendMessage` states that it is kept.
- A failed read does not leave the hook's state as it was apart from the error:
  - `searchRecurringRides` and `getMyRecurringRides` clear their list.
  - The ride and message readers fill their lists with demo data and set no error.
  - The model states each of these as the code does.
- `day_of_week` is commented as 0..6 in the schema (backend/app/schema/recurring_ride.py:13), but neither the schema nor the endpoints check the range.
  The model keeps it a plain integer. `RecurringRidesHook.DayLabelsFromServer` shows that any
  other number reads "Unknown" on the client.
- The root screen treats a profile as finished when it has a name and an e-mail or phone. Code
  verification asks for a name and preferences instead. `IndexRoute.RootAndVerifyDiffer`
  exhibits a user that the two send to different screens.

## Model

| member | source | states |
|---|---|---|
| `Outcomes.ErrorText` | hooks/useRecurringRides.ts:77 | a non-empty error message is shown as it is; an empty one is replaced by the fallback, so the text is never empty |
| `Text.TrimEmptyIffAllSpace` | hooks/useMessages.ts:147 | `!content.trim()` holds exactly when the text is all whitespace (JavaScript's whitespace and line terminators) |
| `Text.TwoDigits` | components/ScheduleModals.tsx:102-103 | `n.toString().padStart(2, '0')` below 100 is two digits that read back as n |
| `RecurringRideSchema.ParseCreate` | backend/app/schema/recurring_ride.py:9-21 | a create body keeps every submitted field, and a missing `schedule_type` becomes "weekly" |
| `RecurringRideSchema.CreateResponseRoundTrip` | backend/app/schema/recurring_ride.py:34-39 | the response of a created row carries exactly the submitted fields, the caller as driver, status "active", and "weekly" when no schedule type was sent |
| `RecurringRideSchema.Patched` | backend/app/schema/recurring_ride.py:24-31 | an update can never change the id, driver, car, schedule type or timestamps, and the empty patch changes nothing |
| `RecurringRideSchema.SetattrLoopIsPatch` | backend/app/db/crud/recurring_ride.py:41-43 | the `setattr` loop over the explicitly sent fields ends with each sent value in its column and every other column as it was |
| `RecurringRideSchema.SetFieldsWritesNull` | backend/app/db/models/recurring_ride.py:11-22 | the loop writes a null into a NOT NULL column exactly when the body sends some field as null |
| `RecurringRideCrud.Limit` | backend/app/db/crud/recurring_ride.py:16 | `LIMIT n` keeps a prefix of at most n rows, all of them when n is negative |
| `RecurringRideCrud.GetRecurringRide` | backend/app/db/crud/recurring_ride.py:7-8 | the result is a row with that id, and None exactly when no row has it |
| `RecurringRideCrud.GetUserRecurringRides` | backend/app/db/crud/recurring_ride.py:11-12 | exactly the rows the user drives, of every status |
| `RecurringRideCrud.GetAllRecurringRides` | backend/app/db/crud/recurring_ride.py:15-16 | min(`limit`, number of active rows) rows, every one active and from the table; every active row when there are no more than `limit` of them, or when `limit` is negative |
| `RecurringRideCrud.GetRecurringRidesByDay` | backend/app/db/crud/recurring_ride.py:64-69 | exactly the active rows on that day |
| `RecurringRideCrud.RecurringRideTable.constructor` | backend/app/db/models/recurring_ride.py:10 | the table starts empty, with unique primary keys |
| `RecurringRideCrud.RecurringRideTable.Create` | backend/app/db/crud/recurring_ride.py:19-24 | one row is appended with the body's fields, the given driver, the next key, status "active" and both timestamps now; keys stay unique |
| `RecurringRideCrud.RecurringRideTable.Update` | backend/app/db/crud/recurring_ride.py:27-47 | no row with that id and driver: None and no change; a null for a NOT NULL column: the commit fails and nothing changes; otherwise that one row becomes `Patched` (with `updated_at` refreshed only when a column changed) and no other row changes |
| `RecurringRideCrud.RecurringRideTable.Delete` | backend/app/db/crud/recurring_ride.py:50-61 | true exactly when a row with that id and driver exists, and then that row goes; otherwise nothing changes |
| `RecurringRideApi.SearchRecurringRides` | backend/app/api/recurring_rides.py:26-39 | a limit above 100 is rejected by validation; with a day the active rides of that day, otherwise at most `limit` (50 by default) active rides |
| `RecurringRideApi.SearchReturnsActive` | backend/app/api/recurring_rides.py:35-39 | every searched ride is active, on the asked day when one is given, and bounded by the limit when not |
| `RecurringRideApi.SearchByDayIgnoresLimit` | backend/app/api/recurring_rides.py:35-38 | with a day given, any two valid limits give the same answer |
| `RecurringRideApi.GetMyRecurringRides` | backend/app/api/recurring_rides.py:57-63 | every one of the caller's rows is in the reply, and every reply entry is the response of one of the caller's rows |
| `RecurringRideApi.GetRecurringRideDetails` | backend/app/api/recurring_rides.py:66-75 | 404 "Recurring ride not found" exactly when no row has that id, otherwise that row's response |
| `RecurringRideApi.CreateNewRecurringRide` | backend/app/api/recurring_rides.py:47-54 | the caller is always the driver, and the reply is the new row with the submitted fields and status "active" |
| `RecurringRideApi.UpdateRecurringRideDetails` | backend/app/api/recurring_rides.py:78-89 | 404 "Recurring ride not found or unauthorized" with no change when the caller drives no such ride, 500 when the commit fails, otherwise the patched row |
| `RecurringRideApi.DeleteRecurringRideEndpoint` | backend/app/api/recurring_rides.py:92-102 | the success message exactly when the caller's ride existed and is now gone, otherwise 404 "not found or unauthorized" with no change |
| `RecurringRideApi.DaysOfWeekOptions` | backend/app/api/recurring_rides.py:105-116 | the day table has seven entries |
| `RecurringRideApi.DaysOfWeekIndexedByValue` | backend/app/api/recurring_rides.py:108-116 | entry d has value d for every d in 0..6, so the values are exactly 0..6, each once, and every label is non-empty |
| `RecurringRideApi.ScheduleTypeOptions` | backend/app/api/recurring_rides.py:119-127 | the schedule-type table has four entries |
| `RecurringRideApi.ScheduleTypesDistinct` | backend/app/api/recurring_rides.py:122-127 | the four schedule-type values are distinct and the first is the create default "weekly" |
| `RideRequestCrud.GetRideRequests` | backend/app/db/crud/ride_request.py:15-16 | exactly the pending requests for the ride |
| `RideRequestCrud.GetRideAcceptedRequests` | backend/app/db/crud/ride_request.py:18-19 | exactly the accepted requests for the ride |
| `RideRequestCrud.PendingAndAcceptedDisjoint` | backend/app/db/crud/ride_request.py:15-19 | no request is in both lists |
| `RideRequestCrud.GetUserRideRequests` | backend/app/db/crud/ride_request.py:21-35 | exactly the rider's requests whose ride is active and starts within six hours of now, either way |
| `RideRequestCrud.UserWindowInclusive` | backend/app/db/crud/ride_request.py:24-32 | both ends of the window count |
| `RideRequestCrud.InsertNewestFirst` | backend/app/db/crud/ride_request.py:47 | inserting into a newest-first list keeps it newest first and adds exactly that request |
| `RideRequestCrud.SortNewestFirst` | backend/app/db/crud/ride_request.py:47 | the sorted list is newest first and a permutation of its input |
| `RideRequestCrud.GetDriverRideRequests` | backend/app/db/crud/ride_request.py:37-48 | the requests on the driver's active rides, as a permutation, ordered by `requested_at` descending |
| `RideRequestCrud.DriverRequestsExactly` | backend/app/db/crud/ride_request.py:37-48 | a request is in the driver's list exactly when it is on one of the driver's active rides |
| `RideRequestCrud.UserAlreadyRequested` | backend/app/db/crud/ride_request.py:59-63 | true exactly when some request, of any status, has that ride and rider |
| `RideRequestCrud.GetExistingRequestTime` | backend/app/db/crud/ride_request.py:65-76 | None exactly when the user has not requested the ride, otherwise the time of one such request |
| `RideRequestCrud.RideRequestTable.constructor` | backend/app/db/crud/ride_request.py:8-13 | the table starts empty, with unique keys |
| `RideRequestCrud.RideRequestTable.Create` | backend/app/db/crud/ride_request.py:8-13 | one pending request is appended with the given ride, rider and message, stamped now; keys stay unique |
| `RideRequestCrud.RideRequestTable.UpdateStatus` | backend/app/db/crud/ride_request.py:50-57 | None with no change for an unknown id; otherwise only that request's status changes |
| `RideRequestCrud.CreateDoesNotDeduplicate` | backend/app/db/crud/ride_request.py:8-13 | on any table, creating twice for the same ride and rider adds two requests for the pair, with distinct ids, and the pair then counts as already requested |
| `RecurringRidesHook.DayLabel` | hooks/useRecurringRides.ts:153-156 | the label of the first option with that day, "Unknown" when there is none or its label is empty |
| `RecurringRidesHook.ScheduleTypeLabel` | hooks/useRecurringRides.ts:158-161 | the label of the first option with that type, the raw type when there is none or its label is empty |
| `RecurringRidesHook.LabelsBeforeOptionsLoad` | hooks/useRecurringRides.ts:153-161 | before the tables load, every day is "Unknown" and every type reads as itself |
| `RecurringRidesHook.DayLabelsFromServer` | hooks/useRecurringRides.ts:153-156 | with the server's table, day d in 0..6 reads the label of entry d (0 Monday, 6 Sunday) and any other number reads "Unknown" |
| `RecurringRidesHook.ScheduleLabelsFromServer` | hooks/useRecurringRides.ts:158-161 | with the server's table, "weekly" reads "Every week" and an unknown type reads as itself |
| `RecurringRidesHook.CreatedRideAppearsOnce` | hooks/useRecurringRides.ts:103 | a created ride whose id was not in the list appears in it exactly once |
| `RecurringRidesHook.DeleteIdempotent` | hooks/useRecurringRides.ts:142 | deleting an id twice is deleting it once, and no ride with that id is left |
| `RecurringRidesHook.DeleteKeepsOthersInOrder` | hooks/useRecurringRides.ts:142 | every ride with another id survives a delete, in its place in the order |
| `RecurringRidesHook.UpdateIdempotent` | hooks/useRecurringRides.ts:123-125 | replacing an id twice with the same returned ride, which carries that id, is replacing it once |
| `RecurringRidesHook.RecurringRides.constructor` | hooks/useRecurringRides.ts:45-50 | empty lists and tables, not loading, no error |
| `RecurringRidesHook.RecurringRides.LoadOptions` | hooks/useRecurringRides.ts:57-68 | both tables are set only when both calls succeed; otherwise neither changes |
| `RecurringRidesHook.RecurringRides.SearchRecurringRides` | hooks/useRecurringRides.ts:70-82 | the fetched list (empty for a null body), or an empty list and the error text on failure; not loading afterwards |
| `RecurringRidesHook.RecurringRides.GetMyRecurringRides` | hooks/useRecurringRides.ts:84-96 | the same for the caller's own list |
| `RecurringRidesHook.RecurringRides.CreateRecurringRide` | hooks/useRecurringRides.ts:98-113 | success appends the created ride and returns it; failure keeps the list, sets the error text and rethrows; not loading afterwards |
| `RecurringRidesHook.RecurringRides.UpdateRecurringRide` | hooks/useRecurringRides.ts:115-135 | success replaces every ride with that id by the returned one; failure keeps the list, sets the error and rethrows |
| `RecurringRidesHook.RecurringRides.DeleteRecurringRide` | hooks/useRecurringRides.ts:137-151 | success drops every ride with that id; failure keeps the list, sets the error and rethrows |
| `RecurringRidesHook.RecurringRides.UpdateThenDelete` | hooks/useRecurringRides.ts:115-151 | a successful update and delete of one id never lengthen the list and leave no ride with that id |
| `MessagesHook.TotalUnreadAppend` | hooks/useMessages.ts:245-247 | the unread total splits over a concatenation |
| `MessagesHook.TotalUnreadCons` | hooks/useMessages.ts:245-247 | the left fold is the first count plus the total of the rest |
| `MessagesHook.TotalUnreadUpdate` | hooks/useMessages.ts:245-247 | replacing one conversation changes the total by the difference of the two counts |
| `MessagesHook.MarkRead` | hooks/useMessages.ts:235-243 | the user's conversations get an unread count of 0 and every other conversation is unchanged |
| `MessagesHook.MarkReadIdempotent` | hooks/useMessages.ts:235-243 | marking twice is marking once |
| `MessagesHook.MarkReadLowersTotal` | hooks/useMessages.ts:235-247 | with non-negative counts the total drops by exactly the counts of that user's conversations, so it never rises |
| `MessagesHook.MarkReadClearsUser` | hooks/useMessages.ts:235-243 | afterwards the user's conversations count nothing unread |
| `MessagesHook.FormatMessageTime` | hooks/useMessages.ts:201-220 | under a minute "Just now"; then whole minutes, hours or days by floor division with the bounds 1..59, 1..23 and 1..6; a week or more the locale date |
| `MessagesHook.FutureIsJustNow` | hooks/useMessages.ts:204-210 | a message stamped in the future shows "Just now" |
| `MessagesHook.MinutesLabelReadsBack` | hooks/useMessages.ts:211-212 | the minutes label is digits followed by "m ago", and the digits read back as the whole minutes elapsed |
| `MessagesHook.Optimistic` | hooks/useMessages.ts:149-161 | the optimistic message has the temporary id, the current user as sender, the receiver, the ride and the trimmed text |
| `MessagesHook.OptimisticContentTrimmed` | hooks/useMessages.ts:147-153 | the optimistic text of a non-blank message is non-empty and has no whitespace at either end |
| `MessagesHook.ReplaceOptimistic` | hooks/useMessages.ts:164-171 | when no earlier message has the temporary id, the replacement swaps exactly the appended message for the server's |
| `MessagesHook.SendKeepsTotal` | hooks/useMessages.ts:174-193 | sending never changes the unread total, whether it updates a conversation or creates one |
| `MessagesHook.Messages.constructor` | hooks/useMessages.ts:25-28 | empty lists, not loading, no error |
| `MessagesHook.Messages.GetConversations` | hooks/useMessages.ts:30-79 | the fetched list, or the two demo conversations on failure; the error is never set; not loading afterwards |
| `MessagesHook.Messages.GetConversationWithUser` | hooks/useMessages.ts:81-144 | the fetched messages, or the four demo messages with that user on failure |
| `MessagesHook.Messages.SendMessage` | hooks/useMessages.ts:146-199 | a blank text changes nothing; on failure the optimistic message stays and the conversations are untouched; on success the temporary message becomes the server's, and the receiver's first conversation takes it as last message or a new conversation with it goes first |
| `MessagesHook.Messages.MarkConversationAsRead` | hooks/useMessages.ts:235-243 | the list becomes `MarkRead` of the old one, and with non-negative counts the total does not rise |
| `MessagesHook.MockConversations` | hooks/useMessages.ts:39-74 | two demo conversations with two unread messages in all |
| `MessagesHook.MockMessages` | hooks/useMessages.ts:90-139 | four demo messages, ids 1 to 4, each between that user and the current user |
| `RidesHook.MockNewRideCarriesData` | hooks/useRides.ts:122-128 | the made-up ride carries exactly the submitted fields, driver 1 and status "active" |
| `RidesHook.MockRides` | hooks/useRides.ts:56-105 | two demo rides with distinct ids, both active |
| `RidesHook.MockMyRides` | hooks/useRides.ts:145-158 | one demo ride, id 101, driven by user 1 |
| `RidesHook.MockRequests` | hooks/useRides.ts:189-198 | one pending demo request by user 1 |
| `RidesHook.MockRideDetails` | hooks/useRides.ts:267-292 | the demo details carry the asked-for id, driver 2, status "active" |
| `RidesHook.TimeUntilRide` | hooks/useRides.ts:307-325 | "Started" exactly when the ride is in the past; from 25 whole hours whole days with the plural from two days; from one hour "Hh Mm"; below that "Mm" |
| `RidesHook.Countdown` | hooks/useRides.ts:317-324 | every countdown text for a future ride starts with a digit |
| `RidesHook.TimeUntilRideRoundsDown` | hooks/useRides.ts:314-315 | the hours and minutes shown are the time left rounded down to the minute, with minutes in 0..59 |
| `RidesHook.DaysPlural` | hooks/useRides.ts:317-319 | the day count is at least one and gets an "s" exactly when it is above one |
| `RidesHook.Rides.constructor` | hooks/useRides.ts:40-45 | empty lists, not loading, no error |
| `RidesHook.Rides.SearchRides` | hooks/useRides.ts:47-110 | the fetched rides, or the two demo rides on failure; the error is never set |
| `RidesHook.Rides.CreateRide` | hooks/useRides.ts:112-135 | exactly one ride is appended and returned either way: the server's, or the made-up one on failure |
| `RidesHook.Rides.GetMyRides` | hooks/useRides.ts:137-163 | the fetched rides, or the one demo ride on failure |
| `RidesHook.Rides.RequestRide` | hooks/useRides.ts:165-179 | never throws and changes no list; a failure yields a pending stand-in with the temporary id |
| `RidesHook.Rides.GetMyRequests` | hooks/useRides.ts:181-203 | the fetched requests, or the one demo request on failure |
| `RidesHook.Rides.UpdateRide` | hooks/useRides.ts:241-256 | success replaces every ride with that id; failure keeps the list, sets the error text and rethrows |
| `RidesHook.Rides.GetRideDetails` | hooks/useRides.ts:258-296 | the fetched ride, or the demo details for that id; no list changes |
| `RidesHook.UpdateKeepsIdCounts` | hooks/useRides.ts:246 | when the server answers with the same id, an update keeps the number of rides of every id |
| `AuthHook.RouteAfterVerify` | hooks/useAuth.ts:151-155 | tabs exactly when the user has a name and preferences, otherwise profile setup |
| `AuthHook.AuthProvider.constructor` | hooks/useAuth.ts:47-49 | no user, not authenticated, loading until the first check |
| `AuthHook.AuthProvider.CheckAuthStatus` | hooks/useAuth.ts:55-82 | with a token and a fetched user: authenticated as that user; with a token and a failed fetch: the token is removed and the session is signed out; without a token: signed out; never loading afterwards |
| `AuthHook.AuthProvider.Login` | hooks/useAuth.ts:84-103 | success signs in and routes to profile setup exactly when `needs_profile_setup`, else to tabs; failure leaves the session and rethrows |
| `AuthHook.AuthProvider.Register` | hooks/useAuth.ts:105-118 | success signs in and goes to the tabs; failure leaves the session and rethrows |
| `AuthHook.AuthProvider.SendOTP` | hooks/useAuth.ts:120-129 | once the code is sent the e-mail is kept as pending; failure rethrows and keeps the old entry |
| `AuthHook.AuthProvider.SendMobileOTP` | hooks/useAuth.ts:131-140 | the same for the phone number |
| `AuthHook.AuthProvider.VerifyOTP` | hooks/useAuth.ts:142-162 | success signs in, clears the pending e-mail and routes by `RouteAfterVerify`; failure leaves everything and rethrows |
| `AuthHook.AuthProvider.VerifyMobileOTP` | hooks/useAuth.ts:164-184 | the same for the phone number |
| `AuthHook.AuthProvider.Logout` | hooks/useAuth.ts:186-202 | always ends signed out and routed to sign-up, even when the call fails |
| `AuthHook.AuthProvider.UpdateProfile` | hooks/useAuth.ts:204-215 | success replaces the user; failure keeps it and rethrows |
| `IndexRoute.Index` | app/index.tsx:6-28 | loading shows the spinner; an authenticated user with a name and an e-mail or phone goes to the tabs, one without to profile setup; anything else to onboarding |
| `IndexRoute.IndexNeverSignup` | app/index.tsx:9-27 | the root screen never sends to sign-up, and shows the spinner exactly while loading |
| `IndexRoute.IndexAfterLogout` | app/index.tsx:17-27 | right after a logout the root screen shows onboarding |
| `IndexRoute.RootAndVerifyDiffer` | app/index.tsx:19 | a user with a name and an e-mail but no preferences goes to the tabs from the root screen but to profile setup after verification |
| `ScheduleModals.Press` | components/ScheduleModals.tsx:40-43 | a press reports the option's value, then closes |
| `ScheduleModals.Dismiss` | components/ScheduleModals.tsx:61-67 | the close button and the back action only close |
| `ScheduleModals.AtMostOneHighlighted` | components/ScheduleModals.tsx:38-48 | with distinct keys at most one option is highlighted |
| `ScheduleModals.Pad2IsPadStart` | components/ScheduleModals.tsx:102-103 | the padded hour or minute is `toString().padStart(2, '0')` |
| `ScheduleModals.Pad2ReadsBack` | components/ScheduleModals.tsx:102-103 | below 100 it is two digits that read back as the number |
| `ScheduleModals.GenerateTimeOptions` | components/ScheduleModals.tsx:98-116 | exactly 48 options, option k being half-hour k of the day |
| `ScheduleModals.Time24ReadsBack` | components/ScheduleModals.tsx:102-104 | the value is "HH:MM" whose parts read back as the hour and the minute |
| `ScheduleModals.SlotValue` | components/ScheduleModals.tsx:102-104 | every value is a zero-padded "HH:MM" with HH in 00..23 and MM 00 or 30, naming half-hour k |
| `ScheduleModals.TimeValuesIncrease` | components/ScheduleModals.tsx:75 | the values increase strictly along the list, so the values and the list keys are distinct |
| `ScheduleModals.Hour12RoundTrip` | components/ScheduleModals.tsx:105-107 | the 12-hour label's hour is 1..12, and with AM or PM it names exactly the 24-hour hour: 0 is 12 AM, 12 is 12 PM, 13..23 are 1..11 PM |
| `ScheduleModals.DefaultTimeIsOffered` | components/ScheduleModals.tsx:96 | the default selection '08:00' is option 16 and no other |
| `ScheduleModals.EightOClock` | components/ScheduleModals.tsx:96-104 | option 16 has the value "08:00" |
| `ScheduleModals.PassengerOptions` | components/ScheduleModals.tsx:145-148 | one option per count 1..max in order (none for a negative max), labelled "N passenger" plus "s" |
| `ScheduleModals.PassengerOptionsFacts` | components/ScheduleModals.tsx:143-155 | the keys are distinct, the plural "s" appears on every option but the first, and the default list has eight options of which the default selection 1 is the first |
| `EmailPage.ValidIffShape` | app/auth/EmailPage.tsx:24-27 | the address pattern holds exactly for strings with no whitespace, exactly one '@' that is not first, and a '.' after the character following the '@' that is not last |
| `EmailPage.ButtonMatchesGate` | app/auth/EmailPage.tsx:93-99 | the empty address fails the pattern, so the button is disabled exactly when the address fails it or a login runs |
| `EmailPage.EmailScreen.constructor` | app/auth/EmailPage.tsx:20-21 | an empty address, not loading |
| `EmailPage.EmailScreen.SetEmail` | app/auth/EmailPage.tsx:89-90 | typing replaces the address |
| `EmailPage.EmailScreen.HandleNext` | app/auth/EmailPage.tsx:34-61 | an address failing the pattern only raises the validation alert, makes no call and leaves the flag; otherwise success routes on `needs_profile_setup` and failure shows the error message; the flag is false afterwards |

## Left out

- Alerts, navigation and console output are side effects. A route is a returned value. The e-mail screen's alerts are returned values. The hooks' success and error alerts are not modelled.
- EmailPage.EmailScreen.HandleNext: the 15-second `setTimeout` that clears the flag and raises a timeout alert is not modelled, because it needs a clock and a second event running beside the login call.
- EmailPage.EmailScreen.HandleNext: the fallback text "Failed to login with email" is not modelled. The API helper (services/api.ts) only rejects with `Error` objects, so it is never shown.
- `handleBack` (a navigation push) and all rendering are not modelled: styles, the dimmed button, the "Logging in..." label.
- `formatConversationTime`, `formatDateTime` and the week-or-older branch of `formatMessageTime` depend on the locale. `MessagesHook.FormatMessageTime` returns `LocaleDate` with no text for that branch.
- `getRideHistory` is not modelled: its records are untyped (`any[]`) and nothing reads them back.
- The `useAuth` context guard and the mount effects that start `checkAuthStatus` and `loadOptions` are React wiring. The constructors stand for the initial state.
- AsyncStorage: the token is the `token` parameter of `CheckAuthStatus`, and its removal is the returned flag. The `pending_*` entries are fields, and their writes are assumed to succeed. The token helpers in services/api.ts swallow storage errors, so `checkAuthStatus`'s outer catch cannot be reached.
- `preferences` is an optional string. Its truthiness stands for JavaScript's truthiness of whatever the server stores.
- The embedded `sender`, `driver`, `car` and `user` display records, and the backend's `joinedload` of related rows, are not modelled.
- Fares and latitudes are floating point in the source. Fares are whole cents here and are never computed with; latitudes are not modelled.
- Backend times are integer milliseconds, and the clock `datetime.now()` is the `now` parameter.
- RideRequestCrud.GetExistingRequestTime: returns the stored time as a number rather than its ISO text, because datetime formatting is not modelled.
- The authentication dependency `get_current_user` is not modelled: the caller's user id is a parameter.
- backend/app/db/models/ride_request.py is not part of this model. A new request is taken to default to status "pending", stamped with the insertion time.
- The database order is insertion order, and `LIMIT` with a negative bound keeps every row (SQLite's rule). The database engine is not part of this model.
- RecurringRideCrud.GetAllRecurringRides: when more than `limit` rows are active, it states how many are returned but not which ones, because without `ORDER BY` the database chooses them. The model takes the first ones in insertion order.
- Primary keys are allocated by the model: `nextId` only grows, so a deleted key is never reused. SQLite's integer primary key without AUTOINCREMENT can reuse the largest key after its row is deleted; the engine's key allocation is not part of this model.
- RideRequestCrud.GetDriverRideRequests: states only newest-first order and the exact contents. The order among requests with equal times is left to the database.
- RecurringRideApi.SearchRecurringRides: the 500 reply for a database error is not modelled, because the in-memory filters cannot fail. Query validation is modelled only for the `limit <= 100` bound; a non-numeric parameter is not modelled.
- RecurringRideCrud.RecurringRideTable.Update: a commit that violates NOT NULL is an `IntegrityError` result with the table unchanged. The session's rollback and the refresh of server-side values are not modelled.
- Concurrency is not modelled: overlapping calls racing on the same list, and updates after a screen unmounts. The model is sequential.
- `recurringRidesAPI` and `authAPI.updateProfile` are not defined in services/api.ts. Their calls are outcome parameters like every other call.
- services/api.ts, the seeder, the migrations, the app wiring (backend/app/main.py, providers/AppProvider.tsx), the OTP test script and the pickup-location screen are outside the modelled core.
