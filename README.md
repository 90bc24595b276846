# HassleFree gate and lifecycle model

A Dafny model of the gate and lifecycle logic of HassleFree, a Next.js
society-management application backed by MongoDB. It covers:

- the vehicle gate reconciler;
- the amenity-booking lifecycle: creation, QR issue, QR check-in and check-out;
- the guest lifecycle;
- the attendance ledger with its schema and its readers;
- the tenant guard that resolves a caller's society from a token;
- the complaint workflow;
- the form and list helpers of the admin and resident pages.

Every route handler is a short read-check-write against the database. The
model keeps each handler's guards, in their order and with their status
codes, and writes the database as the class `Store.Db`. It holds one map per
collection, keyed by `_id`, and the attendance and vehicle-passage ledgers
as sequences in insertion order.

Some inputs come from outside the handler and become parameters:

- the clock (`now`, in milliseconds);
- the id a new document receives (`newId`);
- the guard-device context;
- the request body, as a record of optional fields.

JWT signature checking is an oracle. A token is `UserTok`, `AdminTok` or
`Forged`, each carrying the claims that the handlers read.

Client pages and components are modelled as functions from the old state to
the new one, or as classes whose methods update the fields the component
keeps in React state. The QR credential is JSON text (RFC 8259). The model
contains a JSON reader and writer and proves that the reader reads back what
the writer wrote.

In several places the code does something other than what its comments and
its design say. The model follows the code:

- An unparseable date filter is not ignored. `parseISO` returns an Invalid
  Date instead of throwing, so the query fails to cast and the request ends
  in 500 (app/api/admin/logs/delivery/route.js:82-87).
- The admin bookings route's `verifyAdminToken` has an empty body. Reading
  `isValid` from its result throws, so every request ends in 500
  (`AdminBookings.List`).
- The face-scan route's guard helper is empty too, so every scan ends in 500
  (`FaceScan.Scan`).
- The check-in route's stub guard id 'GUARD_DEVICE_001' is not an object id,
  so its attendance record never validates. The failure is swallowed
  (`AmenityGate.StubCheckInNeverLogs`).
- The check-out route's attendance record has no `personName`, so it is never
  stored (`AmenityGate.CheckOutNeverLogs`).
- The vehicle-scan stub context names a society that is not an object id,
  so every entry or exit scan ends in 500 at the first query, before anything
  is written (`VehicleScan.StubSocietyDoesNotCast`, `VehicleScan.Scan`). With a
  context whose society casts but whose guard id does not, the vehicle passage
  written before the failed attendance record stays in the ledger
  (`VehicleScan.Enter`).
- The day filters of the delivery log and of the admin bookings list are
  `$gte startOfDay`, `$lt endOfDay`, and `endOfDay` is the day's last
  millisecond, so a record stamped then is left out
  (`Deliveries.DayEndDeliveryUnlisted`, `AdminBookings.DayEndBookingUnlisted`).
  The model keeps this window; "## Findings" states the intended one.
- The resident complaints page sends its feedback and mark-resolved updates
  to a route that accepts only admin tokens, so they are refused with 403
  (`ComplaintApi.ResidentCannotUpdate`).

## Model

| member | source | states |
|---|---|---|
| AdminBookings.ByDateThenStartIsPreorder | app/api/admin/bookings/route.js:47 | the sort `{ bookingDate: 1, startTime: 1 }` is a total preorder on bookings, so the sorted listing is well defined |
| AdminBookings.BuildQuery | app/api/admin/bookings/route.js:28-42 | the query always holds the admin's society; it filters on status exactly when the parameter is present, non-empty and not 'all', and then on that status; a `date` parameter selects that day, no parameter selects every day from today on; an Invalid Date yields no castable query |
| AdminBookings.MatchesByDay | app/api/admin/bookings/route.js:34-42 | a booking matches the query exactly when its society and (filtered) status agree and its own calendar day is the requested day, or is on or after the first day; a day match also means the booking is not stamped at the day's last millisecond, which `$lt endOfDay` leaves out |
| AdminBookings.DayEndBookingUnlisted | app/api/admin/bookings/route.js:37 | a booking dated at the last millisecond of the requested day is of that day and yet does not match the query |
| AdminBookings.List | app/api/admin/bookings/route.js:10-57 | an absent check result (the empty helper) is 500 and a refusal passes its code through; a context without a society is 500; on 200 the rows are exactly the bookings the query built from the parameters selects, each once, in date-then-start-time order, and with a `date` every row is of that day but none at its last millisecond; every failure lists nothing; after a passed check the list is 200 exactly when the society casts and any `date` parses, and otherwise 500 |
| AdminProfile.Get | app/api/admin/me/route.js:7-42 | a failed token check is 401; an id that does not cast is 500; an unknown admin is 404; otherwise the caller's own record without the password |
| AdminProfile.Strip | app/api/admin/me/route.js:56-60 | the update keeps exactly the body's keys other than email, password, societyId and _id, each with its body value |
| AdminProfile.Put | app/api/admin/me/route.js:44-90 | a failed token check is 401; a body with nothing but protected keys is 400, and so is an empty name; past those checks a caller id that does not cast is 500, an id no admin has is 404 and a stored one is 200; on success only the caller's record changes, its email, password and society stay, every unprotected body field is set and every other profile field keeps its value; no failure writes anything |
| AmenityApi.ByNameIsPreorder | app/api/amenities/route.js:97 | the sort `{ name: 1 }` is a total preorder on amenities |
| AmenityApi.List | app/api/amenities/route.js:60-110 | a token neither secret accepts is 401; the society read is the scoped one, 400 exactly when it is not an object id and 200 exactly when it is; on 200 the rows are every amenity of that society, each once, by name |
| AmenityApi.Create | app/api/amenities/route.js:112-140 | no token is 401 and a token the admin secret refuses is 403; a missing required field (a capacity of 0 included) is 400; 201 exactly when the admin token, the fields and a castable society are there and the id is fresh, and then exactly that amenity is added with the body's fields; nothing else is written |
| AmenityForm.NonEmptyList | components/admin/AmenityForm.jsx:36-38 | the result is always a non-empty list: the stored list when it is a non-empty array, else the one default entry |
| AmenityForm.InitialPricing | components/admin/AmenityForm.jsx:29-34 | the pricing has exactly the four settings; each is the stored one when truthy, else not chargeable and rate 0 |
| AmenityForm.InitialState | components/admin/AmenityForm.jsx:28-47 | the state has exactly the eleven form fields; photos, timings and rules are never empty and take the default entry when nothing is stored; status defaults to 'operational', capacity to 0, the manager to '' and the text fields to ''; pricing is the initial pricing |
| AmenityForm.Spread | components/admin/AmenityForm.jsx:96-117 | `[...list]` keeps the length, turns each unwritten slot into `undefined`, leaves no slot unwritten and keeps a list without holes as it is |
| AmenityForm.Copy | components/admin/AmenityForm.jsx:56 | the deep copy has no unwritten array slot and no `undefined`, an object loses exactly its `undefined` properties, and a value without holes is copied unchanged |
| AmenityForm.CopyState | components/admin/AmenityForm.jsx:56 | the copied state has exactly the fields that are not `undefined`, no unwritten slot anywhere, and every field without one unchanged |
| AmenityForm.SetIn | components/admin/AmenityForm.jsx:57-62 | a one-key path sets that field; a longer one keeps every other top-level field and adds only the first key |
| AmenityForm.GetSetIn | components/admin/AmenityForm.jsx:57-62 | after a set, reading the same path gives exactly the value set |
| AmenityForm.SetInLeavesOthers | components/admin/AmenityForm.jsx:57-62 | every path that parts from the set path reads what it read before |
| AmenityForm.SetInFails | components/admin/AmenityForm.jsx:58-61 | a walk that meets a truthy non-object on the way builds no state |
| AmenityForm.SetLeaf | components/admin/AmenityForm.jsx:52-91 | the loop that copies the state, walks the keys creating missing objects and sets the leaf computes exactly `SetIn` on the copied state |
| AmenityForm.InputChange | components/admin/AmenityForm.jsx:52-65 | the new state is the copied state with the input's value (checkbox flag, number or text) set at the path or the input's id |
| AmenityForm.SelectChange | components/admin/AmenityForm.jsx:66-78 | the new state is the copied state with the chosen text set at the path or the id |
| AmenityForm.SwitchChange | components/admin/AmenityForm.jsx:79-91 | the new state is the copied state with the switch's flag set at the path or the id |
| AmenityForm.Append | components/admin/AmenityForm.jsx:96-112 | the list is the spread of the old one (unwritten slots read as `undefined`) with exactly one entry at its end, which for a list without holes is the old list plus the entry; every other field is kept |
| AmenityForm.Without | components/admin/AmenityForm.jsx:100 | the filter, taken from the last entry back, gives the entries actually present (`Slots`, taken from the front) of the list without the entry at the index; an index outside the list removes nothing |
| AmenityForm.Remove | components/admin/AmenityForm.jsx:100-118 | the list becomes the present entries of the list without the one at the index; for a list without holes exactly that entry goes and the later ones move up by one, and an index outside the list changes nothing; every other field is kept |
| AmenityForm.RemoveLeavesDense | components/admin/AmenityForm.jsx:100-118 | the list a remove leaves has no unwritten slot, since `filter` skips them |
| AmenityForm.RemoveUndoesAppend | components/admin/AmenityForm.jsx:96-118 | adding an entry and removing the last one gives the spread of the original list back, which is the original list when it has no holes |
| AmenityForm.UpdateRule | components/admin/AmenityForm.jsx:97-99 | inside the list the rule at the index is replaced; past its end the list grows to index + 1 with unwritten slots in between; a negative index leaves the spread list; every other entry is the spread's; a list without holes stays without holes unless the index jumps past its end; every other field is kept |
| AmenityForm.UpdateEntry | components/admin/AmenityForm.jsx:104-117 | the list keeps its length; a present (truthy) entry gets the one field set and keeps its other fields; any other index leaves the spread list; every other entry is the spread's, so for a list without holes it is kept; every other field is kept |
| AmenityForm.Submitted | components/admin/AmenityForm.jsx:121-130 | the submit throws exactly when a rule is not a text or a photo has no text url; otherwise the rules are the non-blank ones and the photos those with a non-blank url, in order, an empty manager becomes null and every other field is kept |
| AmenityForm.HoleThenAddRuleThrows | components/admin/AmenityForm.jsx:96-127 | a rule slot left unwritten is read as `undefined` by the next add, after which the submit throws |
| AmenityForm.SubmittedListsClean | components/admin/AmenityForm.jsx:126-127 | every submitted rule is non-blank and every submitted photo has a non-blank url |
| AmenityGate.CheckInRefusal | app/api/amenities/checkin/route.js:45-58 | every refusal is 400, and a booking is let in exactly when its status is 'confirmed' or 'approved', its amenity exists and is operational and its day is today |
| AmenityGate.CheckedIn | app/api/amenities/checkin/route.js:61-64 | the booking becomes 'checked-in' with its entry stamp at the scan time, and nothing else of it changes |
| AmenityGate.CheckInDraftValidates | app/api/amenities/checkin/route.js:66-76 | the check-in record passes the attendance schema exactly when the user has a name and the guard id is an object id, and is then an amenity entry of that booking and user under the user's name, by QR, at the scan time, at the amenity's name or 'Amenity', verified by the guard |
| AmenityGate.CheckIn | app/api/amenities/checkin/route.js:16-91 | missing or unreadable QR text is 400 and an uncastable id 500, with nothing written; an unknown booking is 404 and a refused one 400, unchanged; an admitted booking is checked in whatever follows; the answer is then 200 exactly when the booking's user exists; at most one record is appended, and exactly when the user has a name and the guard id is an object id; that record is the booking's entry under its user's name at the amenity's name or 'Amenity', by QR, verified by the guard, at the scan time |
| AmenityGate.StubCheckInNeverLogs | app/api/amenities/checkin/route.js:11-77 | with the stub's guard id 'GUARD_DEVICE_001' the check-in record is always rejected |
| AmenityGate.RescanRefused | app/api/amenities/checkin/route.js:46-62 | a booking already checked in is refused on a second scan |
| AmenityGate.CheckedOut | app/api/amenities/checkout/route.js:50-55 | the booking becomes 'checked-out' with its exit stamp at the time, and nothing else of it changes |
| AmenityGate.CheckOutNeverLogs | app/api/amenities/checkout/route.js:57-71 | the check-out record lacks the person name the attendance schema requires, so it is always rejected |
| AmenityGate.CheckOut | app/api/amenities/checkout/route.js:14-80 | a missing or invalid id is 400, an unknown booking 404 and a booking not 'checked-in' 400, all unchanged; a checked-in booking is checked out with 200; the attendance ledger and everything but that booking never change |
| AmenityGate.SecondCheckOutRefused | app/api/amenities/checkout/route.js:46-52 | a checked-out booking is no longer 'checked-in', so a second check-out is refused |
| Announcements.OnlyTwoAudiences | app/api/user/announcements/route.js:61-70 | an announcement a resident sees has audience 'all' or 'specific_users'; one for specific blocks is never shown |
| Announcements.AnnouncementOrderIsPreorder | app/api/user/announcements/route.js:73 | newest-first by `createdAt` is a total preorder |
| Announcements.List | app/api/user/announcements/route.js:10-86 | a token the user secret refuses, or one lacking `id` or `societyId`, is 401; ids that are not object ids are 500; on 200 an announcement is listed exactly when it is of the caller's society and for everyone or names the caller, each once, newest first; a passed token whose two ids cast always lists (200) |
| AssignWorker.Dialog.constructor | components/admin/AssignWorkerDialog.jsx:25-26 | both selections start empty |
| AssignWorker.Dialog.OpenChange | components/admin/AssignWorkerDialog.jsx:28-37 | opened on a complaint, the selections become its worker and its status (or 'pending'); closed, both are cleared; opened without a complaint, both are kept |
| AssignWorker.Dialog.HandleSubmit | components/admin/AssignWorkerDialog.jsx:39-65 | an update is sent exactly when the worker or the status selection differs from the complaint's; it holds the worker exactly when that changed (null when cleared); a worker newly given to a pending complaint sends 'assigned', one taken from an assigned complaint sends 'pending', otherwise the status is sent exactly when it changed; a sent status always differs from the complaint's; resubmitting the opening selections sends nothing unless the complaint had no status |
| Attendance.DirectionOf | models/attendance.js:12 | a text decodes to a direction exactly when it is that direction's name, 'entry' or 'exit' |
| Attendance.SourceOf | models/attendance.js:13-18 | a text decodes to a source exactly when it is that source's name in the enumeration |
| Attendance.MethodOf | models/attendance.js:24-28 | a text decodes to a verification method exactly when it is that method's name in the enumeration |
| Attendance.StatusOf | models/attendance.js:31-36 | a text decodes to a record status exactly when it is that status's name in the enumeration |
| Attendance.Validate | models/attendance.js:5-38 | a draft without a person name, a location or a society is rejected, and so is a `verifiedBy` that does not cast; an accepted record keeps the draft's name, location, references, plate, purpose and enumeration names, casts the society and verifier, defaults source to main gate, status to verified and the timestamp to the creation time |
| Attendance.NamesDecode | models/attendance.js:12-36 | every enumeration value's name decodes back to that value |
| Attendance.WellFormedDraftValidates | models/attendance.js:5-38 | a draft with every required field present, every enumeration name admitted and castable ids is accepted |
| Auth.Verify | app/api/user/announcements/route.js:18-38 | no token is 401; otherwise the check accepts exactly a token signed with the route's secret whose payload has a truthy `id` (and a truthy `societyId` where the route needs one), passing its claims on; every other refusal gets the route's code |
| Auth.LinkedSociety | app/api/admin/logs/delivery/route.js:25-33 | an admin's linked society is found exactly when the id casts, names a stored admin and that admin has a society, and it is then that society |
| Auth.AdminContext | app/api/admin/logs/delivery/route.js:18-40 | an admin payload is accepted exactly when it has a truthy `id` and either a truthy `societyId` or a linked account; the context is the admin's, with the token's society or else the linked one; every refusal is 401 |
| Auth.VerifyAnyToken | app/api/amenities/route.js:9-57 | every refusal is 401; an accepted caller has a non-empty id and society; the caller is accepted as a user exactly when the token is user-signed with both `id` and `societyId` |
| Auth.VerifyAdminToken | app/api/admin/logs/delivery/route.js:12-41 | every refusal is 401, and only an admin-signed token is ever accepted, as an admin |
| Auth.UserScopeIgnoresQuery | app/api/amenities/route.js:82-86 | no query parameter changes the society a user reads, and an admin's given parameter alone decides theirs |
| Auth.UserTriedFirst | app/api/amenities/route.js:15-22 | a user-signed token with both claims is accepted as that user whatever the admin accounts hold |
| Auth.IncompleteUserTokenRejected | app/api/amenities/route.js:23-52 | a user-signed token lacking `id` or `societyId` is refused with 401 |
| Auth.LookupOnlyForUnlinkedAdmin | app/api/amenities/route.js:37-44 | the admin accounts decide the verdict only for an admin token with an id and no society; every other verdict is the same for any store |
| Auth.AdminAgreesWithAny | app/api/admin/logs/delivery/route.js:12-41 | whenever the admin-only check accepts, the either-kind check accepts with the same context |
| BookingBoard.Shown | app/admin/dashboard/bookings/page.jsx:58-72 | a tab shows every fetched booking it lists as often as it was fetched and no other, ordered by date then start time |
| BookingBoard.AllAndHistoryPartition | app/admin/dashboard/bookings/page.jsx:61-65 | the 'all' and 'history' tabs together show the fetched list exactly, and no booking is on both |
| BookingBoard.Actions | app/admin/dashboard/bookings/page.jsx:124-125 | a row offers check-in exactly for 'confirmed' or 'approved' and check-out exactly for 'checked-in' |
| BookingBoard.ActionsFollowDoor | app/admin/dashboard/bookings/page.jsx:124-144 | a row offers at most one button; check-in is offered exactly when the QR check-in would accept the status; no button is offered on a finished booking or requests the status it already has |
| Bookings.Admit | app/api/bookings/route.js:27-97 | a missing field (a count of 0 included) or an id that is not an object id is 400; then an unknown amenity is 404, another society's 403, a non-operational one 400 and a count over capacity 400; an admitted booking is pending, of the caller and the caller's society, for that operational amenity, within its capacity, on the requested day, from the requested start to the requested end time, with payment 0 and 'pending' only when the amenity is chargeable; every refusal is 400, 403 or 404 |
| Bookings.Create | app/api/bookings/route.js:9-111 | a failed user-token check (id and society needed) is 401; a refused request gets its code and writes nothing; an admitted one is stored under the new id with 201 whatever is already booked; an id already taken is 500 with nothing written |
| Bookings.GenerateQr | app/api/bookings/generate-qr/route.js:9-64 | a failed token check (only `id` needed) is 401; a missing or invalid booking id is 400; a QR is issued only for a stored booking of the caller, and is the encoded payload of that booking; an absent booking and another user's both give 404; a caller id that does not cast is 500 |
| Bookings.IssuedQrNamesBooking | app/api/bookings/generate-qr/route.js:43-49 | the QR text issued for a booking is read by the check-in route as that same booking |
| Bookings.QrIgnoresStatus | app/api/bookings/generate-qr/route.js:36-39 | changing any booking's status never changes the answer: no status is required for a QR |
| Common.HexValue | app/api/bookings/route.js:34 | a character has a digit value in 0..15 exactly when it is a hexadecimal digit, else -1 |
| Common.AsObjectId | app/api/amenities/checkout/route.js:35-40 | a string casts to an id exactly when `isValid` accepts it (24 hexadecimal digits), and the id has the same digit values |
| Common.CastOwnText | app/api/bookings/generate-qr/route.js:45 | casting an id's own `toString()` text gives that id back |
| Common.LeadingSpace | components/admin/AmenityForm.jsx:126 | the count is the length of the white-space run at the start of the text, and the next character is not white space |
| Common.TrailingSpace | components/admin/AmenityForm.jsx:126 | the count is the length of the white-space run at the end of the text, and the character before it is not white space |
| Common.Trim | components/admin/AmenityForm.jsx:126-127 | the trimmed text is empty exactly when the text is all white space, and otherwise starts and ends with a non-space |
| Common.NatText | app/api/user/guests/route.js:42 | the decimal text of a count is non-empty and all digits |
| Common.NatTextValue | app/api/user/guests/route.js:42 | reading the digits of the decimal text gives the count back |
| Common.NumberOfText | app/api/user/guests/route.js:44 | `Number(s)`: a blank text is 0 and a text of digits is their value |
| Common.DayBounds | app/api/admin/logs/delivery/route.js:85 | every timestamp lies between the start and the end of its own day |
| Common.LastMillisecondMissed | app/api/admin/logs/delivery/route.js:85 | the last millisecond of a day is of that day, yet the window `$gte startOfDay, $lt endOfDay` as written leaves it out |
| Common.InDayAsWrittenIsDayOf | app/api/admin/logs/delivery/route.js:85 | the window as written holds a timestamp exactly when it is of that day and is not the day's last millisecond |
| Common.InDayIsDayOf | app/api/admin/bookings/route.js:37 | the corrected window `$gte startOfDay, $lte endOfDay` holds a timestamp exactly when it is of that day |
| ComplaintApi.ComplaintOrderIsPreorder | app/api/complaints/route.js:82-89 | newest-first by `createdAt` is a total preorder |
| ComplaintApi.List | app/api/complaints/route.js:42-101 | a token neither secret accepts is 401; the scoped society is 400 exactly when it is not an object id; 200 exactly when it is and the caller is an admin or a user whose id casts; on 200 an admin gets every complaint of the society and a user only their own there, each once, newest first |
| ComplaintApi.SetFields | app/api/complaints/route.js:128 | after `$set` the complaint has the old fields and the update's; the update's values win and every other field keeps its value |
| ComplaintApi.SetFieldsIdempotent | app/api/complaints/route.js:128 | applying the same update twice is the same as applying it once |
| ComplaintApi.Update | app/api/complaints/route.js:110-140 | no token is 401 and a token the admin secret refuses 403; a missing or invalid id is 400; an unknown complaint 404; 200 exactly when all checks pass, and then only that complaint changes, by the body's fields; no failure writes anything |
| ComplaintApi.ResidentCannotUpdate | app/api/complaints/route.js:116-118 | a resident's token is always refused with 403 by the update, even for their own complaint |
| Deliveries.Pending | app/api/user/deliveries/pending/route.js:34-50 | at most five records, each a ledger entry at the caller's delivery point of the caller's society within the last 12 hours, newest first |
| Deliveries.PendingComplete | app/api/user/deliveries/pending/route.js:39-50 | a matching entry is missing from the list only when all five places are taken by entries no older than it |
| Deliveries.ExitKeepsPending | app/api/user/deliveries/pending/route.js:43 | logging an exit record never changes the pending list |
| Deliveries.PendingDeliveries | app/api/user/deliveries/pending/route.js:8-59 | a failed user-token check (id and society needed) is 401; the answer is the pending list exactly when both ids cast, and 500 otherwise |
| Deliveries.DigitRun | app/api/admin/logs/delivery/route.js:74 | the count is the length of the run of decimal digits at the head of the text |
| Deliveries.ParseInt | app/api/admin/logs/delivery/route.js:74 | `parseInt` is NaN exactly when no digit follows the leading white space and optional sign |
| Deliveries.SignFree | app/api/admin/logs/delivery/route.js:74 | the text with one leading '+' or '-' dropped, if it has one |
| Deliveries.DigitRunPrefix | app/api/admin/logs/delivery/route.js:74 | the digit run of digits followed by a non-digit is exactly those digits |
| Deliveries.ParseIntNatText | app/api/admin/logs/delivery/route.js:74 | `parseInt` reads back any count written in decimal, whatever non-digit text follows it |
| Deliveries.DefaultLimit | app/api/admin/logs/delivery/route.js:74 | the default limit text "100" reads as 100 |
| Deliveries.DeliveryLog | app/api/admin/logs/delivery/route.js:76-96 | every listed record is a delivery-point record of the society in the ledger, of the given day but not its last millisecond when a day is given, newest first, and no more than the limit (its magnitude when negative; 0 is no limit) |
| Deliveries.DeliveryLogComplete | app/api/admin/logs/delivery/route.js:76-96 | a matching record (of the day and not at its last millisecond, when a day is given) is missing from the log only when a non-zero limit cut it off behind records no older than it |
| Deliveries.DayEndDeliveryUnlisted | app/api/admin/logs/delivery/route.js:85 | a delivery record stamped at the last millisecond of the filtered day is of that day and yet is never listed |
| Deliveries.PageSize | app/api/admin/logs/delivery/route.js:74 | the page size is 100 when the parameter is absent or empty, else `parseInt` of it |
| Deliveries.AdminDeliveryLogs | app/api/admin/logs/delivery/route.js:44-104 | every refusal of the admin check is 401 and every other failure 500; the listing succeeds exactly when the check passes, the society id casts, the limit reads and any date is a valid date; it is then exactly the delivery log of the verified admin's society for the requested day and the limit given, 100 without a limit parameter |
| FaceScan.FaceDraftValidates | app/api/gate/face-scan/route.js:31-69 | the face-scan record is stored exactly when the direction is 'entry' or 'exit', the person has a name and the device's id and society are object ids; it is then a verified main-gate record by face of that person at that time |
| FaceScan.DepartmentText | app/api/gate/face-scan/route.js:64 | a worker's department prints as itself when present (else "undefined") |
| FaceScan.Scan | app/api/gate/face-scan/route.js:10-79 | with the empty guard helper the scan is 500; a missing field, an id that is not an object id or an unknown person type is 400; an unknown person 404 and one of another society 403; exactly one record is appended on 200 and none otherwise; that record is the person's own (a resident's id, or none for a worker), with their name and society, in the direction given; a found person of the device's society is 200 exactly when the direction is 'entry' or 'exit', the person has a name and the device's ids cast |
| FormValue.NumberOf | components/admin/AmenityForm.jsx:62 | `Number(v)` or 0: a number is itself and every falsy value is 0 |
| FormValue.InputValue | components/admin/AmenityForm.jsx:62 | a checkbox gives its flag and a text input its text; a number input always gives a number, its digits' value when it is all digits and 0 when blank |
| FormValue.Split | components/admin/AmenityForm.jsx:54 | `split('.')` gives at least one part and no part holds a '.' |
| FormValue.JoinSplit | components/admin/AmenityForm.jsx:54 | joining the parts of `split('.')` with '.' gives the text back |
| FormValue.PathKeys | components/admin/AmenityForm.jsx:54 | the walked keys are never empty: the path's parts (which join back to the path) when a path is given, else just the id |
| GuestBoard.Shown | app/admin/dashboard/guests/page.jsx:58-65 | the 'all' tab shows the fetched list unchanged; any other tab shows every guest of exactly that status, as often as fetched, and no other guest |
| GuestBoard.Actions | app/admin/dashboard/guests/page.jsx:133-154 | a row offers at most two status buttons |
| GuestBoard.ActionsAreSteps | app/admin/dashboard/guests/page.jsx:133-154 | a row's buttons are exactly the lifecycle steps from its status (pending to approved or rejected, approved to checked-in, checked-in to checked-out); every step moves forward between known guest statuses, and rejected and checked-out rows offer nothing |
| GuestBoard.NoReturn | app/admin/dashboard/guests/page.jsx:133-154 | following the buttons never brings a guest back to an earlier status |
| Guests.PeopleOf | app/api/user/guests/route.js:44 | `Number(noOfPeople) or 1` is never 0, keeps a non-zero number and reads a non-zero digit text as its value |
| Guests.GuestCode | app/api/user/guests/route.js:42 | the code is `G-` followed by the last six (or fewer) digits of the clock |
| Guests.NewGuest | app/api/user/guests/route.js:34-53 | a missing name, count, date, purpose or end date is 400; the guest is built exactly when those are present, both dates parse and both token ids cast; it is then pending with no QR, owned by the caller and their society, with the body's fields, a non-zero head count, the code generated from the clock and a car number only when one was given |
| Guests.Add | app/api/user/guests/route.js:9-69 | a bad or incomplete user token is 401 and a rejected body 400, each leaving the store alone; otherwise exactly one guest, the built one, is added under the new id (201); nothing but the guests changes |
| Guests.GuestOrderIsPreorder | app/api/user/guests/route.js:83 | newest-first by `createdAt` is a total preorder |
| Guests.Mine | app/api/user/guests/route.js:72-88 | a bad token is 401; with a token whose id casts, the rows are exactly the caller's guests (of any society), newest first |
| Guests.StatusFilter | app/api/admin/guests/route.js:35-44 | the status filter applies exactly when it is one of the five guest statuses, and is then that status; 'all' and anything else are ignored |
| Guests.ForSociety | app/api/admin/guests/route.js:8-57 | a bad admin token is 401 and a missing or malformed society id 400; otherwise the rows are exactly that society's guests, of the filtered status when the filter applies, newest first; nothing ties the society to the admin |
| JsonText.SkipWs | app/api/amenities/checkin/route.js:33 | `JSON.parse` skips a suffix-preserving run of JSON whitespace and stops at the first other character |
| JsonText.HexQuad | app/api/amenities/checkin/route.js:33 | a `\u` escape's four hex digits name one UTF-16 code unit (below 0x10000) |
| JsonText.ParseUnicode | app/api/amenities/checkin/route.js:33 | a `\u` escape consumes at least its four hex digits |
| JsonText.ParseChar | app/api/amenities/checkin/route.js:33 | reading one string-literal character always consumes input |
| JsonText.ParseChars | app/api/amenities/checkin/route.js:33 | reading a string literal to its closing quote always consumes input |
| JsonText.LeadingDigits | app/api/amenities/checkin/route.js:33 | the count is exactly the run of decimal digits that heads the text |
| JsonText.NumberLength | app/api/amenities/checkin/route.js:33 | a number token, when there is one, is a non-empty prefix of the text |
| JsonText.ParseValue | app/api/amenities/checkin/route.js:33 | reading a value always consumes input, so the mutually recursive reader terminates |
| JsonText.Lookup | app/api/amenities/checkin/route.js:34 | `qrData.key` is undefined exactly when no member has that key, and otherwise is the value of a member with that key |
| JsonText.Parse | app/api/amenities/checkin/route.js:33 | a blank text throws, and a parsed value spans the whole text up to trailing white space |
| JsonText.LookupSnoc | app/api/amenities/checkin/route.js:34 | the last member with a key decides its value, as when `JSON.parse` builds the object |
| JsonText.HexDigitChar | app/api/bookings/generate-qr/route.js:43 | `JSON.stringify`'s hex digit for n reads back as n |
| JsonText.EscapeCharReads | app/api/bookings/generate-qr/route.js:43 | every character as `JSON.stringify` escapes it reads back as that character, whatever follows |
| JsonText.EscapeReads | app/api/bookings/generate-qr/route.js:43 | every string as `JSON.stringify` escapes it reads back as that string up to the closing quote |
| JsonText.StringifyReads | app/api/bookings/generate-qr/route.js:43 | any value without numbers, once stringified, reads back as itself whatever text follows |
| JsonText.ArrayReads | app/api/bookings/generate-qr/route.js:43 | a stringified array of number-free values reads back as itself |
| JsonText.ObjectReads | app/api/bookings/generate-qr/route.js:43-49 | a stringified object of number-free values reads back as itself, members in order |
| JsonText.StringifyItemsReads | app/api/bookings/generate-qr/route.js:43 | the stringified elements of an array read back as those elements |
| JsonText.StringifyMembersReads | app/api/bookings/generate-qr/route.js:43-49 | the stringified members of an object read back as those members |
| JsonText.Stringify | app/api/bookings/generate-qr/route.js:43 | a stringified value that is not a number never starts with white space |
| JsonText.ParseStringify | app/api/bookings/generate-qr/route.js:43 | `JSON.parse(JSON.stringify(v))` is `v` for every value without numbers |
| Qr.Payload | app/api/bookings/generate-qr/route.js:43-49 | the QR payload is an object of four string members and holds no number |
| Qr.PayloadFields | app/api/bookings/generate-qr/route.js:43-49 | the payload's `type` is AMENITY_BOOKING and its `bookingId`, `amenityId` and `userId` are the ids written |
| Qr.Read | app/api/amenities/checkin/route.js:31-41 | a scanned text names a booking exactly when it parses, has type AMENITY_BOOKING and a `bookingId` string of 24 hex digits, and it names that id; a number or object id passes `isValid` but cannot be cast (500); everything else is the 400 |
| Qr.ReadEncoded | app/api/amenities/checkin/route.js:31-41 | the QR issued for a booking passes check-in's checks and names that same booking |
| Qr.Encode | app/api/bookings/generate-qr/route.js:43-49 | `JSON.parse` of the QR text gives back the payload written |
| Qr.EncodeDistinguishes | app/api/bookings/generate-qr/route.js:43-49 | QR texts for different bookings differ |
| ResidentComplaints.FeedbackSubmit | app/user/dashboard/complaints/page.jsx:229-237 | feedback is sent exactly when the rating is 1 to 5; the sent body is just `feedback`, carrying that rating and the comment, and the form is reset; otherwise nothing is sent and the form is kept |
| ResidentComplaints.MarkResolved | app/user/dashboard/complaints/page.jsx:239-248 | a request is sent exactly when the note is not blank; it sets status 'resolved' with the note and closes and clears the dialog; otherwise nothing changes |
| ResidentComplaints.ActionsExclusive | app/user/dashboard/complaints/page.jsx:296-311 | a card never offers both the feedback form and "Mark as Resolved"; a rated complaint offers no feedback form; resolving an unrated complaint swaps the button for the feedback form |
| ResidentComplaints.Tab | app/user/dashboard/complaints/page.jsx:114-116 | the 'all' tab is the whole list; any other tab holds every complaint of exactly that status, as often as listed, and no other |
| ResidentComplaints.FiledComplaintFirst | app/user/dashboard/complaints/page.jsx:101 | a newly filed complaint heads 'all' and its own status's tab, and every other tab is unchanged |
| SocietyApi.Read | app/api/society/route.js:49-100 | no valid token is 401 and a missing or malformed society id 400; a society other than the caller's is 403; the caller's own society is returned when stored and is 404 otherwise; nothing but the caller's own society is ever returned |
| SocietyApi.Create | app/api/society/route.js:103-136 | no token is 401 and a bad admin token 403; a missing field (a zero coordinate counts as missing) is 400 and another admin's id 403; for the caller's own complete body, an admin id that does not cast is 400, a taken new id 500, and otherwise 201; only a 201 changes the store, adding exactly one society, owned by the caller, with the body's name, address, pincode and location; nothing but the societies changes |
| SocietyPage.ChangedData | app/admin/dashboard/society/page.jsx:46-54 | a compared property (name, address, pincode, photo) is sent exactly when the form's value differs from the original by `!==`, and the location exactly when its value differs; each sent property carries the form's value; an unedited form of plain values sends nothing |
| SocietyPage.Page.SaveChanges | app/admin/dashboard/society/page.jsx:44-80 | with no change nothing is sent and editing ends; otherwise exactly the changed properties are sent; a saved society becomes both copies and ends editing; a failure reverts the edited copy to the original and shows the message; submitting always ends |
| SocietyPage.Page.CancelEdit | app/admin/dashboard/society/page.jsx:82-86 | the edited copy goes back to the original, editing ends and the error is cleared |
| Sorting.Insert | app/api/admin/logs/delivery/route.js:93 | inserting into a sorted list keeps it sorted and adds exactly that one element |
| Sorting.Sort | app/api/admin/logs/delivery/route.js:93 | `.sort(...)` returns a sorted permutation of what matched |
| Sorting.SortKeepsMembers | app/api/admin/logs/delivery/route.js:93 | sorting brings in no element that was not there |
| Sorting.Take | app/api/admin/logs/delivery/route.js:94 | `.limit(n)` for positive n keeps a prefix of n elements, or all when there are fewer |
| Sorting.Limit | app/api/admin/logs/delivery/route.js:94 | MongoDB's `.limit(n)` keeps a prefix: all for 0, at most n for positive n and at most -n for negative n |
| Sorting.TakeKeepsTop | app/api/admin/logs/delivery/route.js:93-94 | a sorted, limited list keeps the top: whatever it drops is ordered after everything it keeps |
| Sorting.Filter | app/admin/dashboard/guests/page.jsx:63 | `Array.prototype.filter` keeps exactly the selected elements, each as often as before |
| Sorting.FilterSkips | app/admin/dashboard/guests/page.jsx:63 | appending an element the filter drops leaves the selection as it was |
| Sorting.FilterSnoc | app/admin/dashboard/guests/page.jsx:63 | the selection of a list with one element appended is the old selection plus that element when it is kept |
| Sorting.FilterAppend | app/admin/dashboard/guests/page.jsx:63 | filtering keeps the order: the selection of a concatenation is the concatenation of the selections |
| Sorting.FilterCons | app/user/dashboard/complaints/page.jsx:101 | the selection of a list with an element put in front is that element, when kept, before the old selection |
| Sorting.DescendingIsPreorder | app/api/admin/logs/delivery/route.js:93 | greatest-key-first is a total preorder, so a sort by it is defined |
| Sorting.LexLeTotal | app/api/admin/bookings/route.js:47 | the string order used for `startTime: 1` relates every two strings |
| Sorting.LexLeTransitive | app/api/admin/bookings/route.js:47 | the string order used for `startTime: 1` is transitive |
| Store.Find | app/api/admin/guests/route.js:48-49 | `Model.find(filter).sort(order)` returns every selected document exactly once, and in order |
| Store.FoundAreSelected | app/api/admin/guests/route.js:48 | every returned pair is a stored document, under its own id, that the filter selects |
| Store.SelectedAreFound | app/api/admin/guests/route.js:48 | every stored document the filter selects is returned |
| Store.NewestFirstIsPreorder | app/api/admin/guests/route.js:49 | `sort({ createdAt: -1 })` is a total preorder |
| UserForm.InitialState | components/admin/UserForm.jsx:14-26 | the state has exactly the nine form fields; the password always starts empty; every other field is the edited resident's value when truthy, else its default ('' for texts, 0 cars, no car numbers) |
| UserForm.InitialPhoto | components/admin/UserForm.jsx:24 | the photo is an object of exactly `url` and `isVerified`, each the resident's value when truthy, else '' and false |
| UserForm.InitialStateStable | components/admin/UserForm.jsx:14-31 | re-initialising from a state the form built gives that state back |
| UserForm.SetPath | components/admin/UserForm.jsx:40-48 | setting a path adds at most its first key and leaves every other top-level field as it was |
| UserForm.GetSetPath | components/admin/UserForm.jsx:40-48 | reading the path just set gives the value set |
| UserForm.SetPathLeavesOthers | components/admin/UserForm.jsx:40-48 | any path that leaves the set path somewhere reads what it read before: only the addressed leaf changes |
| UserForm.HandleChange | components/admin/UserForm.jsx:34-51 | the loop's copy-and-walk produces exactly the state with the leaf at the input's path (its dotted path, else its id) set to the input's value |
| UserForm.CarNumberChange | components/admin/UserForm.jsx:54-61 | the car list grows with '' until the index is inside it, that entry becomes the value, every other entry and every other field is kept |
| UserForm.Blanks | components/admin/UserForm.jsx:72 | `Array(n).fill('')` is n empty texts |
| UserForm.Resized | components/admin/UserForm.jsx:64-82 | after the effect the car list has exactly `Number(noOfCars) or 0` entries (for a negative count, `slice` drops that many from the end), keeps its leading entries and pads with ''; a list already of the right length is left alone; no other field changes |
| UserForm.ResizedStable | components/admin/UserForm.jsx:64-82 | with a non-negative count, running the effect again changes nothing |
| UserForm.Submitted | components/admin/UserForm.jsx:85-98 | submitting throws exactly when a truthy car number is not a text; otherwise the password is sent exactly when creating with a non-empty one, every other field is sent unchanged, and the car numbers are the non-blank ones in order |
| UserForm.SubmittedCarsInOrder | components/admin/UserForm.jsx:94 | the submitted car numbers of any split of the list are those of the first part followed by those of the second |
| VehicleScan.Admitted | app/api/gate/vehicle-scan/route.js:62-66 | an admitted guest is checked in, stamped with the scan time, and otherwise unchanged |
| VehicleScan.HostName | app/api/gate/vehicle-scan/route.js:60 | the logged host is never empty: the host's name when known and non-empty, else 'N/A' |
| VehicleScan.GateDraftValidates | app/api/gate/vehicle-scan/route.js:81-88 | a gate attendance record is stored exactly when the person has a name and the guard and society ids cast; it is then an entry or exit at the main gate, verified by plate, at the scan time, with the scan's user, guest, person name, purpose, gate, plate and society, and the guard as verifier |
| VehicleScan.StubGuardNeverLogs | app/api/gate/vehicle-scan/route.js:12 | with the hard-coded device context no gate attendance record is ever stored |
| VehicleScan.StubSocietyDoesNotCast | app/api/gate/vehicle-scan/route.js:12 | the hard-coded device context's society is not an object id, so the first query of every scan fails |
| VehicleScan.FindLatestOpen | app/api/gate/vehicle-scan/route.js:92-96 | finds nothing exactly when the plate has no open passage in the society, else the open passage entered last |
| VehicleScan.Classify | app/api/gate/vehicle-scan/route.js:36-71 | a plate is a resident's exactly when a resident of the society lists it, else a guest's exactly when an approved guest of the society with that car is expected that day, else unauthorized; each kind logs its own name and purpose, a guest's naming the plate and its host (or 'N/A'); only a guest match changes the store, admitting exactly that guest |
| VehicleScan.Enter | app/api/gate/vehicle-scan/route.js:36-88 | entry appends exactly one open passage, classified as above, even if one is already open, with the purpose text of its kind and a guest's host as resident when the host exists; it is 200 exactly when the guard id casts and a matched resident has a name; on 200 exactly one attendance entry record follows at the scanned gate, verified by the guard, with the passage's resident, guest and purpose, under the resident's name, 'Guest: <name> (Vehicle: <plate>)' or 'Vehicle: <plate>'; a rejected record leaves the attendance ledger alone and is 500 |
| VehicleScan.Leave | app/api/gate/vehicle-scan/route.js:90-117 | with no open passage nothing changes (200); otherwise exactly the latest open passage is closed at the scan time, and the scan is 200 exactly when the guard id casts; on 200 exactly one attendance exit record follows at the scanned gate, verified by the guard, with purpose 'Vehicle Exit: <plate>', the passage's resident and guest while they exist, and the resident's name, else the guest's, else 'Vehicle: <plate>'; a rejected record is 500 |
| VehicleScan.Scan | app/api/gate/vehicle-scan/route.js:15-125 | a missing plate, direction or gate is 400 and an unknown direction a no-op 200; a society that does not cast is 500 before any write; only guests, passages and attendance records change, the ledgers only grow, and a stored record needs a guard id that casts; a complete entry whose society and guard id cast and whose plate owners are named is 200, and a complete exit with a society that casts is 200 exactly when no passage is open or the guard id casts |
| VehicleScan.NewestPassageClosedFirst | app/api/gate/vehicle-scan/route.js:92-96 | last in, first closed: a passage appended later than every other is the one an exit scan closes |
| VehicleScan.ClosingRemovesOnlyThatPassage | app/api/gate/vehicle-scan/route.js:92-96 | after an exit the plate's open passages are the old ones minus the closed one |

## Left out

- Network, database connection and logging (`connectMongo`, `console`) are not modelled. Driver errors other than a duplicate id are not modelled either.
- Concurrency is not modelled. Two requests never interleave, and MongoDB's atomic `findOneAndUpdate` is one step.
- JWT signatures and secrets (RFC 7519) are an oracle, because the cryptography is not logic the routes own.
- Login, signup, password-change and token-refresh routes are not part of this model. Neither are the admin pages that only display data or forward a request.
- The QR image (`QRCode.toDataURL`) is not modelled. Only the JSON text it encodes is.
- Dates: `parseISO`, `startOfDay`, `endOfDay` and `format` work in the server's local time zone. The model counts days as UTC day numbers (`DayOf`) and ignores daylight-saving time.
- JSON numbers are kept as their source text. The round trip is proved for values without numbers, which covers the QR payload. Fractions and exponents are not given a value.
- Common.NumberOfText: reads only whole decimal numbers, with an optional sign and white space around them. Fractions, exponents, hexadecimal and `Infinity` are read as NaN.
- Sorting.LexLeTotal: orders strings by code point, as MongoDB's default collation does. The admin bookings page's `localeCompare` order is not modelled.
- Mongoose population (`populate`) is not modelled. A populated reference is read as a lookup in the referenced map, which gives the same answer when the reference exists.
- Mongoose strict mode is not modelled. A `$set` of a field the schema does not know is dropped by the driver, but the model applies it (`ComplaintApi.SetFields`).
- Bracket-path stamps (`booking['timestamps.entry'] = now`) are modelled as assigned. Mongoose may not persist such paths unless they are declared.
- Common.AsObjectId: the 12-character strings that older bson versions also accept as ids are not modelled.
- SocietyPage.ChangedData: `!==` on two objects compares identity. The model never knows two objects to be the same, so it counts them as different.
- SocietyPage.ChangedData: the location is compared as a value, not as the text `JSON.stringify` gives. The two differ only when key order differs, which the form never produces.
- UserForm.SetPath: spreading a truthy string or array (`{...'ab'}`) gives an object with indexed keys. The model spreads such a value as an empty object.
- AmenityForm.SetIn: a path through a truthy value that is not an object is modelled as a failure. That is right for texts, numbers and flags, where the assignment throws. For an array, the code sets a property on the array instead.
- UserForm.Submitted: entries of the car list that are neither texts nor falsy make `trim` throw. The model reports that as `None` and does not separate the kinds of entry.
- Bookings.GenerateQr: a `bookingId` sent as a JSON number is not modelled, because the body field is an optional text. Such an id can pass `ObjectId.isValid` and then make the lookup throw (500).
- AmenityForm.WithField: spreading a truthy entry that is not an object (a text) gives indexed keys in JavaScript. The model spreads it as an empty object.
- AdminProfile.Put: a `null` JSON body is not expressible, because the body is a map. In the code `delete` on it throws, giving 500.
- BookingBoard.Shown: `Array.prototype.sort` is stable, so bookings with the same date and start time keep their fetched order. The model states the order only up to such ties.
- AmenityGate.CheckOut: a `bookingId` sent as a JSON number is not modelled, because the body field is an optional text. Such an id can pass `ObjectId.isValid` and then reach `findById`.
- AmenityForm.Items: `prev[key] || []` on a truthy value that is not an array (a text, say) spreads or filters that value. The model reads such a field as an empty list.
- AmenityForm.InitialState: states the value of each defaulted field group by group, not the value of every field of an existing amenity.
- The device and admin authentication stubs are parameters, with `None` for a helper whose body is empty. What a real guard-device authentication would check is not known.
- The other models (booking, guest, user, worker, amenity, society, complaint, announcement, vehicle entry, admin) are not given here. Their documents are records of the fields the routes read and write, with no schema validation beyond what the routes check.

## Findings

| source | as written | input that shows it | evidently intended | confidence | as-written member | corrected member |
|---|---|---|---|---|---|---|
| app/api/admin/logs/delivery/route.js:85 | the day filter is `$gte startOfDay(day)`, `$lt endOfDay(day)`, and `endOfDay` is already the day's last millisecond | a delivery record stamped at 23:59:59.999 of the filtered day is not listed | `$lte endOfDay(day)`, so the window holds exactly that day's records | high, not executed | Deliveries.DeliveryLog | Common.InDayIsDayOf |
| app/api/admin/bookings/route.js:37 | the booking day filter is `$gte startOfDay(day)`, `$lt endOfDay(day)` | a booking whose `bookingDate` is 23:59:59.999 of the filtered day is not listed | `$lte endOfDay(day)` | high, not executed | AdminBookings.List | Common.InDayIsDayOf |
