# Prevailing-wage ticket administration, modelled in Dafny

This project models the core of a prevailing-wage time-keeping application. Employees submit work tickets: a DIR number, a project title, a date and hours. Administrators do the rest:

- they bulk-import tickets from a CSV export;
- they review tickets through a small status machine;
- they group tickets into semi-monthly pay periods per employee;
- they move each employee-period from `pending` to `awaiting_pay` to `ready_for_dir`;
- they export DIR (Department of Industrial Relations) XML documents per ticket and per employee-period.

A middleware decides which requests are redirected.

There is one Dafny module per source file of the core, plus three shared modules:

- `Common`: options, white space, trimming, splitting and joining, lower-casing, decimal text, and a lexicographic order on strings.
- `Sorting`: a stable insertion sort, first-occurrence de-duplication, and sums and counts over sequences.
- `Domain`: profiles, tickets, ticket statuses and `employee_periods` rows. It also holds the pay-period helpers and the admin guards that several files share.

Where the history matters, a loop or a step-by-step table update becomes a Dafny `method`. Each such method is proved equal to a specification function, and the properties are proved about that function. State-holding code becomes a `class`:

- the `employee_periods` table;
- the ticket table;
- the import's two tables;
- the periods client's UI state;
- the middleware's profile lookup.

Pure expressions become functions and lemmas.

The pay-period helpers (`getPayPeriod`, `getPayPeriodKey`, `parsePayPeriodKey`, `formatPayPeriodLabel`) and `calculateAdjustedPay` are imported by the application from its types module, but are not defined there. They are parameters of the model (`Domain.Calendar`, `Domain.PayFormula`). Everything proved about their callers holds for any choice of them, except where a lemma names an assumption.

The same goes for what only the environment knows:

- the current time;
- `parseFloat`, `toFixed(2)` and `String(number)`;
- database outcomes, which are success flags or lookup functions;
- `crypto.randomUUID()`, which becomes a function of the loop indexes.

## Model

| member | source | states |
|---|---|---|
| CsvUpload.ParseCsvLine | src/app/admin/upload/page.tsx:68-85 | the character loop builds exactly `CsvFields(line)`; joining the fields with `,` gives the line with every `"` removed; there is one field more than commas outside quotes; no field holds a `"` |
| CsvUpload.CsvFieldsSpec | src/app/admin/upload/page.tsx:73-83 | the reference split's join, field count and quote-freedom, by induction over the line |
| Common.FindIndex | src/app/admin/upload/page.tsx:25-30 | a column index is the first header containing its label, or -1 when none does |
| CsvUpload.PeopleListSpec | src/app/admin/upload/page.tsx:39-43 | every person is trimmed and non-empty, and every non-empty trimmed piece of the people cell is kept |
| CsvUpload.ParseFieldsSpec | src/app/admin/upload/page.tsx:37-62 | a line is skipped exactly when it is too short to reach the people column or its people list is empty; a kept row carries the people list, the normalised date, the trimmed title and the raw ticket and DIR cells |
| CsvUpload.DateNormalised | src/app/admin/upload/page.tsx:48-53 | `M/D/Y` of digits becomes `Y'-MM-DD`, where `Y'` is `Y + 2000` below 100, and month and day are padded to two digits |
| CsvUpload.ParseDataLine | src/app/admin/upload/page.tsx:36-62 | the loop body's outcome for one data line is its `ParseLine` outcome |
| CsvUpload.ParseDataLines | src/app/admin/upload/page.tsx:34-63 | the loop over the data lines yields the summary of their outcomes: the kept rows in order, or the abort of the first line that throws |
| CsvUpload.TrimAllSpec | src/app/admin/upload/page.tsx:42 | every piece is trimmed in place, and the list keeps its length |
| CsvUpload.NonEmptySpec | src/app/admin/upload/page.tsx:43 | exactly the non-empty entries are kept |
| CsvUpload.ParseCsv | src/app/admin/upload/page.tsx:20-66 | the result is the summary of the outcomes of the lines after the header, in input order, with the columns of the header line |
| CsvUpload.SummaryAborted | src/app/admin/upload/page.tsx:48-53 | the parse aborts exactly when some data line throws (a missing date cell) |
| CsvUpload.SummaryRows | src/app/admin/upload/page.tsx:34-63 | the rows of a successful parse are exactly the rows its lines keep, at most one per line |
| CsvUpload.SummaryAppend | src/app/admin/upload/page.tsx:34-63 | parsing distributes over concatenation of the data lines, so row order follows line order |
| CsvUpload.UniquePeople | src/app/admin/upload/page.tsx:125 | the distinct names are duplicate-free, no more than the ticket total, and exactly the names of some row |
| CsvUpload.AllPeopleCount | src/app/admin/upload/page.tsx:124-125 | the flattened people list has `totalTickets` entries, the sum of the rows' people counts |
| CsvUpload.AllPeopleMembers | src/app/admin/upload/page.tsx:125 | a name is in the flattened list exactly when some row lists it |
| TicketXml.EscapeXmlIsEscapeEach | src/app/api/generate-xml/route.ts:91-98 | the chain of five global replacements equals replacing each character by its entity in one pass |
| TicketXml.EscapeXmlNoMarkup | src/app/api/generate-xml/route.ts:94-97 | no `<`, `>`, `"` or `'` survives escaping |
| TicketXml.EscapeXmlAmpersands | src/app/api/generate-xml/route.ts:93 | every `&` of the output starts one of the five entities |
| TicketXml.UnescapeEscapeXml | src/app/api/generate-xml/route.ts:92-97 | decoding the five entities gives the original string back |
| TicketXml.EscapeXmlIdentity | src/app/api/generate-xml/route.ts:92-97 | a string without `& < > " '` is left unchanged |
| TicketXml.EscapeXmlLength | src/app/api/generate-xml/route.ts:93-97 | the output is longer by 4 per `&`, 3 per `<` and `>`, and 5 per `"` and `'` |
| TicketXml.EscapeXmlConcat | src/app/api/generate-xml/route.ts:92-97 | escaping distributes over concatenation |
| TicketXml.FieldsEscaping | src/app/api/generate-xml/route.ts:55-72 | title, name and e-mail are escaped; DIR number, date and PDF URL are interpolated raw |
| TicketXml.TicketXmlEscaping | src/app/api/generate-xml/route.ts:55-72 | the title, name and e-mail lines carry exactly their tags' two angle brackets, while the DIR number, date and PDF URL lines carry whatever their raw text holds |
| TicketXml.GenerateTicketXml | src/app/api/generate-xml/route.ts:9-88 | the route answers 401, then 403, then 400 for a falsy `ticketId`, then 404 when the lookup finds nothing; it succeeds exactly otherwise, with the document and the pay figures |
| TicketXml.MissingIdIgnoresLookup | src/app/api/generate-xml/route.ts:26-42 | a missing `ticketId` is answered without consulting the ticket lookup |
| TicketXml.ReplyMatchesDocument | src/app/api/generate-xml/route.ts:45-87 | the document's DIR number and its four work-detail elements print, through `toFixed(2)`, exactly the DIR number and figures of the JSON answer |
| PeriodXml.PeriodDays | src/app/api/generate-period-xml/route.ts:32-33 | period 1 is days 1 to 15; the other period runs from the 16th to the month's last day, which is 28 to 31 and, in February of a four-digit year, 29 exactly in Gregorian leap years |
| PeriodXml.LastDay | src/app/api/generate-period-xml/route.ts:33 | day zero of the next month is a day between 28 and 31 |
| PeriodXml.YearLength | src/app/api/generate-period-xml/route.ts:33 | the month lengths add up to 366 days in a leap year and 365 otherwise |
| PeriodXml.DateTextFormat | src/app/api/generate-period-xml/route.ts:34-35 | for a four-digit year the date text is `YYYY-MM-DD`, with a one-based, zero-padded month and a zero-padded day, ten characters long |
| PeriodXml.RangeOrdered | src/app/api/generate-period-xml/route.ts:34-35 | the start date sorts no later than the end date |
| PeriodXml.Select | src/app/api/generate-period-xml/route.ts:45-50 | the query keeps exactly the employee's tickets with `startDate <= date_worked <= endDate`, each as often as the table holds it |
| PeriodXml.PeriodTicketsSpec | src/app/api/generate-period-xml/route.ts:45-51 | the period's tickets are exactly the selected ones, with multiplicity, in ascending date order |
| PeriodXml.DistinctValues | src/app/api/generate-period-xml/route.ts:59-60 | the DIR numbers and projects are duplicate-free, exactly the values present, in first-occurrence order |
| PeriodXml.ElementLinesOnce | src/app/api/generate-period-xml/route.ts:81-84 | a value list without duplicates gives one element line per value and no repeated line |
| PeriodXml.PeriodElements | src/app/api/generate-period-xml/route.ts:80-93 | the document has one `<Project>` line per distinct title, one `<DIRNumber>` line per distinct DIR number, and one `<Ticket>` block per ticket in fetch order |
| PeriodXml.GeneratePeriodXml | src/app/api/generate-period-xml/route.ts:10-113 | 401 or 403 without an upsert; otherwise the document of the period's tickets, and an upsert of `ready_for_dir` with the wage at the request's key when the write succeeds |
| PeriodXml.GenerationRecord | src/app/api/generate-period-xml/route.ts:99-111 | after generation the key holds `ready_for_dir` with the wage, and repeating the call changes only `updated_at` |
| EmployeePeriods.Upserted | src/app/api/update-employee-period/route.ts:31-44 | an upsert keeps every other key's record, writes status and timestamp at the key, keeps the existing id, and keeps the stored wage when none is sent |
| EmployeePeriods.UpsertRepeated | src/app/api/update-employee-period/route.ts:31-44 | repeating an upsert later changes only `updated_at` |
| EmployeePeriods.UpsertIdempotent | src/app/api/update-employee-period/route.ts:31-44 | repeating an upsert with the same payload is a no-op |
| EmployeePeriods.PeriodTable.Upsert | src/app/api/generate-period-xml/route.ts:99-111 | the table becomes `Upserted` of its old rows |
| EmployeePeriods.UpdateEmployeePeriod | src/app/api/update-employee-period/route.ts:10-51 | 401 or 403 with no write; a database error gives 500 with its message and no write; otherwise the status is upserted at the parsed key and the row is returned |
| EmployeePeriods.StatusUpdateEffect | src/app/api/update-employee-period/route.ts:25-42 | after success the key holds the requested status, whatever it was before; no other key changes; an existing wage and id are kept |
| PeriodsPage.BuildStatusMap | src/app/admin/periods/page.tsx:59-63 | the loop builds the lookup `StatusMapOf(rows)` |
| PeriodsPage.StatusMapLastWins | src/app/admin/periods/page.tsx:59-63 | a key is in the lookup exactly when some row has it, and it holds the entry of the last such row |
| PeriodsPage.StatusFor | src/app/admin/periods/page.tsx:124 | the status is the record's status when it is non-empty, and `pending` when the key is absent |
| PeriodsPage.GroupTickets | src/app/admin/periods/page.tsx:69-94 | the loop builds the grouping `GroupingOf(tickets)` |
| PeriodsPage.GroupingKeys | src/app/admin/periods/page.tsx:69-94 | the periods and the groups are the distinct period keys and `${periodKey}-${user_id}` keys, in first-occurrence order |
| PeriodsPage.GroupingTickets | src/app/admin/periods/page.tsx:86-93 | a group holds exactly the tickets with its key, in fetch order |
| PeriodsPage.GroupingFirstPeriod | src/app/admin/periods/page.tsx:75-84 | a period's label, year, month and period come from the first ticket with its key |
| PeriodsPage.GroupingFirstProfile | src/app/admin/periods/page.tsx:86-91 | a group's profile is that of its first ticket |
| PeriodsPage.PartitionCount | src/app/admin/periods/page.tsx:69-94 | the group sizes of the distinct keys sum to the number of tickets |
| PeriodsPage.GroupSizes | src/app/admin/periods/page.tsx:69-94 | the sizes of the built groups sum to the number of tickets |
| PeriodsPage.OnePeriodPerGroup | src/app/admin/periods/page.tsx:101 | with fixed-width period keys, each group key starts with exactly one period key |
| PeriodsPage.PageTicketCount | src/app/admin/periods/page.tsx:69-133 | with fixed-width period keys, the tickets shown over all periods and employees are exactly as many as were fetched |
| PeriodsPage.AdjustedPay | src/app/admin/periods/page.tsx:110-117 | the total is null exactly when the salary is null or 0; otherwise it is the per-ticket sum, with a null per-ticket value counted as 0 |
| PeriodsPage.EmployeeRow | src/app/admin/periods/page.tsx:103-127 | an employee row has its group's tickets, as a permutation sorted by date; their hour total; the group's profile; and the null-salary pay rule |
| PeriodsPage.EmployeeStatus | src/app/admin/periods/page.tsx:104-106 | the row's status, id and wage come from the last record at its user-year-month-period key; the status is `pending` when there is none or it is empty |
| PeriodsPage.EmployeesForMember | src/app/admin/periods/page.tsx:100-101 | every employee of a period comes from a group whose key starts with the period's key |
| PeriodsPage.BuildEmployees | src/app/admin/periods/page.tsx:97-132 | the loop yields the period's employees sorted by name |
| PeriodsPage.BuildPeriods | src/app/admin/periods/page.tsx:97-140 | the loops yield every period with its employees, sorted newest first |
| PeriodsPage.PeriodListMember | src/app/admin/periods/page.tsx:97-133 | every listed period is the period of one of the grouping's keys |
| PeriodsPage.PageSorted | src/app/admin/periods/page.tsx:121-140 | periods sort newest first on (year, month, period), employees by `full_name` or else `email`, and tickets by date |
| PeriodsPage.NameOrder | src/app/admin/periods/page.tsx:130-132 | the name order is total and transitive |
| PeriodsPage.NewerOrder | src/app/admin/periods/page.tsx:136-140 | the period order is total and transitive |
| PeriodsPage.PayPeriodsPage | src/app/admin/periods/page.tsx:27-140 | `/login` without a user, `/dashboard` for a non-admin, otherwise the periods of the page |
| Domain.DateOrder | src/app/admin/periods/page.tsx:121 | the date order is total and transitive |
| Domain.TotalHoursAppend | src/app/admin/periods/page.tsx:103 | the hour total of a concatenation is the sum of the totals |
| Domain.StatusOrPending | src/app/admin/tickets/page.tsx:53 | `status \|\| 'pending'`: never empty, the status when it is non-empty |
| Domain.AdminGuard | src/app/api/import-csv/route.ts:17-31 | no user gives 401 `Unauthorized`; a role other than admin gives 403 `Forbidden`; it passes exactly for an admin |
| Domain.PageGuard | src/app/admin/tickets/page.tsx:12-25 | no user redirects to `/login`; a non-admin redirects to `/dashboard`; it passes exactly for an admin |
| ImportCsv.ExistingMapKeys | src/app/api/import-csv/route.ts:40-45 | the lookup's keys are exactly the lower-cased non-empty full names; unnamed profiles are omitted |
| ImportCsv.ExistingMapLastWins | src/app/api/import-csv/route.ts:40-45 | a key maps to the id of the last profile with that lower-cased name |
| ImportCsv.PlaceholderEmailShape | src/app/api/import-csv/route.ts:63 | the placeholder address holds no white space and ends in `@placeholder.local` |
| ImportCsv.BuildExistingMap | src/app/api/import-csv/route.ts:40-45 | the lookup the first loop builds is `ExistingMap` of the fetched profiles |
| ImportCsv.ImportRow | src/app/api/import-csv/route.ts:52-96 | the inner loop over a row's people moves tables and counters by exactly `PeopleFold` of that row |
| ImportCsv.ImportPerson | src/app/api/import-csv/route.ts:52-96 | one inner-loop step on the tables and counters is one `PersonStep` of the specification |
| ImportCsv.ImportRows | src/app/api/import-csv/route.ts:13-103 | 401 or 403 with no insert; otherwise the tables gain exactly the profiles and tickets of `ImportOf`, and the reply carries its two counters |
| ImportCsv.FailedProfileSkips | src/app/api/import-csv/route.ts:73-76 | a failed profile insert skips only that person: the state is unchanged and the batch continues |
| ImportCsv.RowsFoldKeeps | src/app/api/import-csv/route.ts:57-71 | the loop only adds entries to the lookup; it never overwrites an entry with a non-empty id |
| ImportCsv.ImportCounts | src/app/api/import-csv/route.ts:47-96 | the counters equal the inserted rows; `ticketsCreated` is at most the sum of the people counts, with equality when every insert succeeds |
| ImportCsv.ImportTickets | src/app/api/import-csv/route.ts:80-89 | every ticket is `pending` and copies one row's DIR number, title, date and full `totalHours` |
| ImportCsv.ImportTicketOwners | src/app/api/import-csv/route.ts:53-89 | every imported ticket copies a row one of whose people it belongs to: its user id is the lookup's id for that person's lower-cased name, which is the id of the already known profile when there is one and otherwise the id of a profile created under that name |
| ImportCsv.ImportTicketList | src/app/api/import-csv/route.ts:53-89 | when every insert succeeds the tickets are exactly `AllTickets`: one per person per row, row after row and person after person, each for the id the final lookup holds for the person's lower-cased name, which is present for every person; there are `TotalTickets(rows)` of them |
| ImportCsv.ImportTicketAt | src/app/api/import-csv/route.ts:53-89 | when every insert succeeds, ticket `TotalTickets(rows[..i]) + j` is row `i`'s ticket for the final lookup's id of person `j` of that row |
| ImportCsv.ImportIdOrigin | src/app/api/import-csv/route.ts:40-71 | a known name keeps its fetched id in the final lookup; any other non-empty entry in it is the id of a profile created with that lower-cased name |
| ImportCsv.ImportOneProfilePerName | src/app/api/import-csv/route.ts:53-72 | the created profiles have pairwise different lower-cased names, none of them already known; each is a placeholder with that name, the name-derived e-mail, role `user` and a null salary |
| ImportCsv.ImportTables.InsertProfile | src/app/api/import-csv/route.ts:59-67 | a successful insert appends the profile; the ticket table is untouched |
| ImportCsv.ImportTables.InsertTicket | src/app/api/import-csv/route.ts:80-89 | a successful insert appends the ticket; the profile table is untouched |
| PeriodsClient.Toggled | src/app/admin/periods/periods-client.tsx:37-53 | only the given key changes membership |
| PeriodsClient.ToggleTwice | src/app/admin/periods/periods-client.tsx:37-53 | toggling a key twice gives the set back |
| PeriodsClient.InitialExpanded | src/app/admin/periods/periods-client.tsx:31 | exactly one key is expanded: the first period's, or `undefined` without periods |
| PeriodsClient.ActionsFor | src/app/admin/periods/periods-client.tsx:168-202 | `pending` offers marking awaiting pay, `awaiting_pay` offers the wage dialog, anything else offers nothing |
| PeriodsClient.ActionTable | src/app/admin/periods/periods-client.tsx:136-203 | only `pending` leads to a status write, and only to `awaiting_pay`; a completed row offers nothing |
| PeriodsClient.FileNameShape | src/app/admin/periods/periods-client.tsx:85 | the download name is `dir-`, then the lower-cased name with white-space runs as `-` (white-space-free), then `-`, the period key and `.xml` |
| PeriodsClient.Client.TogglePeriod | src/app/admin/periods/periods-client.tsx:37-44 | the expanded periods are toggled at the key, and nothing else changes |
| PeriodsClient.Client.ToggleEmployee | src/app/admin/periods/periods-client.tsx:46-53 | the expanded employees are toggled at the key, and nothing else changes |
| PeriodsClient.Client.MarkAwaiting | src/app/admin/periods/periods-client.tsx:55-61 | it sends an `awaiting_pay` request for the row and sets `loading` |
| PeriodsClient.Client.OpenModal | src/app/admin/periods/periods-client.tsx:190-195 | it opens the dialog with the period key, the user id, `full_name \|\| email` and the adjusted hours |
| PeriodsClient.Client.SetWage | src/app/admin/periods/periods-client.tsx:273 | the wage becomes the typed text, and nothing else changes |
| PeriodsClient.Client.Cancel | src/app/admin/periods/periods-client.tsx:298 | it closes the dialog and clears the wage |
| PeriodsClient.Client.GenerateXml | src/app/admin/periods/periods-client.tsx:65-94 | a no-op without a dialog or with an empty wage; otherwise it requests the dialog's period and user at the parsed wage, downloads under the file name when the answer is OK, then closes and resets |
| TicketActions.OfferedTable | src/app/admin/tickets/ticket-actions.tsx:30-69 | `pending` offers `in_review`; `in_review` offers `approved` and `rejected`; `approved`/`rejected` offer `pending`; any other string offers nothing |
| TicketActions.DecisionOnlyFromReview | src/app/admin/tickets/ticket-actions.tsx:42-59 | a step to `approved` or `rejected` starts at `in_review` |
| TicketActions.DecisionThroughReview | src/app/admin/tickets/ticket-actions.tsx:31-68 | in every run of offered steps, each `approved` or `rejected` after the first status comes straight after `in_review` |
| TicketActions.NoSelfStep | src/app/admin/tickets/ticket-actions.tsx:31-68 | no status offers itself |
| TicketActions.StatusWritten | src/app/admin/tickets/ticket-actions.tsx:20-23 | only the `status` of the ticket with the id changes; without such a ticket nothing does |
| TicketActions.StatusWrittenTwice | src/app/admin/tickets/ticket-actions.tsx:20-23 | of two writes to the same ticket the later wins |
| TicketActions.TicketTable.UpdateStatus | src/app/admin/tickets/ticket-actions.tsx:17-27 | when the database accepts the update the rows become `StatusWritten` of the old rows; when it answers with an error they are unchanged |
| TicketsPage.BuildStatusNames | src/app/admin/tickets/page.tsx:42-46 | the loop builds `StatusNames(rows)` |
| TicketsPage.StatusNamesAgree | src/app/admin/tickets/page.tsx:42-46 | the status-only lookup has the keys and statuses of the periods page's lookup |
| TicketsPage.StatusNamesLastWins | src/app/admin/tickets/page.tsx:42-46 | a key is present exactly when a record has it, holding the status of the last such record |
| TicketsPage.TicketStatusShown | src/app/admin/tickets/page.tsx:49-54 | a ticket shows the status of the last record at its own key if that status is non-empty, and `pending` otherwise |
| TicketsPage.SalaryArgument | src/app/admin/tickets/page.tsx:104 | an absent or zero salary is passed as null, any other salary as itself |
| TicketsPage.PayTextPending | src/app/admin/tickets/page.tsx:122-123 | `Pending Salary` appears exactly for a null pay; a number is shown behind `$` |
| TicketsPage.EmployeeLabel | src/app/admin/tickets/page.tsx:108 | `full_name`, else `email`, else `Unknown`; never empty |
| TicketsPage.PageLine | src/app/admin/tickets/page.tsx:49-132 | line `i` shows ticket `i`'s own columns, a non-empty employee label, `Pending Salary` exactly when the pay formula gives null, and the status of the last period record at the ticket's key, `pending` when there is none or it is empty |
| TicketsPage.AdminTicketsPage | src/app/admin/tickets/page.tsx:12-132 | `/login` without a user, `/dashboard` for a non-admin, otherwise the lines |
| TicketsRoute.Validate | src/app/api/tickets/route.ts:13-20 | `Missing required fields` exactly when a text field is falsy or the hours are null/undefined; valid exactly when those pass and the hours parse to a positive number, which it carries |
| TicketsRoute.ZeroHours | src/app/api/tickets/route.ts:13-20 | zero hours pass the presence check and fail the hours check; an empty text field is missing |
| TicketsRoute.PostTicket | src/app/api/tickets/route.ts:6-27 | 401, then 400 `Missing required fields`, then 400 `Invalid hours_worked`, in that order and without an insert; a rejected insert throws, which the framework answers with a 500 and no row; otherwise `{ ok: true }` and exactly one `pending` row with the caller's id and the parsed hours |
| TicketsRoute.TicketsTable.Insert | src/app/api/tickets/route.ts:22-26 | an accepted insert appends the one row; a rejected one leaves the table unchanged |
| Middleware.DecideCases | src/middleware.ts:34-61 | a protected path without a user goes to `/login`; `/login` with an admin goes to `/admin/periods`; `/login` with a non-admin passes; everything else passes |
| Middleware.RoleOnlyForLogin | src/middleware.ts:46-52 | outside `/login` with a user, the role does not affect the decision |
| Middleware.Handle | src/middleware.ts:31-61 | the decision for the path, the user and their stored role; the profile is queried exactly when the path starts with `/login` and there is a user |
| Middleware.RoleLookup.RoleOf | src/middleware.ts:47-52 | the stored role of the id, recording the query |
| Common.ReplaceSpaceRunsNoSpace | src/app/api/import-csv/route.ts:63 | replacing white-space runs by a separator without white space leaves no white space |

## Left out

- Floating point. Hours, salaries and wages are `real`. `parseFloat`, `toFixed(2)` and `String(number)` are parameters. So `Number(hours_worked)`, the `* 1.25` products and the sums are exact, not IEEE doubles.
- Dates. `new Date(...)` parsing, time zones, `toISOString` and `toLocaleDateString` are left out. Ticket dates are their ISO text. The orderings by date and by name are code-unit lexicographic order on strings, standing in for `Date` comparison and `localeCompare`.
- `Array.prototype.sort` is a library call. It is modelled as a stable insertion sort on sequences, not as an in-place sort of the fetched arrays.
- `toLowerCase` (`Common.LowerChar`) maps only the ASCII letters A to Z; other letters are left as they are. The `\s` class and `trim` use the full white-space and line-terminator set of ECMAScript (`Common.IsSpace`).
- CsvUpload.NormaliseDate: reads the year with `Common.ParseInt`, an exact unbounded integer, whereas `parseInt` gives a double. Years beyond 2^53 lose precision in the source, and years of 10^21 or more print in exponent notation there.
- The pay-period helpers and `calculateAdjustedPay`. They are imported from the types module, where they are not defined, so they are parameters and no wage formula is reconstructed. `STATUS_LABELS` only labels badges and is not modelled.
- Database calls are modelled as follows:
  - tables are maps or sequences;
  - insert, upsert and update outcomes are success flags (`ok` parameters): in the import, the ticket submission route, the ticket buttons and the period XML route;
  - lookups are functions.
- A request body that is not JSON, or a JSON body the handler cannot destructure (a `null` body, or an import body without a `rows` array), makes `await request.json()` or the destructuring throw, and the framework answers 500. `TicketsRoute.PostTicket`, `TicketXml.GenerateTicketXml`, `PeriodXml.GeneratePeriodXml`, `EmployeePeriods.UpdateEmployeePeriod` and `ImportCsv.ImportRows` take the parsed fields as given and do not model this 500.
- Concurrent requests, SQL row order beyond the stated `order` clauses, and the Supabase client are not modelled. A `select('*')` join that finds no profile is not modelled on the periods page.
- Cookie handling in the middleware (its `setAll` reassignment of the response) and its `matcher` configuration are left out. They are transport details.
- UI rendering and the reloads after requests (`window.location.reload`, `router.refresh`) are left out. So is the wage dialog's total-pay preview (a display of a float product). So is the transient `loading` flag of the ticket buttons, which is set only while the update is in flight and cleared right after it.
- The periods client's interface names the adjusted figure `totalAdjustedHours`, while the periods page passes `totalAdjustedPay`. Each file is modelled as written: `PeriodsPage.EmployeeData` carries `totalAdjustedPay`, and `PeriodsClient.ClientEmployee` carries `totalAdjustedHours`.
- JSON bodies in the ticket submission route are the values `undefined`, `null`, booleans, numbers and strings. Arrays and objects are not modelled. A JSON number always prints and parses back to itself under `parseFloat(String(n))`.
- PeriodsPage.PageTicketCount: proved only when all period keys have the same length. The source relies on period keys not being prefixes of one another, and `getPayPeriodKey` is not defined, so the model states that assumption.
- PeriodsPage.OnePeriodPerGroup: the same fixed-width assumption on period keys.
- ImportCsv.ImportOneProfilePerName: assumes the fresh ids are non-empty, as `crypto.randomUUID()` ids are. The lookup treats an empty id as "not found", so an existing profile whose id is the empty string would be duplicated.
- ImportCsv.ImportTicketOwners, ImportCsv.ImportIdOrigin, ImportCsv.ImportTicketList and ImportCsv.ImportTicketAt: assume `FreshIds(o)`, that every `crypto.randomUUID()` id is non-empty, for the same reason. ImportTicketList and ImportTicketAt also assume that every insert succeeds (`AllSucceed(o)`); a failed insert drops that person's ticket, as `ImportCounts` and `FailedProfileSkips` state.
- TicketXml.FieldsOf: escapes through the one-pass escaper `EscapeEach`. `EscapeXmlIsEscapeEach` proves it equal to the chain of `replace` calls, and `FieldsEscaping` states the result in terms of `EscapeXml`.
- PeriodXml.LastDay: follows the `Date` constructor, which reads years 0 to 99 as 1900 to 1999. The Gregorian February rule is stated for years of at least 100.
- The period XML document interpolates its texts without escaping, as the route does.
