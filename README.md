# mama-care admin dashboard: the page rules, modelled in Dafny

The mama-care admin dashboard is a Next.js/React front end. Administrators use it to browse the
transactions, bookings, users and reports of a child-care platform. Almost all of it is
rendering and network hooks. The statable rules it contains live in a few page components,
one helper and one API slice, and this project models those rules:

- **Image URLs** (`ImageUrl`). The placeholder image, absolute URLs passed through, and anything
  else put under the backend's base URL.
- **Query parameters** (`TransactionManagement`, `BookingManagement`, `UserManagement`,
  `BookingApi`).
  - The transaction and booking pages push `{ name, value }` pairs onto a list: page and limit
    first, then the trimmed search term, then the date or status filter.
  - The user page fills a query object conditionally.
  - The `getBookings` endpoint appends every pair, in order, to a `URLSearchParams` buffer.
- **Reading a response** (`ApiShapes` and each page's `ReadListing`).
  - Missing data, meta, page counts and totals fall back to `[]`, the default meta, 1 and 0.
  - On the transaction page, an error or `success === false` empties the table.
- **Row normalisation** (`ToTransaction`, `ToBooking`). A raw record becomes a table row, with
  'N/A', 'PENDING', 'Standard Care', 'Full Day' and 0 filled in for what is missing or falsy.
- **The page-number window** (`Pagination`). The five-button window is the same expression at
  app/dashboard/transaction-management/page.tsx:245-255 and
  app/dashboard/booking-management/page.tsx:211-221, so it is modelled once.
- **The pager and the filters.** The previous/next clamps, the "Showing X to Y" arithmetic, and
  the handlers that reset the page when a filter changes.
- **Labels.**
  - `mapApiStatus` and the booking status capitalisation.
  - The report topic lookup and the report status formatting, where the first `_` becomes a
    space.
  - Role and status badges, the colour lookups with their gray fallback, and avatar initials.

JavaScript behaviour the rules rely on is written out in two small modules:

- `JsValues`: `||` defaults, where `""` and `0` count as missing, and `${x}` of a missing value,
  which prints `undefined`.
- `JsStrings`:
  - `trim` over the ECMAScript white-space and line-terminator set;
  - `split(' ')` / `map(n => n[0])` / `join('')`;
  - `replace` of the first match only;
  - `charAt(0)`;
  - `String(n)` for integers, with a parser proving the rendering injective.

Each page's React state (current page, search text, filters) is a class whose methods are the
handlers and button clicks. A button's `disabled` condition is modelled as the click doing
nothing.

## Model

| member | source | states |
|---|---|---|
| ImageUrl.GetImageUrl | components/providers/imageUrl.ts:1-12 | an undefined or empty path gives "/assets/image4.png"; an http:// or https:// path is returned unchanged; any other path gives the base URL + "/" + path; the result is never empty |
| ImageUrl.PathIsSuffix | components/providers/imageUrl.ts:10-11 | a non-empty path is the tail of the URL, so a leading '/' is not normalised away |
| ImageUrl.ResolvedIsAbsolute | components/providers/imageUrl.ts:6-11 | the URL made from any non-empty path starts with http:// or https:// |
| ImageUrl.ResolveIdempotent | components/providers/imageUrl.ts:2-11 | resolving the URL of a non-empty path again gives the same URL |
| ImageUrl.DefaultNotIdempotent | components/providers/imageUrl.ts:2-11 | the placeholder is relative, so resolving it again gives "http://10.10.7.111:5002//assets/image4.png", which differs from it |
| ApiShapes.MissingResponseDefaults | app/dashboard/user-management/page.tsx:220-221 | a missing response yields no records and the meta {total 0, limit 10, page 1, totalPage 1} |
| JsStrings.Trim | app/dashboard/transaction-management/page.tsx:59-60 | the result is the slice of the input between its leading and trailing white space, starts and ends with non-white-space, and is empty exactly when the input is all white space |
| JsStrings.TrimIdempotent | app/dashboard/transaction-management/page.tsx:59-60 | trimming a trimmed text changes nothing, so the search term sent is already trimmed |
| JsStrings.IntToStringRoundTrip | app/dashboard/transaction-management/page.tsx:55-56 | parsing `String(n)` gives back n |
| JsStrings.IntToStringInjective | app/dashboard/transaction-management/page.tsx:55-56 | distinct page numbers are sent as distinct texts |
| JsStrings.JoinSplit | app/dashboard/user-management/page.tsx:262 | joining the parts of `split(' ')` with ' ' rebuilds the name |
| JsStrings.InitialsAreWordStarts | app/dashboard/user-management/page.tsx:262 | `name.split(' ').map(n => n[0]).join('')` is exactly the characters that follow a space or begin the name and are not spaces, in order |
| Pagination.PageWindow | app/dashboard/transaction-management/page.tsx:245-255 | the window has min(totalPages, 5) entries (none for a negative count); every entry is in [1, totalPages]; entries are consecutive; when 1 ≤ currentPage ≤ totalPages the current page is among them |
| Pagination.PageWindowIsShiftedRun | app/dashboard/booking-management/page.tsx:211-221 | the four-branch rule equals the reference window starting at max(1, min(currentPage-2, max(1, totalPages-4))) |
| Pagination.PageWindowStrictlyIncreasing | app/dashboard/booking-management/page.tsx:211-224 | window entries strictly increase, so the buttons' keys are distinct |
| Pagination.SmallTotalShowsAllPages | app/dashboard/transaction-management/page.tsx:247-248 | with at most five pages the window is 1..totalPages |
| Pagination.CurrentPageCentred | app/dashboard/transaction-management/page.tsx:253-254 | with more than five pages and room on both sides the current page is the middle of five |
| TransactionManagement.BuildQueryParams | app/dashboard/transaction-management/page.tsx:54-65 | page then limit first, as decimal texts; searchTerm is present iff the trimmed text is non-empty and carries the trimmed text; dateFilter is present iff it is non-empty and not "all"; searchTerm precedes dateFilter; nothing else is added |
| TransactionManagement.ToTransaction | app/dashboard/transaction-management/page.tsx:77-89 | each name, email, type and intent id is the raw value when truthy, else 'N/A'; each status, else 'PENDING'; the amount, else 0; id and createdAt pass through; no shown text is empty |
| TransactionManagement.ToTransactions | app/dashboard/transaction-management/page.tsx:77 | one row per record, same length, same order |
| TransactionManagement.ReadListing | app/dashboard/transaction-management/page.tsx:71-74 | an error or success === false gives ([], 1, 0); otherwise the response's records, totalPage (1 when missing or 0) and total (0 when missing or 0); the page count is never 0 |
| TransactionManagement.PreviousPage | app/dashboard/transaction-management/page.tsx:237 | max(1, p-1): one page back, never below 1 |
| TransactionManagement.NextPage | app/dashboard/transaction-management/page.tsx:274 | min(totalPages, p+1): one page on, never past the last page |
| TransactionManagement.ClampsStayInRange | app/dashboard/transaction-management/page.tsx:237-275 | from a page in [1, totalPages] both clamps stay in [1, totalPages] |
| TransactionManagement.TransactionPage.constructor | app/dashboard/transaction-management/page.tsx:48-50 | the page starts with no search text, the "all" date filter and page 1 |
| TransactionManagement.TransactionPage.HandleSearch | app/dashboard/transaction-management/page.tsx:91-94 | stores the text and resets the page to 1; the date filter is unchanged |
| TransactionManagement.TransactionPage.HandleDateFilter | app/dashboard/transaction-management/page.tsx:96-99 | stores the filter and resets the page to 1; the search text is unchanged |
| TransactionManagement.TransactionPage.ClickPrevious | app/dashboard/transaction-management/page.tsx:237-238 | disabled on page 1 or while fetching, otherwise the clamped previous page; a page ≥ 1 stays ≥ 1 |
| TransactionManagement.TransactionPage.ClickNext | app/dashboard/transaction-management/page.tsx:274-275 | disabled on the last page or while fetching, otherwise the clamped next page; a page in range stays in range |
| TransactionManagement.TransactionPage.ClickPageNumber | app/dashboard/transaction-management/page.tsx:261-262 | jumps to the clicked window entry unless fetching; a page in range stays in range |
| BookingManagement.MapApiStatus | app/dashboard/booking-management/page.tsx:37-45 | COMPLETED, CONFIRMED, PENDING and CANCELLED decode to their status; anything else, including a missing value, to pending |
| BookingManagement.ApiNameRoundTrip | app/dashboard/booking-management/page.tsx:37-45 | decoding a status's backend name gives that status back |
| BookingManagement.FilterValueUpperIsApiName | app/dashboard/booking-management/page.tsx:66 | upper-casing a filter value gives the backend name of the same status |
| BookingManagement.FilterRoundTrip | app/dashboard/booking-management/page.tsx:133-137 | each of the four filter values, sent upper-cased and decoded by mapApiStatus, is that filter value again |
| BookingManagement.BuildQueryParams | app/dashboard/booking-management/page.tsx:56-67 | page then limit first; searchTerm iff the trimmed text is non-empty, with the trimmed text; bookingStatus iff the filter is non-empty and not "all", with the upper-cased filter; searchTerm precedes bookingStatus |
| BookingManagement.FirstFullDay | app/dashboard/booking-management/page.tsx:80 | `fullDayBooking?.fullDays?.[0]` is present exactly when the list exists and is non-empty, and is its first day |
| BookingManagement.BookingDate | app/dashboard/booking-management/page.tsx:80 | the hourly date when truthy, else the first full day when truthy, else 'N/A'; never empty |
| BookingManagement.Duration | app/dashboard/booking-management/page.tsx:82-84 | "start - end" (with "undefined" for a missing time) when there is an hourly booking, 'Full Day' otherwise |
| BookingManagement.ToBooking | app/dashboard/booking-management/page.tsx:76-89 | names and time default to 'N/A'; date and duration as above; status via mapApiStatus; amount defaults to 0; location is always 'N/A'; services is a one-element list holding the booking type or 'Standard Care' |
| BookingManagement.ToBookings | app/dashboard/booking-management/page.tsx:76 | one row per record, same length, same order |
| BookingManagement.ReadListing | app/dashboard/booking-management/page.tsx:70-72 | records or []; totalPage, or 1 when missing or 0; total, or 0 when missing |
| BookingManagement.StatusLabel | app/dashboard/booking-management/page.tsx:174 | the status name with only its first character upper-cased, the rest unchanged |
| BookingManagement.StatusLabelsMatchFilterItems | app/dashboard/booking-management/page.tsx:134-137 | the badge of each status reads as the filter's item for it |
| BookingManagement.ShowingRange | app/dashboard/booking-management/page.tsx:196 | first = (page-1)*perPage+1 and last = min(page*perPage, total): last ≤ total, at most perPage rows, exactly perPage on a full page, first ≥ 1 from page 1 on |
| BookingManagement.BookingPage.constructor | app/dashboard/booking-management/page.tsx:50-52 | the page starts with no search text, the "all" status filter and page 1 |
| BookingManagement.BookingPage.HandleSearch | app/dashboard/booking-management/page.tsx:91-94 | stores the text and resets the page to 1 |
| BookingManagement.BookingPage.HandleStatusFilter | app/dashboard/booking-management/page.tsx:96-99 | stores the filter and resets the page to 1 |
| BookingManagement.BookingPage.ClickPrevious | app/dashboard/booking-management/page.tsx:203-204 | currentPage - 1 unless on page 1 or fetching; no clamp beyond the disabled gate |
| BookingManagement.BookingPage.ClickNext | app/dashboard/booking-management/page.tsx:240-241 | currentPage + 1 unless on the last page or fetching |
| BookingManagement.BookingPage.ClickPageNumber | app/dashboard/booking-management/page.tsx:227-228 | jumps to the clicked window entry unless fetching |
| UserManagement.BuildQueryParams | app/dashboard/user-management/page.tsx:212-217 | page and limit always; searchTerm present iff non-empty, untrimmed; role present iff non-empty |
| UserManagement.RoleFor | app/dashboard/user-management/page.tsx:243 | "all" clears the role; any other choice is stored as it is |
| UserManagement.EndIndex | app/dashboard/user-management/page.tsx:100-101 | endIndex ≤ totalItems, endIndex - startIndex ≤ itemsPerPage, equal on a full page, and startIndex ≤ endIndex while the page starts inside the list |
| UserManagement.ShowingAgreesWithBookingPage | app/dashboard/user-management/page.tsx:174 | "Showing startIndex+1 to endIndex" is the booking page's range for the same page, size and total |
| UserManagement.ActiveWithRole | app/dashboard/user-management/page.tsx:404 | the filtered users are exactly the listed users with that role and status ACTIVE, each as many times as it is listed, so the card's `.length` is their count |
| UserManagement.ActiveCountsDisjoint | app/dashboard/user-management/page.tsx:404-418 | active counts for two different roles add up to at most the number of users |
| UserManagement.ActiveParentsAndNannies | app/dashboard/user-management/page.tsx:404-418 | Active Parents + Active Nannies ≤ the users listed |
| UserManagement.AvatarFallback | app/dashboard/user-management/page.tsx:262 | the initials are the first characters of the space-separated name parts, in order, and contain no space |
| UserManagement.RoleLabel | app/dashboard/user-management/page.tsx:278 | PARENT → "Parent", NANNY → "Nanny", and the label differs from the value exactly for those two |
| UserManagement.StatusLabel | app/dashboard/user-management/page.tsx:304 | ACTIVE → "Active", INACTIVE → "Inactive", and the label differs from the value exactly for those two |
| UserManagement.RoleColor | app/dashboard/user-management/page.tsx:45-49 | the table's class for PARENT, NANNY and ADMIN, and gray exactly for every other role |
| UserManagement.StatusColor | app/dashboard/user-management/page.tsx:51-55 | the table's class for ACTIVE and SUSPENDED, and gray for everything else, INACTIVE included |
| UserManagement.ReadListing | app/dashboard/user-management/page.tsx:220-221 | records or []; the response meta or {0, 10, 1, 1} |
| UserManagement.UserManagementPage.constructor | app/dashboard/user-management/page.tsx:206-209 | page 1, limit 10, no search term, no role |
| UserManagement.UserManagementPage.HandleSearch | app/dashboard/user-management/page.tsx:226-229 | stores the term and resets the page to 1 |
| UserManagement.UserManagementPage.HandleRoleFilter | app/dashboard/user-management/page.tsx:242-245 | stores RoleFor(choice) and resets the page to 1 |
| UserManagement.UserManagementPage.HandlePageChange | app/dashboard/user-management/page.tsx:248-250 | sets the page to exactly the requested value |
| UserManagement.UserManagementPage.ClickPrevious | app/dashboard/user-management/page.tsx:180-181 | page - 1 through handlePageChange unless on page 1 or loading |
| UserManagement.UserManagementPage.ClickNext | app/dashboard/user-management/page.tsx:192-193 | page + 1 through handlePageChange unless on the last page or loading |
| Report.TopicLabel | app/dashboard/report/page.tsx:67-73 | the fixed label of each of the five known topics, the raw value otherwise |
| Report.TopicLabelsMatchFilter | app/dashboard/report/page.tsx:139 | every topic the filter offers is labelled in the table as the filter labels it |
| Report.StatusLabel | app/dashboard/report/page.tsx:168 | same length as the status; the first '_' becomes a space; the first character is upper-cased and every other one lower-cased |
| Report.KnownStatusLabels | app/dashboard/report/page.tsx:168 | PENDING → "Pending", IN_REVIEW → "In review", RESOLVED → "Resolved", DISMISSED → "Dismissed" |
| Report.StatusLabelsAgainstFilter | app/dashboard/report/page.tsx:180-183 | the badge equals the status filter's option label exactly for the options other than IN_REVIEW |
| Report.StatusColor | app/dashboard/report/page.tsx:60-65 | the table's class for the known statuses, gray for DISMISSED and for unknown ones |
| Report.StatusIcons | app/dashboard/report/page.tsx:163-166 | exactly one icon for each of the four known statuses, the matching one, and none for other values |
| Report.ReporterFallback | app/dashboard/report/page.tsx:108 | the initials of the reporter's name parts |
| Report.ReportedFallback | app/dashboard/report/page.tsx:126 | `name.charAt(0)`: at most one character, empty only for an empty name |
| Report.ReportedFallbackStartsInitials | app/dashboard/report/page.tsx:108-126 | for a name not starting with a space the one-letter fallback is the first of the reporter-style initials |
| Report.ReadListing | app/dashboard/report/page.tsx:79-80 | records or []; the response meta, or {0, 10, 1, 1} when the response or its meta is missing |
| BookingApi.ValuesNamed | lib/api/bookingApi.ts:16 | `getAll`: empty exactly when no pair has the name; every value listed came from a pair with that name |
| BookingApi.ValuesNamedAppend | lib/api/bookingApi.ts:16 | appending a pair adds its value at the end of its own name's values and changes no other name's |
| BookingApi.ValuesNamedConcat | lib/api/bookingApi.ts:14-18 | values under a name over a concatenation are those of each part in order, so nothing is overwritten |
| BookingApi.DuplicateNamesKept | lib/api/bookingApi.ts:16 | two pairs with the same name both survive, in order |
| BookingApi.SearchParams.Append | lib/api/bookingApi.ts:16 | the new pair goes at the end and the earlier pairs are kept |
| BookingApi.GetBookingsQuery | lib/api/bookingApi.ts:11-24 | the url is "/bookings"; the params are a fresh buffer holding the array's pairs in array order, and none when the args are not an array |
| BookingApi.BookingPageRequest | lib/api/bookingApi.ts:11-24 | the booking page's list reaches the request unchanged: its length, page then limit first, searchTerm iff the trimmed text is non-empty and carrying it, bookingStatus iff the filter is active and upper-cased, searchTerm before bookingStatus, nothing else |

## Left out

- JsStrings.ToUpper: upper-cases ASCII letters only. `toUpperCase` maps every Unicode letter.
  The values the pages upper-case are ASCII filter values.
- JsStrings.ToLower: lower-cases ASCII letters only, for the same reason.
- Object-literal lookups (`statusMap[x]`, `reportTopicLabels[x]`, the colour tables) are modelled
  on their own keys only. A key such as "constructor", inherited from the object prototype, is
  not modelled.
- Numbers are integers. `NaN`, fractions and the `|| 0` of a `NaN` amount are not modelled.
- Date formatting (`toLocaleDateString`) and the `createdAt` column depend on locale and the
  JavaScript Date library. They are passed through untouched.
- JSX rendering, React hook scheduling, `useMemo` caching and the empty 300 ms debounce effect
  of the user page are not modelled. Only the computations and the state updates are.
- The user table's own `localSearchTerm` and `selectedFilter` mirror state is left out. It only
  echoes the input and forwards it to the handlers that are modelled.
- `URLSearchParams` percent-encoding and serialisation to a query string are left out. The
  buffer is modelled as its ordered pairs.
- The network request itself is a parameter: each `ReadListing` takes the response, or its
  absence and an error flag. Caching and refetching belong to the RTK Query library and are
  not modelled.
- The other API slices, the settings, auth and dashboard-overview pages, and the layout
  components are not part of this model.
- The report page's `dateFilter` state is never read and is not modelled. The user page's
  `setLimit` is never called, so its `limit` stays at 10; the transaction and booking pages
  declare `perPage` without a setter.
- The booking page's status colour table and the `isLoading` skeletons are rendering only.
- BookingManagement.Duration: a missing start or end time prints "undefined". The model has one
  absent value for both `undefined` and `null`, so a `null` time, which the template literal
  prints as "null", is not told apart.
- JsStrings.InitialsAreWordStarts: the model's strings are sequences of Unicode code points,
  while JavaScript's `n[0]` takes one UTF-16 code unit. For a name part that starts outside the
  Basic Multilingual Plane (an emoji, say), the source takes half of a surrogate pair and the
  model takes the whole character.
- UserManagement.AvatarFallback: the same code-point/UTF-16 difference as the initials above.
- Report.ReporterFallback: the same code-point/UTF-16 difference as the initials above.
- Report.ReportedFallback: `charAt(0)` returns one UTF-16 code unit. The model returns the first
  code point, which differs for a name that starts outside the Basic Multilingual Plane.
