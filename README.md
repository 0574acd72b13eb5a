# Shopme admin portal: the admin home page's user lists

This project models the admin home page of the Shopme admin portal
(`AdminPortal` in `admin_portal/src/app/admin/Shopme1235-1235/page.tsx`) and
proves properties of it. The page loads all consumers and then all resellers
from the backend. It keeps one search term per list and filters each list
case-insensitively by substring. While loading it shows a spinner. After that
it shows two `UserList` columns. Each column shows either a "No ... found"
sentence or one row per user, and each row links to that user's detail page.

Modules:

- `JsString` (`js_string.dfy`): the JavaScript string operations the filter
  uses. `toLowerCase` is modelled on ASCII letters only. `includes` is a
  left-to-right search, proved equal to a reference definition: "there is an
  offset where the needle occurs".
- `JsArray` (`js_array.dfy`): `Array.prototype.filter` as a recursive
  function. It is proved to keep order, to neither add nor alter elements,
  and to keep each passing element exactly as often as it occurs.
- `AdminHome` (`admin_home.dfy`): the consumer and reseller records, the two
  search filters, the `UserList` view and the whole page's view. It also
  holds the class `AdminPortal`, whose fields are the component's state
  hooks. `FetchData` is the loading sequence, and the search setters model
  typing into the search boxes.

Each network request is an input to `FetchData`. It either delivers decoded
data (`Fetched`) or throws (`FetchFailed`). The `fetch` call, `.json()` and
the backend URLs are not modelled.

Three consequences of the code that the model states outright:

- The `finally` block always clears `isLoading`. A failed request therefore
  never leaves the page spinning.
- A failure is not all-or-nothing. If the consumers arrive and the resellers
  request throws, the consumers are kept and the resellers keep their earlier
  value.
- The empty-list sentence lower-cases the title: "No consumers found",
  "No resellers found".

## Model

| member | source | states |
|---|---|---|
| JsString.LowerChar | admin_portal/src/app/admin/Shopme1235-1235/page.tsx:48-49 | the result is never an upper-case ASCII letter; non-upper-case characters are kept; 'A'..'Z' map to the letter at the same position in 'a'..'z' |
| JsString.LowerStr | admin_portal/src/app/admin/Shopme1235-1235/page.tsx:48-49 | `toLowerCase` keeps the length, lower-cases each character in place, and leaves no upper-case ASCII letter |
| JsString.LowerCharAlikeIff | admin_portal/src/app/admin/Shopme1235-1235/page.tsx:48-49 | two characters lower-case to the same character exactly when they are equal or are the two cases of one ASCII letter |
| JsString.SameUpToCaseIff | admin_portal/src/app/admin/Shopme1235-1235/page.tsx:48-49 | two strings lower-case to the same string exactly when, position by position, their characters are equal or are the two cases of one ASCII letter |
| JsString.Includes | admin_portal/src/app/admin/Shopme1235-1235/page.tsx:48-49 | `includes` answers false when the needle is longer than the haystack and true when the needle is a prefix (so always for the empty needle) |
| JsString.OccursInTail | admin_portal/src/app/admin/Shopme1235-1235/page.tsx:48-49 | an occurrence at offset k of the haystack without its first character is exactly an occurrence at offset k + 1 of the whole haystack |
| JsString.IncludesIffOccurs | admin_portal/src/app/admin/Shopme1235-1235/page.tsx:48-49 | `includes` is true exactly when the needle occurs at some offset of the haystack |
| JsString.MissingFirstCharNotIncluded | admin_portal/src/app/admin/Shopme1235-1235/page.tsx:48-49 | a needle whose first character is absent from the haystack is never included |
| JsArray.Filter | admin_portal/src/app/admin/Shopme1235-1235/page.tsx:47-55 | `filter` returns at most as many elements as it is given; every element it returns is from the input and passes the predicate; every input element that passes appears in the result |
| JsArray.FilterIsSubsequence | admin_portal/src/app/admin/Shopme1235-1235/page.tsx:47-55 | the filtered array is obtained from the input by deleting elements, in the same order |
| JsArray.SubsequenceMultiset | admin_portal/src/app/admin/Shopme1235-1235/page.tsx:47-55 | a subsequence holds no element more often than the original does |
| JsArray.FilterMultiplicity | admin_portal/src/app/admin/Shopme1235-1235/page.tsx:47-55 | a passing value is kept exactly as often as it occurs in the input; a failing value does not occur in the result |
| JsArray.FilterKeepsAll | admin_portal/src/app/admin/Shopme1235-1235/page.tsx:47-55 | if every element passes, filtering returns the input unchanged |
| JsArray.FilterCongruent | admin_portal/src/app/admin/Shopme1235-1235/page.tsx:47-55 | two predicates that agree on every element give the same filtered array |
| JsArray.FilterRelated | admin_portal/src/app/admin/Shopme1235-1235/page.tsx:52-55 | filtering two pairwise-related arrays, with a predicate that answers alike on each pair, gives two pairwise-related arrays of equal length |
| AdminHome.FilterConsumers | admin_portal/src/app/admin/Shopme1235-1235/page.tsx:47-50 | `filteredConsumers` is no longer than `consumers`; it holds exactly the consumers whose lower-cased name or e-mail includes the lower-cased search term |
| AdminHome.FilterResellers | admin_portal/src/app/admin/Shopme1235-1235/page.tsx:52-55 | `filteredResellers` is no longer than `resellers`; it holds exactly the resellers whose lower-cased business name or e-mail includes the lower-cased search term |
| AdminHome.ConsumerMatchesIff | admin_portal/src/app/admin/Shopme1235-1235/page.tsx:47-50 | a consumer passes exactly when the lower-cased term occurs at some offset of its lower-cased name or of its lower-cased e-mail |
| AdminHome.ResellerMatchesIff | admin_portal/src/app/admin/Shopme1235-1235/page.tsx:52-55 | a reseller passes exactly when the lower-cased term occurs at some offset of its lower-cased business name or of its lower-cased e-mail |
| AdminHome.FiltersAreSubsequences | admin_portal/src/app/admin/Shopme1235-1235/page.tsx:47-55 | both filtered lists are order-preserving subsequences of their inputs, so no record is added, repeated or altered |
| AdminHome.FilterConsumersMultiplicity | admin_portal/src/app/admin/Shopme1235-1235/page.tsx:47-50 | a matching consumer appears in the filtered list as often as in `consumers`; a non-matching one does not appear |
| AdminHome.FilterResellersMultiplicity | admin_portal/src/app/admin/Shopme1235-1235/page.tsx:52-55 | a matching reseller appears in the filtered list as often as in `resellers`; a non-matching one does not appear |
| AdminHome.EmptySearchKeepsAll | admin_portal/src/app/admin/Shopme1235-1235/page.tsx:22-55 | with the initial empty search terms both filtered lists equal the full lists |
| AdminHome.SearchIgnoresCase | admin_portal/src/app/admin/Shopme1235-1235/page.tsx:47-55 | search terms that differ only in letter case give the same filtered lists |
| AdminHome.FilterResellersIgnoresOwner | admin_portal/src/app/admin/Shopme1235-1235/page.tsx:52-55 | `ownerName` never affects the reseller filter: lists that differ only in owner names filter to lists that differ only in owner names |
| AdminHome.UserList | admin_portal/src/app/admin/Shopme1235-1235/page.tsx:100-138 | the placeholder "No {lower-cased title} found" appears exactly when the list is empty; otherwise there is one row per user in order, linking to `linkPrefix + _id`, captioned with `name` for a consumer and `businessName` for a reseller, and showing the e-mail |
| AdminHome.DistinctIdsGiveDistinctLinks | admin_portal/src/app/admin/Shopme1235-1235/page.tsx:121-123 | users with different `_id`s get different link targets |
| AdminHome.RenderPage | admin_portal/src/app/admin/Shopme1235-1235/page.tsx:57-89 | the spinner is shown exactly while `isLoading` holds |
| AdminHome.TitlesLowerCased | admin_portal/src/app/admin/Shopme1235-1235/page.tsx:68-82 | the titles "Consumers" and "Resellers" lower-case to "consumers" and "resellers" |
| AdminHome.ConsumerColumn | admin_portal/src/app/admin/Shopme1235-1235/page.tsx:62-75 | once loaded, the consumer column reads "No consumers found" exactly when the filter keeps nobody; otherwise it has one row per kept consumer, in order, linking to `/admin/consumer/{_id}` and captioned with the name |
| AdminHome.ResellerColumn | admin_portal/src/app/admin/Shopme1235-1235/page.tsx:76-83 | once loaded, the reseller column reads "No resellers found" exactly when the filter keeps nobody; otherwise it has one row per kept reseller, in order, linking to `/admin/reseller/{_id}` and captioned with the business name |
| AdminHome.LoadedPageListsEveryone | admin_portal/src/app/admin/Shopme1235-1235/page.tsx:22-83 | once loaded with empty search terms, every record is listed in order with its detail link; the placeholder appears only for an empty list |
| AdminHome.AliceMatches | admin_portal/src/app/admin/Shopme1235-1235/page.tsx:47-50 | consumer Alice (a@x.com) matches the search "ali" and does not match "zzz" |
| AdminHome.AliceSearchScenario | admin_portal/src/app/admin/Shopme1235-1235/page.tsx:47-123 | with only Alice loaded, "ali" lists her with the link `/admin/consumer/1`; "zzz" shows "No consumers found" |
| AdminHome.AdminPortal.constructor | admin_portal/src/app/admin/Shopme1235-1235/page.tsx:20-24 | the initial state has empty lists, empty search terms, and `isLoading` true |
| AdminHome.AdminPortal.FetchData | admin_portal/src/app/admin/Shopme1235-1235/page.tsx:27-42 | afterwards `isLoading` is false and the page shows lists for every pair of outcomes; the resellers are requested only if the consumers arrived; a failed consumers fetch leaves both lists as they were; if only the resellers fail, `consumers` holds the fetched data and `resellers` is unchanged; search terms are untouched |
| AdminHome.AdminPortal.SetConsumerSearch | admin_portal/src/app/admin/Shopme1235-1235/page.tsx:107-113 | typing sets the consumer search term and changes nothing else |
| AdminHome.AdminPortal.SetResellerSearch | admin_portal/src/app/admin/Shopme1235-1235/page.tsx:107-113 | typing sets the reseller search term and changes nothing else |

## Left out

- Network I/O: the two `fetch` calls, `.json()` decoding and the backend URLs. Each request is reduced to its outcome, `Fetched(data)` or `FetchFailed`, given as an input. A non-2xx response whose body still decodes counts as `Fetched`.
- The decoded body is assumed to be an array of records of the declared shape. A body of another shape, which would make `filter` throw during rendering, is not modelled.
- React scheduling: `useState`/`useEffect`, when re-renders happen, and the renders between the awaits. `FetchData` is one atomic step, so only its final state is described. While it runs, the spinner is visible.
- `console.error` diagnostics, JSX markup, CSS classes, icons and `Link` navigation.
- The search box's hint text (`Search {lower-cased title}...`) and the echo of the typed term into the input are presentation only.
- `toLowerCase` beyond ASCII: full Unicode case mapping depends on the JavaScript runtime. `LowerStr` lower-cases 'A'..'Z' and keeps every other character.
- String representation: Dafny strings are sequences of Unicode scalar values, while JavaScript strings are sequences of UTF-16 code units. For well-formed text the substring matches are the same, because UTF-16 matches line up with character boundaries. A string holding a lone surrogate (for example as the search term) cannot be represented in the model.
- `'name' in user` is modelled as "the user is a consumer", following the declared record types. A reseller record that carried an extra `name` field would be captioned with that field in the source.
- `admin_portal/src/app/page.tsx`, the root page (`/`), is not part of this model. It repeats the same two requests without a loading flag or search.
- The consumer and reseller detail pages (`admin/consumer/[id]`, `admin/reseller/[id]`) are not part of this model.
