# next-admin: pagination, props resolution and view selection

A Dafny model of three pieces of decision logic in the `next-admin` package:

- **Pagination** (`pagination.dfy`): the window of page buttons
  (`getShownPagesPagination`, with `MAX_SHOWN_PAGES = 5`). It also covers when
  Previous and Next are enabled and which page index every button asks for.
- **Props** (`props.dfy`): `getPropsFromParams` in `props.ts`. It turns the
  optional route segments and the query parameters into the props of the
  admin page: the defaults (dashboard), a list payload, or a form payload for
  an existing or a new record. It also builds the Prisma `select` object
  used to fetch the record being edited.
- **NextAdmin** (`next_admin.dfy`): the admin component. It holds the guard on
  the `options` prop, the derived `actions`, model schema, title, icon and
  custom inputs, and the choice in `renderMainComponent` between list, form,
  a dashboard, or nothing.

`wrappers.dfy` holds `Option`/`Result`. `types.dfy` holds the admin options,
the query parameters and the JavaScript truthiness rules the code relies on
(`Present`, `Truthy`): an empty string is falsy and an array is always truthy.
`??` replaces only `undefined` and `null`, never another falsy value such as
`""`. No `null` can reach the places the model uses it, so
`NextAdmin.ResourceTitle` and `Props.EditSelection` test only for absence.

Collaborators whose code is not part of this model are uninterpreted. They
are function-valued fields of `Props.Server` and `NextAdmin.Helpers`:
`getResources`, `JSON.parse`, `getResourceFromParams`,
`getResourceIdFromParam`, `getPrismaModelForResource`,
`fillRelationInSchema`, `getMappedDataList`, `findUniqueOrThrow`,
`transformData`, `transformSchema`, `getSchemaForResource` and
`getCustomInputs`. The exceptions that escape become `Err` of a `Result`:
the missing action under the App router (props.ts line 62) is
`Err(ActionRequired)`, the missing record (props.ts line 140, `None` from
`findUniqueOrThrow`) is `Err(RecordNotFound)`, and the missing `options`
under the Pages router (NextAdmin.tsx line 42) is `Err(OptionsRequired)`.
The exception `JSON.parse` may throw is caught in the code itself; it is
`None` from `parseJson` and leaves `message` undefined. Schemas, records and
parsed messages are opaque JSON values (`Types.Json`).

Details of the code the model keeps:
- The bound action is created whenever an `action` is supplied. Nothing else
  is checked.
- A message that fails to parse leaves `message` as `undefined`. An absent
  message gives `null`. These two are different values.
- The list route replaces the `error` query parameter with the list fetch's
  error, even when the fetch reports none.
- Only a missing `params` returns the defaults at once. An empty segment array
  still goes through resource lookup, and then falls back to the defaults.
- When a resource is absent, `resourcesTitles[resource!]` looks up the key
  `"undefined"`.

## Model

| member | source | states |
|---|---|---|
| `Pagination.ShownPages` | packages/next-admin/src/components/Pagination.tsx:14-55 | with at most `maxShown` pages the bar has no separator; with more it has 5 to 7 buttons, at least one separator, and starts with page 1 and ends with the last page (ordering, separators and exact lengths: `WindowOrdered`, `WindowSeparators`, `WindowLength`) |
| `Pagination.AllPages` | packages/next-admin/src/components/Pagination.tsx:22-24 | `Array.from` of length n gives exactly the pages 1..n in order, and none for n <= 0 |
| `Pagination.FewPagesAllShown` | packages/next-admin/src/components/Pagination.tsx:22-24 | with at most `maxShown` pages, the bar is exactly 1..total in order with no separator |
| `Pagination.WindowOrdered` | packages/next-admin/src/components/Pagination.tsx:20-53 | for a valid index: the bar starts with page 1, ends with the last page, and shows the current page; its page numbers strictly increase (no duplicates) and all lie in 1..total |
| `Pagination.WindowSeparators` | packages/next-admin/src/components/Pagination.tsx:27-53 | for a valid index, every separator sits between two page buttons, and neighbouring page buttons without a separator are consecutive pages |
| `Pagination.WindowWellFormed` | packages/next-admin/src/components/Pagination.tsx:20-53 | the two lemmas above together, for every valid index |
| `Pagination.EdgeWindowLength` | packages/next-admin/src/components/Pagination.tsx:27-41 | with more pages than `maxShown` and the current page within two of either end, the bar has 5 buttons, exactly one of them a separator |
| `Pagination.MiddleWindowLength` | packages/next-admin/src/components/Pagination.tsx:42-52 | with more pages than `maxShown` and the current page away from both ends, the bar has 7 buttons, exactly two of them separators |
| `Pagination.WindowLength` | packages/next-admin/src/components/Pagination.tsx:22-53 | length is total when there are few pages, 5 with one separator near either end, and 7 with two separators otherwise; never more than 7 for `MAX_SHOWN_PAGES` |
| `Pagination.PreviousNextEnabled` | packages/next-admin/src/components/Pagination.tsx:67-73 | `getCanPreviousPage` / `getCanNextPage` (`CanPreviousPage`, `CanNextPage`): on a valid index Previous is enabled except on the first page and Next except on the last; one page enables neither, two or more enable at least one |
| `Pagination.PreviousClick` | packages/next-admin/src/components/Pagination.tsx:71-73 | Previous is enabled iff index > 0, and then asks for an index below the current one (index - 1) |
| `Pagination.NextClick` | packages/next-admin/src/components/Pagination.tsx:67-69 | Next is enabled iff index < total - 1, and then asks for a valid index above the current one (index + 1) |
| `Pagination.PageClick` | packages/next-admin/src/components/Pagination.tsx:100-103 | a page button n asks for index n - 1; the separator asks for nothing |
| `Pagination.NextPreviousRoundTrip` | packages/next-admin/src/components/Pagination.tsx:82-84 | Previous undoes Next and Next undoes Previous, whenever the first button is enabled |
| `Pagination.PageClickLandsOnShownPage` | packages/next-admin/src/components/Pagination.tsx:91-103 | clicking any page button asks for a valid index, and the bar for that index shows the clicked page as current |
| `Pagination.CurrentPageHighlightedOnce` | packages/next-admin/src/components/Pagination.tsx:104-108 | exactly one button carries the current page and is highlighted |
| `Pagination.EmptySeparatorAsWritten` | packages/next-admin/src/components/Pagination.tsx:42-52 | for 10 pages at index 2 the bar is 1 … 2 3 4 … 10, and its first separator hides no page |
| `Pagination.CompactShownPages` | packages/next-admin/src/components/Pagination.tsx:14-55 | the corrected bar is never longer than the original and equals it except in the middle case (its properties: `CompactWindowOrdered`, `CompactWindowSeparators`) |
| `Pagination.CompactMiddle` | packages/next-admin/src/components/Pagination.tsx:42-52 | the corrected middle case has 5 to 7 buttons from page 1 to the last page, and contains a separator iff pages are hidden on some side of the three central pages |
| `Pagination.CompactMiddleOrdered` | packages/next-admin/src/components/Pagination.tsx:42-52 | the corrected middle case shows page 1, the last page and the current page, with page numbers strictly increasing within 1..total |
| `Pagination.CompactMiddleGaps` | packages/next-admin/src/components/Pagination.tsx:42-52 | the corrected middle case has 5 to 7 buttons, and neighbouring page buttons without a separator are consecutive pages |
| `Pagination.CompactMiddleSeparatorsPlaced` | packages/next-admin/src/components/Pagination.tsx:42-52 | in the corrected middle case every separator stands between two page buttons |
| `Pagination.CompactMiddleSeparatorsHide` | packages/next-admin/src/components/Pagination.tsx:42-52 | in the corrected middle case every separator hides at least one page |
| `Pagination.CompactWindowOrdered` | packages/next-admin/src/components/Pagination.tsx:14-55 | the corrected bar starts at page 1, ends at the last page, shows the current page, has increasing page numbers in range, leaves no gap without a separator, and is never longer than the original |
| `Pagination.CompactWindowSeparators` | packages/next-admin/src/components/Pagination.tsx:14-55 | in the corrected bar every separator stands between two page buttons and hides at least one page |
| `Pagination.CompactWindowWellFormed` | packages/next-admin/src/components/Pagination.tsx:14-55 | the two lemmas above together: the corrected bar keeps every property of `WindowWellFormed`, is never longer than the original, and each separator hides at least one page |
| `Props.ParseMessage` | packages/next-admin/src/utils/props.ts:53-59 | `NullMessage` (the `: null` branch) iff the parameter is absent or falsy; `undefined` iff parsing fails (no error is raised); otherwise the value `JSON.parse` returns, which may itself be JSON `null` |
| `Props.EditOf` | packages/next-admin/src/utils/props.ts:123-125 | `options.model[resource].edit` for a configured resource, and none for an unconfigured one |
| `Props.DefaultProps` | packages/next-admin/src/utils/props.ts:65-74 | the defaults carry the resources, base path and router flag; a bound action iff an action is given, bound to the schema and segments; the parsed message; the `error` query parameter, or no error without one; and no payload |
| `Props.BuildSelect` | packages/next-admin/src/utils/props.ts:114-121 | the `reduce` from `{ id: true }` yields a map whose keys are exactly `id` plus the given names, all set to true |
| `Props.EditSelection` | packages/next-admin/src/utils/props.ts:130-138 | the selection always holds `id`; with `edit.display` it is exactly {id} ∪ display, replacing the model fields; otherwise it is {id} ∪ model fields; it is absent only when both are missing |
| `Props.GetPropsFromParams` | packages/next-admin/src/utils/props.ts:38-166 | throws "action required" iff App router without action; throws "not found" only on a two-segment route with a record id; every other result keeps `resources`, `basePath`, `isAppDir`, the bound action and `message` of the defaults, and has an action iff one was given |
| `Props.DefaultsExactlyWhenUnrouted` | packages/next-admin/src/utils/props.ts:76-164 | the result is exactly `defaultProps` when params are missing, the resource is unresolved, the segment count is neither 1 nor 2, or two segments have neither a record id nor "new"; a defaults payload occurs only in those cases |
| `Props.ListRoute` | packages/next-admin/src/utils/props.ts:82-108 | one segment with a known resource never throws; it gives the list payload (resource, rows, total, relation-filled schema), with the fetch error in place of the query error |
| `Props.EditRoute` | packages/next-admin/src/utils/props.ts:110-152 | with a record id, the one record is fetched with the edit selection; a missing record throws; a found one gives a form payload with the transformed record, the transformed schema and the model fields |
| `Props.NewRoute` | packages/next-admin/src/utils/props.ts:154-161 | "new" that is not a record id never throws; the whole result is the defaults with a form payload for that resource: no record, the transformed schema and the model fields |
| `NextAdmin.Actions` | packages/next-admin/src/components/NextAdmin.tsx:47-48 | an `actions` prop wins over `options.model[resource].actions`; the configured actions are used only for a present resource |
| `NextAdmin.ModelSchema` | packages/next-admin/src/components/NextAdmin.tsx:50-51 | the model schema exists only with both a resource and a schema, and then comes from `getSchemaForResource` |
| `NextAdmin.ResourceTitle` | packages/next-admin/src/components/NextAdmin.tsx:53 | a custom title is used when one is configured for the resource; otherwise the title falls back to the resource name |
| `NextAdmin.CustomInputs` | packages/next-admin/src/components/NextAdmin.tsx:75-77 | the custom inputs come from the prop under the App router and from `getCustomInputs` otherwise |
| `NextAdmin.Render` | packages/next-admin/src/components/NextAdmin.tsx:41-100 | throws iff Pages router without options. List iff array data, a resource and a total. Form iff not list and either a record, or no data with a model schema. Otherwise, with `resources`: the called dashboard function, else the dashboard node, else the default dashboard. Without `resources`: nothing. List and form get the resource, its model options, the derived actions, title and icon; the form also gets the model schema, the data and the custom inputs |
| `NextAdmin.ResourceIcon` | packages/next-admin/src/components/NextAdmin.tsx:54 | an icon exactly when one is configured under the resource's key, and then that icon |
| `NextAdmin.AbsentResourceUsesUndefinedKey` | packages/next-admin/src/components/NextAdmin.tsx:53-54 | without a resource, the title and the icon are read under the key "undefined", and the title otherwise falls back to none |
| `NextAdmin.RowsWithoutTotalNeverForm` | packages/next-admin/src/components/NextAdmin.tsx:57-74 | array data without a total gives neither list nor form |
| `NextAdmin.BlankFormNeedsResourceAndSchema` | packages/next-admin/src/components/NextAdmin.tsx:74 | a form without data is shown only with a resource, a schema and a model schema |

## Findings

| source | as written | input that shows it | evidently intended | confidence | as-written member | corrected member |
|---|---|---|---|---|---|---|
| packages/next-admin/src/components/Pagination.tsx:42-52 | the middle case always puts a separator on both sides of the three central pages | 10 pages, index 2: 1 … 2 3 4 … 10 (the same happens at index total - 3) | a separator only where pages are hidden: 1 2 3 4 … 10 | medium, not executed | `Pagination.EmptySeparatorAsWritten` | `Pagination.CompactWindowWellFormed` |

`Pagination.ShownPages` models the code as written, and every other pagination
lemma is about it. `Pagination.CompactShownPages` is the corrected bar. Both
satisfy the range condition that `PageClick` relies on.

## Left out

- `SelectWidget.tsx` is not part of this model. It is DOM focus and open/closed state kept in a form context.
- JSX markup, class names, icons, `Head`, `MainLayout` and `PageLoader` are presentation only. Props passed through to `List`, `Form` or `MainLayout` unchanged are not modelled (`dmmfSchema`, `validation`, `action`, `deleteAction`, `resourcesIdProperty`, translations).
- The internals of the collaborators are not modelled; they are uninterpreted functions. Exceptions they might throw are not modelled either, except the missing record of `findUniqueOrThrow`.
- Props.ParseMessage: a message that parses to JSON `null` is kept as `Parsed` of that value; the model does not identify it with `NullMessage`, since JSON values are opaque.
- `JSON.parse` is reduced to "succeeds with a value or fails". The `querystring`/`URLSearchParams` round trip is not modelled: the query parameters reach `getMappedDataList` unchanged.
- `createBoundServerAction` is reduced to a record of the action and the schema and segments it captures. Calling the bound action is not modelled.
- `async`/`await` and the server-action mechanism are not modelled. Nothing in this code runs concurrently.
- `dmmfSchema` is carried as the model's field names, not as full Prisma field descriptions.
- Page numbers and indexes are unbounded integers. JavaScript's floating-point numbers (`NaN`, fractions) are not modelled: the component only passes integer indexes.
- Pagination.WindowWellFormed: holds for any `maxShown` of at least 3, covering the `MAX_SHOWN_PAGES = 5` the component uses. With a smaller `maxShown` the code repeats pages (3 pages with `maxShown` 2 give 1 2 3 … 3), and no property is claimed.
- Pagination.CompactWindowWellFormed: stated for `maxShown` of at least 4. With 3, four pages give 1 2 3 … 4, which the corrected bar keeps.
