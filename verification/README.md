# b2b-organization user widget and address helpers — Dafny model

This project models the decision logic of the storefront user widget of the
b2b-organization app and the two address helpers it ships with:

- **AuthFlag** (`auth_flag.dfy`): the module-level `isAuthenticated` flag. It is seeded when
  the module loads from the stored text under `b2b-organizations_isAuthenticated`
  (`JSON.parse(String(getItem(key))) ?? false`). On each render, a present session response
  overwrites it with "the claim `namespaces.profile.isAuthenticated.value` is exactly the
  string `'true'`" and writes `JSON.stringify(flag)` back. An absent response changes nothing.
  The storage is a `map<string, string>`.
- **UserWidget** (`user_widget.dfy`): the `skip: !isAuthenticated` gate on the permissions,
  organization and cost-center lookups. Also the `handleStatusMessage` status classifier,
  the `${rootPath ?? ''}/account#/organization` navigation target, and the
  render-or-null decision. One render (`Render`) composes them in the source's order:
  observe the session, gate, decide.
- **Addresses** (`addresses.dfy`): `isValidAddress` over a map of form fields, with the
  `for ... in` enumeration order as a parameter. Also `getEmptyAddress` and the `gguid`
  counter behind `getGGUID`, with the current time as a parameter.
- **Wrappers** (`wrappers.dfy`): `Option`. `None` stands for `null`/`undefined`, which `??`,
  `?.` and truthiness treat alike. `GetOr` stands for `??`.

The data shapes come from `AddressFormFields` and `Address` in
`react/typings/global.d.ts:7-31`. The lookup payloads keep only the fields the widget reads.

`JSON.parse` at `react/components/UserWidget.tsx:52` is unguarded. For a stored text other
than the literals `true`, `false` and `null`, `AuthFlag.Seed` therefore returns `None`
("not determined") and makes no claim about that text.

## Model

| member | source | states |
|---|---|---|
| AuthFlag.Stringify | react/components/UserWidget.tsx:66-69 | The persisted text is `"true"` exactly for `true` and `"false"` exactly for `false` |
| AuthFlag.ParseLiteral | react/components/UserWidget.tsx:52 | `JSON.parse` on the literals: `"null"` gives null, and the two texts `JSON.stringify` produces for booleans give back those booleans. Every other text is left undetermined |
| AuthFlag.StoredText | react/components/UserWidget.tsx:52 | `String(getItem(key))`: a missing key reads as the text `"null"`, a present one as its stored text |
| AuthFlag.Seed | react/components/UserWidget.tsx:50-53 | A missing key seeds `false`. The seed is `true` iff the stored text is exactly `"true"`. The seed is undetermined iff a stored text other than `true`/`false`/`null` is present |
| AuthFlag.Load | react/components/UserWidget.tsx:50-53 | Module initialisation keeps the storage as it is. It sets the flag to "the stored text is `true`", and is defined exactly when the seed is determined |
| AuthFlag.ClaimsAuthenticated | react/components/UserWidget.tsx:63-64 | The claim authenticates iff every link of `namespaces.profile.isAuthenticated.value` is present and the value is the string `'true'`. A missing link or any other value gives false |
| AuthFlag.BooleanClaimIsNotAuthenticated | react/components/UserWidget.tsx:63-64 | Strict equality: a boolean `true` claim, or a response without namespaces, does not authenticate |
| AuthFlag.Observe | react/components/UserWidget.tsx:62-70 | An absent response leaves flag and storage unchanged. A present one sets the flag from the claim and writes exactly `JSON.stringify(flag)` under the key, which re-seeds to the same flag. No other storage key changes |
| AuthFlag.StringifyThenSeed | react/components/UserWidget.tsx:51-69 | Seeding from the text `JSON.stringify(b)` gives back `b` (round trip of the persisted flag) |
| AuthFlag.NothingStoredSeedsFalse | react/components/UserWidget.tsx:51-53 | With no stored key the module starts with the flag `false` (`JSON.parse("null") ?? false`) |
| AuthFlag.ObservedFlagSurvivesReload | react/components/UserWidget.tsx:51-69 | After a session observation, a fresh module load from the written storage restores exactly the observed state |
| AuthFlag.AbsentResponseKeepsFlag | react/components/UserWidget.tsx:62-70 | A render without a session response never downgrades a cached `true` and performs no storage write |
| AuthFlag.ObserveIdempotent | react/components/UserWidget.tsx:62-70 | Observing the same response twice equals observing it once |
| UserWidget.Skip | react/components/UserWidget.tsx:72-85 | The lookups are skipped exactly when the flag is false |
| UserWidget.IssuedQueries | react/components/UserWidget.tsx:72-85 | No lookup is issued iff skipped; otherwise all three are issued |
| UserWidget.Lookup | react/components/UserWidget.tsx:72-85 | A lookup has data iff it is not skipped and the transport delivered data, and then it is that data |
| UserWidget.ClassifyStatus | react/components/UserWidget.tsx:87-113 | Total classifier: a tag iff the status is `active`/`on-hold`/`inactive`. Success iff `active`, warning iff `on-hold`, error iff `inactive`. The message id is the `user-widget.status.` prefix followed by the status. Anything else gives no tag |
| UserWidget.ClassifyStatusInjective | react/components/UserWidget.tsx:30-38 | Distinct recognised statuses carry distinct tags (their message ids identify them) |
| UserWidget.NavTarget | react/components/UserWidget.tsx:157 | The target is the root path (empty when absent) followed by `/account#/organization` |
| UserWidget.NavTargetDeterminesRoot | react/components/UserWidget.tsx:157 | The target determines the root path it was built from, and an absent root path gives the same target as the empty one |
| UserWidget.NavTargetExamples | react/components/UserWidget.tsx:157 | `/store` gives `/store/account#/organization`; no root path gives `/account#/organization` |
| Wrappers.Option.GetOr | react/components/UserWidget.tsx:134 | `x ?? d`: the value when present, the default when null or undefined |
| UserWidget.OrganizationStatus | react/components/UserWidget.tsx:134 | `?.status ?? ''`: the empty string when the organization or its status is absent, the status otherwise |
| UserWidget.OrganizationName | react/components/UserWidget.tsx:131 | The optional chain to the organization name: present iff the organization and its name are present, and then that name |
| UserWidget.CostCenterName | react/components/UserWidget.tsx:141 | The optional chain to the cost-center name: present iff the cost center and its name are present, and then that name |
| UserWidget.RoleName | react/components/UserWidget.tsx:148 | The optional chain to the role name: present iff the permission, its role and the role name are present, and then that name |
| UserWidget.Decide | react/components/UserWidget.tsx:115-165 | Shown iff the flag is true and all three lookups have data. When shown, the widget carries the classified status (`?? ''`), the three names read from the data, and the navigation target |
| UserWidget.HiddenIffRequirementMissing | react/components/UserWidget.tsx:115-135 | Against an independent list of missing requirements: the widget is hidden iff some requirement is missing. When it shows, the status tag appears iff the organization has a recognised status |
| UserWidget.OnlyCompleteCombinationRenders | react/components/UserWidget.tsx:115-121 | Of the 16 combinations of flag and the three results' presence, only all-present-with-flag-true renders |
| UserWidget.UnauthenticatedIsHidden | react/components/UserWidget.tsx:115-121 | A false flag hides the widget whatever the lookups hold |
| UserWidget.MissingStatusShowsNoTag | react/components/UserWidget.tsx:133-135 | An organization without a status is coerced to `''`: the widget is still shown, with no tag |
| UserWidget.Render | react/components/UserWidget.tsx:60-121 | One render: the state is the observed one. Lookups are issued (all three) iff the updated flag is true. The widget shows iff the updated flag is true and all three deliveries are present. The output is the render decision over the delivered data, so gating changes nothing shown beyond the flag |
| UserWidget.GateUsesUpdatedFlag | react/components/UserWidget.tsx:62-85 | The flag is updated before the gate in the same render. An authenticating response issues all three lookups even over a cached `false`. A non-authenticating one issues none and hides the widget |
| UserWidget.AbsentResponseUsesCachedFlag | react/components/UserWidget.tsx:60-85 | Without a session response the state is untouched, and the gate follows the cached flag |
| UserWidget.ScenarioActiveOrganization | react/components/UserWidget.tsx:87-165 | Buyer / Acme (active) / HQ under `/store` renders the success tag and `/store/account#/organization` |
| UserWidget.ScenarioUnknownStatus | react/components/UserWidget.tsx:110-135 | An unrecognised organization status renders the widget without a tag |
| UserWidget.ScenarioCostCenterLoading | react/components/UserWidget.tsx:115-121 | A cost center still loading hides the widget |
| Addresses.MarkedInvalid | react/utils/addresses.ts:30 | A field is marked invalid iff its `valid` is present and false. An absent or `true` `valid` never marks it |
| Addresses.ScanForInvalid | react/utils/addresses.ts:27-33 | The loop only ever raises the flag. It ends raised iff it started raised or some visited field has `valid === false` |
| Addresses.IsValidAddress | react/utils/addresses.ts:26-36 | For any enumeration of the fields, the address is valid iff no field has `valid == false` |
| Addresses.ValidityIgnoresOrder | react/utils/addresses.ts:29-33 | The verdict does not depend on field iteration order |
| Addresses.EmptyFormIsValid | react/utils/addresses.ts:26-36 | The empty field map is valid |
| Addresses.InvalidFieldInvalidates | react/utils/addresses.ts:29-35 | Adding a field with `valid == false` makes any address invalid |
| Addresses.UnmarkedFieldIsNeutral | react/utils/addresses.ts:30 | A field whose `valid` is absent or true does not change the verdict: with it and without it agree |
| Addresses.RemovingFieldsKeepsValid | react/utils/addresses.ts:26-36 | Removing fields never turns a valid address invalid |
| Addresses.NextId | react/utils/addresses.ts:1-5 | Each `getGGUID` call uses the counter's current value and advances the counter by exactly one |
| Addresses.FirstAddressTakesSerialOne | react/utils/addresses.ts:1-9 | With the counter as the module loads it (`gguid = 1`), the first blank address takes serial 1 and leaves the counter at 2 |
| Addresses.GetEmptyAddress | react/utils/addresses.ts:7-24 | The address has the given country, type `commercial`, an empty receiver name and no coordinates; every other listed field is null. It takes the next id and advances the counter by one |
| Addresses.EmptyAddresses | react/utils/addresses.ts:1-24 | Successive calls produce blank addresses whose serials are consecutive from the starting counter, ending with the counter advanced by the number of calls |
| Addresses.SuccessiveIdsDistinct | react/utils/addresses.ts:1-24 | Addresses made one after another carry pairwise distinct (serial, time) pairs |

## Left out

- React rendering, JSX markup, CSS handles and the styleguide `Tag`/`Button` components. The output is the `RenderResult` datatype, and a status tag is a kind plus a message id.
- `useIntl`/`formatMessage`: message ids are kept as opaque strings, never localized text. The labels printed before each name are not modelled.
- The Apollo `useQuery` transport, GraphQL documents and `ssr` options. Each lookup is the `Option` the transport would deliver if issued. In-flight and failed lookups are both `None`, as the widget does not tell them apart.
- `useSessionResponse` internals. The session response is a parameter holding only the queried claim path.
- `localStorage` and `storageFactory` (`../utils/storage`), which are not part of this model. Storage is a map, and a failing or unavailable storage is not modelled.
- AuthFlag.Seed: gives no value for a stored text other than `true`, `false` or `null`, such as one with surrounding whitespace, a number or malformed JSON. `JSON.parse` may turn such a text into a boolean, into a non-boolean whose truthiness would then gate the widget, or into an exception.
- UserWidget.Decide: an absent name is kept as `None`. The template literal would print the text `undefined` or `null` for it.
- The JavaScript numbers in the session claim, in form field values and in `geoCoordinates` are modelled as `int`. Floating point is not modelled.
- Addresses.NextId: keeps the counter and the time as an opaque pair. The id string `(gguid * time * -1).toString()` is time-dependent arithmetic and is not modelled. Distinctness is therefore stated for the (counter, time) pair.
- Addresses.SuccessiveIdsDistinct: states distinct (serial, time) pairs only. The source's id text `-(serial * time)` is distinct only under a clock that never goes back: serial 1 at 2000 ms and serial 2 at 1000 ms both give `"-2000"`.
- The `for ... in` loop's enumeration order is a parameter. JavaScript's own key ordering rules are not modelled, and the verdict is proved independent of the order.
- The remaining declarations of `react/typings/global.d.ts` have no behaviour.
