# NFT gallery web app: the logic under the UI

A Dafny model of the parts of the gallery web application that make decisions
rather than draw them:

- **NFT image URLs.** `getResizedNftImageUrlWithFallback` asks Google's image
  service for a width when the image is hosted there. Otherwise it falls back
  from `image_original_url` to `image_url`, then to `contract_image_url`, then
  to a fixed placeholder. The `NftPreview` component rewrites the `=s250` size
  suffix of the preview URL to 275. It has a shorter fallback of its own: the
  resized preview URL, then `image_url`, then the placeholder.
- **Authentication provider.** The state is `UNKNOWN`, `LOADING`, `LOGGED_OUT`
  or `LoggedIn{jwt}`. The token is persisted in local storage. There are two
  actions, `logIn` and `logOut`, and a mount step that resolves `UNKNOWN`.
  `useAuthActions` and `useAuthState` are the consumer hooks.
- **Collection create/edit form.** The button label, the 300-character
  description limit, and the click handler. The handler updates or creates
  the collection, refreshes the unassigned NFTs and moves to the next step.
  It reports failures in `generalError` and shows a loading flag meanwhile.
- **Gallery page error boundary.** It stores the thrown error. It shows the
  not-found view only for an API error with code 404.

JavaScript values are modelled explicitly:

- `null` and `undefined` are `Js.Option.None`.
- A string is truthy when it is present and non-empty (`Js.Truthy`).
- An `||` chain is checked against a reference "first truthy operand"
  (`Js.FirstTruthy`).
- An array or object that is present is truthy.
- `String.prototype.includes`, `indexOf` and `replace` with a string pattern
  are written out (`Js.Includes`, `Js.IndexOf`, `Js.ReplaceFirst`).
- Integers in template literals are written out as decimal digits
  (`Js.IntToString`). This matches JavaScript for integers of magnitude below
  10^21 only (see "## Left out").

Files:

- `js.dfy`: the JavaScript semantics.
- `nft_types.dfy`: the NFT record.
- `resize_nft_image_url.dfy` and `nft_preview.dfy`: the image URLs.
- `auth_context.dfy`: the `Auth.AuthProvider` class.
- `collection_form.dfy`: the `CollectionForm.CollectionCreateOrEditForm` class
  and the reference function `Submit` for its click.
- `error_boundary.dfy`: the `ErrorBoundary.UserGalleryPageErrorBoundary` class.

Three behaviours of the code a reader may not expect:

- `logIn` cannot fail, because its token validation is commented out.
- The error boundary renders its children for every error other than a 404
  API error. It neither rethrows nor shows a fallback.
- A click may make no create or update request at all: no id, or no NFTs or
  no layout. It still refreshes the unassigned NFTs and navigates.

Foreign code is passed in as parameters:

- `lodash.unescape` is a function parameter of the form's constructor.
- The API hooks are oracles (`CollectionForm.Oracles`). Each resolves or
  rejects.
- `formatError` is folded into the rejected value (`ErrorInstance(formatted)`).
- The gallery id from `useAuthenticatedGallery` is a constructor parameter.
- Local storage is a map.

## Model

| member | source | states |
|---|---|---|
| Js.OrChainIsFirstTruthy | src/utils/resizeNftImageUrl.ts:19 | `a \|\| b \|\| c` yields the first truthy operand; it is falsy only when no operand is truthy |
| Js.Includes | src/utils/resizeNftImageUrl.ts:15 | `includes` is true iff the pattern occurs at some index of the string |
| Js.ReplaceFirst | src/components/NftPreview/NftPreview.tsx:8 | `replace` with a string pattern returns the string unchanged when the pattern does not occur; otherwise it replaces only the first occurrence and keeps the text before and after it |
| Js.IntToStringInjective | src/utils/resizeNftImageUrl.ts:16 | the `${width}` text of two different integers differs, so the digits read back give the width |
| ResizeNftImageUrl.GetResizedNftImageUrlWithFallback | src/utils/resizeNftImageUrl.ts:5-19 | the result is never empty; a Google-hosted `image_url` gives exactly `image_url + "=s" + width`, with width 288 when none is passed; otherwise the result is the first truthy of `image_original_url`, `image_url`, `contract_image_url`, or else the placeholder |
| ResizeNftImageUrl.DefaultWidthIs288 | src/utils/resizeNftImageUrl.ts:7 | omitting the width gives the same URL as passing 288 |
| ResizeNftImageUrl.GoogleHostedIgnoresOtherFields | src/utils/resizeNftImageUrl.ts:15-17 | with a Google-hosted `image_url`, the other URL fields do not affect the result |
| ResizeNftImageUrl.GoogleHostedWidthIsDistinguishable | src/utils/resizeNftImageUrl.ts:15-16 | on a Google-hosted image, two widths give the same URL only if they are equal |
| ResizeNftImageUrl.ResultIsFirstTruthyCandidateOrFallback | src/utils/resizeNftImageUrl.ts:19 | outside Google hosting no new string is built: the result is a candidate field preceded only by falsy ones, or the placeholder when all three are falsy |
| ResizeNftImageUrl.FallbackWhenNoUsableUrl | src/utils/resizeNftImageUrl.ts:19 | when all three fields are empty or absent, the result is `https://i.ibb.co/q7DP0Dz/no-image.png` |
| NftPreview.Resize | src/components/NftPreview/NftPreview.tsx:6-9 | null exactly for an empty or absent URL, and otherwise a non-empty string; a URL without `=s250` comes back unchanged; otherwise the first `=s250` becomes `=s<width>` and the rest is kept |
| NftPreview.ResizeKeepsRest | src/components/NftPreview/NftPreview.tsx:8 | the text before the first `=s250` and everything after it, later `=s250`s included, are kept as they were |
| NftPreview.PreviewImageUrl | src/components/NftPreview/NftPreview.tsx:16-17 | the shown URL is never empty: the resized preview URL at width 275 when the preview URL is non-empty, else `image_url` when non-empty, else the placeholder |
| Auth.RunShape | src/contexts/auth/AuthContext.tsx:58-95 | in every run `UNKNOWN` is only the first state and `LOADING` only the second; every later state is logged in or logged out |
| Auth.UseAuthActions | src/contexts/auth/AuthContext.tsx:44-50 | the hook throws "Attempted to use AuthActionsContext without a provider!" exactly when no provider value is present |
| Auth.ActionsAvailableIffResolved | src/contexts/auth/AuthContext.tsx:97-113 | a descendant obtains the actions exactly when the provider's state is neither `UNKNOWN` nor `LOADING` |
| Auth.UseAuthStateAsWrittenNeverThrows | src/contexts/auth/AuthContext.tsx:27-35 | as written, `useAuthState` never throws; without a provider it returns `UNKNOWN` |
| Auth.UseAuthState | src/contexts/auth/AuthContext.tsx:29-35 | corrected hook: throws exactly when no provider is present, and otherwise returns the provided state |
| Auth.AuthProvider.constructor | src/contexts/auth/AuthContext.tsx:54-56 | the provider starts in `UNKNOWN`; its token is the stored `jwt`, or `""` when none is stored |
| Auth.AuthProvider.LogOut | src/contexts/auth/AuthContext.tsx:58-62 | from any resolved or loading state: `LOGGED_OUT` with the children rendered, an empty token, and local storage cleared of every key except the rewritten empty `jwt` |
| Auth.AuthProvider.LogIn | src/contexts/auth/AuthContext.tsx:64-76 | `LoggedIn{jwt}` with the children rendered and `jwt` persisted; the rest of storage is unchanged |
| Auth.AuthProvider.Mount | src/contexts/auth/AuthContext.tsx:78-95 | does nothing unless the state is `UNKNOWN`, in `LOADING` too; from `UNKNOWN` it passes through `LOADING` and ends in `LoggedIn{token}` for a non-empty token, else in `LOGGED_OUT`, so the children are then rendered; every transition so far is a legal step |
| Auth.AuthProvider.RendersChildren | src/contexts/auth/AuthContext.tsx:102-113 | the children are rendered exactly once the provider's run has gone past its first two states, `UNKNOWN` and `LOADING` |
| CollectionForm.ButtonText | src/flows/shared/steps/OrganizeCollection/CollectionCreateOrEditForm.tsx:60-69 | the label is `create` iff `nftIds` is present (even if empty); otherwise it is `save` iff the title or description is non-empty, else `skip` |
| CollectionForm.DescriptionLimitIsInclusive | src/flows/shared/steps/OrganizeCollection/CollectionCreateOrEditForm.tsx:87-90 | a 300-character description is accepted and a 301-character one is refused |
| CollectionForm.SubmitRequestsOneKind | src/flows/shared/steps/OrganizeCollection/CollectionCreateOrEditForm.tsx:94-106 | update is requested iff `collectionId` is truthy; create iff it is falsy and both `nftIds` and `layout` are given; never both |
| CollectionForm.SubmitRequestArguments | src/flows/shared/steps/OrganizeCollection/CollectionCreateOrEditForm.tsx:95-105 | the update request carries the id, title and description; the create request carries the gallery id, title, description, NFT ids and layout |
| CollectionForm.SubmitNavigatesOnlyOnSuccess | src/flows/shared/steps/OrganizeCollection/CollectionCreateOrEditForm.tsx:108-116 | navigation happens iff nothing was thrown; on success the last calls are refresh, `onNext`, `hideModal`, and only update or create calls come before them |
| CollectionForm.SubmitFailsIffCalledHookRejects | src/flows/shared/steps/OrganizeCollection/CollectionCreateOrEditForm.tsx:93-116 | the try block throws exactly when one of the hooks it called rejected |
| CollectionForm.CollectionCreateOrEditForm.constructor | src/flows/shared/steps/OrganizeCollection/CollectionCreateOrEditForm.tsx:43-50 | the initial title and description are the unescaped props, or `""` when absent; there is no error, no loading and no call yet |
| CollectionForm.CollectionCreateOrEditForm.ChangeTitle | src/flows/shared/steps/OrganizeCollection/CollectionCreateOrEditForm.tsx:52-54 | the title becomes the typed value |
| CollectionForm.CollectionCreateOrEditForm.ChangeDescription | src/flows/shared/steps/OrganizeCollection/CollectionCreateOrEditForm.tsx:56-58 | the description becomes the typed value |
| CollectionForm.CollectionCreateOrEditForm.HandleClick | src/flows/shared/steps/OrganizeCollection/CollectionCreateOrEditForm.tsx:84-118 | `generalError` is reset on every click. A description over 300 characters makes no call and leaves `isLoading` as it was. Otherwise the calls are exactly those of `Submit`, the error is the formatted message of a thrown `Error` (else `""`), and `isLoading` ends false |
| ErrorBoundary.GetDerivedStateFromError | src/scenes/UserGalleryPage/UserGalleryPageErrorBoundary.tsx:6-8 | the derived state stores exactly the thrown value |
| ErrorBoundary.RenderView | src/scenes/UserGalleryPage/UserGalleryPageErrorBoundary.tsx:12-18 | the not-found view is shown iff the stored error is an `ApiError` with code 404; in every other case the children are shown |
| ErrorBoundary.OtherErrorsRenderChildren | src/scenes/UserGalleryPage/UserGalleryPageErrorBoundary.tsx:13-17 | an `ApiError` with any other code, or a plain `Error`, renders the children |
| ErrorBoundary.UserGalleryPageErrorBoundary.constructor | src/scenes/UserGalleryPage/UserGalleryPageErrorBoundary.tsx:10 | the boundary starts with a null error and renders its children |
| ErrorBoundary.UserGalleryPageErrorBoundary.CatchError | src/scenes/UserGalleryPage/UserGalleryPageErrorBoundary.tsx:6-8 | after a catch the state holds the thrown error, and the not-found view shows iff it is an `ApiError` with code 404 |

## Left out

- JSX and styled-components layout in every file: presentation only.
- `Auth.AuthProvider.LogOut`: requires the state to have left `UNKNOWN`. Before the mount step resolves, the provider renders nothing, so no component holds the actions, and the mount step calls `logOut` only after setting `LOADING`.
- `Auth.AuthProvider.LogIn`: the same requirement as `LogOut`, for the same reason. Its `catch` branch (AuthContext.tsx lines 70-73) is not modelled: token validation is commented out, so nothing in the `try` can throw.
- `usePersistedState` is not part of this model. The persisted token is written through to local storage under `jwt`, and it reads back as the stored value or `""`. Its string encoding is not modelled. So `logOut` leaves `jwt` holding `""` after clearing the storage.
- `Web3WalletProvider`, `Mixpanel.track` (a no-op here), `formatError` and the API hooks are foreign code: they are oracles or parameters.
- Asynchronous scheduling and React's batching of state updates: each handler is one sequential run. `isLoading` being true while the requests are awaited is not recorded; only its value after the click is.
- Description length is counted in Unicode characters, not UTF-16 code units.
- `NftPreview.Resize` and `ResizeNftImageUrl.GetResizedNftImageUrlWithFallback` take integer widths: non-integer widths are not modelled.
- `Js.IntToString` prints every digit. JavaScript prints an integer of magnitude 10^21 or more in exponent form (`${1e21}` is `"1e+21"`). Integers above 2^53 are not exactly representable as JavaScript numbers. So for such widths the Google branch of `ResizeNftImageUrl.GetResizedNftImageUrlWithFallback` and the rewrite in `NftPreview.Resize` give a different suffix from the source's. `ResizeNftImageUrl.GoogleHostedWidthIsDistinguishable` holds of the model only.
- `Js.ReplaceFirst` does not interpret the `$` patterns of `replace`. The replacement it is given, `=s<digits>`, contains none.
- The change handlers' `event.target?.value` being `undefined` is not modelled: the typed value is always a string.
- The collection layout is kept only as present or absent; its contents are not modelled.
- src/hooks/api/_rest/usePost.ts, src/flows/OnboardingFlow/steps/Congratulations.tsx, pages/_app.tsx and src/scenes/Modals/ManageWalletsModal.tsx are not part of this model: they are a pass-through to an unseen fetcher, an `alert`, the page shell and a layout wrapper.

## Findings

| source | as written | input that shows it | evidently intended | confidence | as-written member | corrected member |
|---|---|---|---|---|---|---|
| src/contexts/auth/AuthContext.tsx:27-35 | `useAuthState` throws only when `!context`, but the context's default is the symbol `UNKNOWN`, which is truthy | a call to `useAuthState` with no `AuthProvider` above it returns `UNKNOWN` instead of throwing | throw "Attempted to use AuthStateContext without a provider!" when no provider is present, as `useAuthActions` does | high, not executed | Auth.UseAuthStateAsWrittenNeverThrows | Auth.UseAuthState |
