# Messi NFT minting page — a Dafny model

This project models the logic of the web page that mints "MessiNFT" tokens on
the Flow testnet and shows the tokens a wallet owns. There are two parts.

- `store.dfy` (module `Store`) models the global store. It has an initial state
  with no minted images and a reducer. The reducer handles `SET_MINTED_IMAGES`
  by replacing the image list and copying every other field. It throws on any
  other action.
- `home.dfy` (module `Home`) models the page component. It covers:
  - the thumbnail rewrite from `ipfs://` to the `https://nftstorage.link/ipfs/`
    gateway;
  - the collection of owned images in `fetchNFTs`, which stops at the first
    failed metadata read;
  - the asset lookup of `getMessiNFTIPFS`, with its `null`/`undefined`
    results;
  - the `mint` flow as a sequence of flag writes and network calls;
  - which mint button is shown;
  - the shortened address on the logout button.

  The page's React state is the class `HomePage`. Its fields are `loading`,
  `testnetLink`, `nftAvailable`, `nftAlreadyMinted` and the store. `LogOut`,
  `FetchNFTs` and `Mint` are methods that update those fields.

Every network result is a parameter:
- the owned-IDs query (`IdsQuery`);
- the metadata read for each ID (a function `nat -> MetadataRead`);
- the total-supply query (`SupplyQuery`);
- the asset endpoint's answer (`AssetResponse`);
- the submission (`SubmitOutcome`);
- the seal wait (`SealOutcome`).

`Collected` is the pure function that specifies the `fetchNFTs` loop: the
rewritten thumbnails in ID order, up to the first failed metadata read.
`FetchNFTs` is proved to leave exactly that list in the store.

`Mint` returns the steps it took, in order (`Step`). Its specification is the
pure function `MintSteps`. `Replay` turns a list of steps into the flags they
leave. `MintResult` states those final flags directly, and
`MintStepsReachResult` proves the two agree.

The model follows the code where it departs from the obvious reading:
- A failed metadata read ends the whole collection loop, and the images
  collected before it are kept. Later tokens are not skipped over.
- A failed supply query is only logged. The flow goes on, and the token is
  named `MessiNFT # NaN`.
- When no asset is available, the flow clears `nftAvailable` and returns with
  `loading` still set.
- The mint request carries the asset's `ipfsURL` as the endpoint gave it. The
  `ipfs://` rewrite is applied only to displayed thumbnails.
- The only guard on `mint` is `nftAlreadyMinted`. A second click while a mint
  is running is not rejected.

## Model

| member | source | states |
|---|---|---|
| `Store.InitialState` | frontend/src/store/store.js:4-6 | The store starts with an empty `mintedImages` list |
| `Store.Reduce` | frontend/src/store/store.js:11-19 | The reducer returns a next state exactly for `SET_MINTED_IMAGES`, and throws for any other action type; the next state's `mintedImages` is the payload and every other field is copied |
| `Store.LastWriteWins` | frontend/src/store/store.js:13-14 | Two successive `SET_MINTED_IMAGES` leave the second payload, as if only the second had been dispatched |
| `Store.SetMintedImagesIdempotent` | frontend/src/store/store.js:13-14 | Dispatching the same `SET_MINTED_IMAGES` twice equals dispatching it once |
| `Home.HomePage.constructor` | frontend/src/components/home.js:31-35 | The page starts with `loading` false, an empty link, `nftAvailable` true, `nftAlreadyMinted` false, and the store's initial state |
| `Home.HomePage.Dispatch` | frontend/src/store/store.js:11-19 | Dispatching through the reducer sets the image list for `SET_MINTED_IMAGES`; any other action throws and leaves the store unchanged; the page flags never change |
| `Home.HomePage.LogOut` | frontend/src/components/home.js:41-48 | Logging out empties `mintedImages` and changes no flag |
| `Home.NormalizeThumbnail` | frontend/src/components/home.js:80-86 | An `ipfs://` thumbnail becomes the gateway base followed by the thumbnail without its 7-character scheme; any other thumbnail is unchanged; the result never starts with `ipfs://` |
| `Home.NormalizeIpfsUri` | frontend/src/components/home.js:80-83 | `ipfs://<cid>` becomes `https://nftstorage.link/ipfs/<cid>` for every `<cid>` |
| `Home.NormalizeIdempotent` | frontend/src/components/home.js:80-86 | Rewriting an already rewritten thumbnail changes nothing |
| `Home.NormalizeExamples` | frontend/src/components/home.js:80-86 | `ipfs://abc123` becomes `https://nftstorage.link/ipfs/abc123`, and `https://example.com/x.png` is unchanged |
| `Home.CollectedInOrder` | frontend/src/components/home.js:69-90 | No more images than IDs are collected; image `k` is the normalised thumbnail of ID `k`, and its read succeeded |
| `Home.CollectedStopsAtFirstFailure` | frontend/src/components/home.js:70-90 | When fewer images than IDs are collected, the read of the first uncollected ID failed, so the count is the number of successful reads before the first failure |
| `Home.AllReadsCollected` | frontend/src/components/home.js:71-87 | When every metadata read succeeds, one image is collected per owned ID |
| `Home.FailedIdsQueryCollectsNothing` | frontend/src/components/home.js:57-67 | A failed owned-IDs query leaves the ID list empty, so no image is collected |
| `Home.HomePage.FetchNFTs` | frontend/src/components/home.js:50-99 | After the fetch, `mintedImages` is exactly the collected list, replacing the old images; `nftAlreadyMinted` is set when that list is non-empty and is never cleared, so the "already have" button then shows; the other flags are unchanged |
| `Home.LookupAsset` | frontend/src/components/home.js:101-114 | The lookup gives the first entry's `ipfsURL` (string, `null` or `undefined` alike) for a non-empty list, `null` for an empty list, and `undefined` when the fetch fails |
| `Home.NoAssetIffEmptyOrFailed` | frontend/src/components/home.js:107-113 | The mint flow's `== null` test holds exactly for a failed fetch, an empty list, or a first entry with no URL |
| `Home.DecimalString` | frontend/src/components/home.js:142 | The ID text is a non-empty run of decimal digits with no leading zero |
| `Home.ParseDecimalString` | frontend/src/components/home.js:142 | The ID text reads back as the number it was written from |
| `Home.TokenName` | frontend/src/components/home.js:129-142 | The token name is `MessiNFT # ` followed by the decimal text of supply + 1 (digits reading back as supply + 1, no leading zero), or by `NaN` when the supply query failed |
| `Home.TokenNameExample` | frontend/src/components/home.js:129-142 | A supply of 41 names the new token `MessiNFT # 42` |
| `Home.ExplorerLink` | frontend/src/components/home.js:151-153 | The explorer link is the flowscan transaction base followed by the transaction ID, which can be read back from it |
| `Home.ExplorerLinkInjective` | frontend/src/components/home.js:151-153 | Two transactions get the same link only if they have the same ID |
| `Home.ShortAddress` | frontend/src/components/home.js:185-186 | The label is the address's first 6 characters, then `...`, then its last 4 characters, with JavaScript's clamping when the address is shorter |
| `Home.ShortFlowAddress` | frontend/src/components/home.js:185-186 | An 18-character Flow address is shown as its first 6 characters, `...`, and its last 4 characters |
| `Home.ButtonFor` | frontend/src/components/home.js:243-282 | The "already have" button shows exactly when `nftAlreadyMinted` is set, whatever the availability; otherwise the mint button shows exactly when `nftAvailable` is set, and the disabled button shows when it is not |
| `Home.HomePage.Mint` | frontend/src/components/home.js:116-164 | A mint attempt takes exactly the steps `MintSteps` prescribes for the old `nftAlreadyMinted` and the network outcomes; the new flags are those steps replayed on the old flags; the store is untouched |
| `Home.MintStepsReachResult` | frontend/src/components/home.js:116-164 | Replayed, the mint steps change nothing when a token is owned. With no asset they leave `loading` set and `nftAvailable` cleared. Otherwise they clear `loading`, and an accepted transaction also sets its explorer link |
| `Home.MintGuard` | frontend/src/components/home.js:117 | With `nftAlreadyMinted` set, a mint attempt takes no step at all |
| `Home.MintLoadingOutcome` | frontend/src/components/home.js:119-162 | After a mint attempt, `loading` is still set exactly when no asset was available; every other path clears it |
| `Home.MintSubmitsIff` | frontend/src/components/home.js:120-149 | A transaction is submitted exactly when no token is owned and an asset was found, whatever the supply query returned |
| `Home.MintAwaitsSealIff` | frontend/src/components/home.js:137-160 | The seal is awaited exactly when the submission was accepted. The step just before the wait sets that transaction's explorer link |
| `Home.MintRequestContents` | frontend/src/components/home.js:138-149 | The submitted request carries the recipient, the token name built from the supply, the fixed description, the first `ipfsURL` as given, and the limit 99 |
| `Home.MintSealIrrelevant` | frontend/src/components/home.js:155-162 | The seal outcome changes no step, so `loading` is cleared whether the seal succeeds or fails |
| `Home.ReplayKeepsAlreadyMinted` | frontend/src/components/home.js:116-164 | No mint step changes `nftAlreadyMinted` |
| `Home.AlreadyMintedIsPermanent` | frontend/src/components/home.js:243-253 | With `nftAlreadyMinted` set, the "already have" button stays after any mint attempt |
| `Home.UnavailableShowsSoldOut` | frontend/src/components/home.js:131-135 | A mint attempt that finds no asset leaves the disabled button showing and `loading` still set |

## Left out

- The `fcl` calls are not modelled: `authenticate`, `unauthenticate`, `query`, `mutate`, `tx(...).onceSealed` and `currentUser().subscribe`. Neither is the HTTP `fetch` of the asset endpoint. These are network I/O in libraries outside this model. Their results are parameters.
- `logIn` and the user subscription with its `useEffect` (home.js:37-39, 166-176) are not modelled. `FetchNFTs` is the operation that effect runs. The signed-in address reaches `Mint` as its `recipient` parameter.
- The Cadence scripts and the transaction text (frontend/src/cadence/scripts/get_script.js, frontend/src/cadence/transactions/mintNFT_tx.js) are not modelled. They run on the chain, and their results enter as the query parameters.
- Asynchrony is not modelled. Each `await` is a step in a strict sequence, and React's deferred state updates are plain assignments.
- `window.location.reload()` at the end of `mint` is not modelled. It discards the page state, which the model keeps.
- Console logging and the `alert` messages are not modelled. The seal outcome only chooses which alert text is shown, so in the model it changes nothing.
- JavaScript number semantics are not modelled. The supply is a natural number with no 64-bit bound. A failed supply query gives the text `NaN`, which is the text `parseInt(undefined) + 1` prints.
- Rendering, CSS, scrolling, the video mute toggle and the video preload are not modelled.
- Home.HomePage.FetchNFTs: the model states only the store at the end of the method. In the page, the images are first emptied and other renders may see that empty list.
- Home.LookupAsset: the model takes each entry's `ipfsURL` as a string, `null` or `undefined`. It does not model other JSON values there.
