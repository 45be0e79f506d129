/** The logic of the home page (frontend/src/components/home.js): rewriting
    token thumbnails to an HTTP gateway and collecting the owned ones, picking
    an asset for a new token, the mint flow over the page's flags, which mint
    button is shown, and the shortened address on the logout button.
    Every network result (chain queries, transaction submission, the seal
    wait, the HTTP fetch of the asset list) is a parameter. */
module Home {
  import opened Store

  // ---------------------------------------------------------------------
  // Strings

  /** JavaScript's `s.startsWith(p)`. */
  predicate StartsWith(s: string, p: string) {
    |p| <= |s| && s[..|p|] == p
  }

  function Min(a: int, b: int): int {
    if a <= b then a else b
  }

  /** JavaScript's `s.substring(start, end)`: both indices are clamped into
      `[0, |s|]` and swapped when they come out in the wrong order. */
  function JsSubstring(s: string, start: int, end: int): string {
    var a := if start < 0 then 0 else Min(start, |s|);
    var b := if end < 0 then 0 else Min(end, |s|);
    if a <= b then s[a..b] else s[b..a]
  }

  predicate IsDecimal(s: string) {
    forall i :: 0 <= i < |s| ==> '0' <= s[i] <= '9'
  }

  function DigitChar(d: nat): char
    requires d < 10
  {
    (48 + d) as char
  }

  /** The decimal text of a natural number, as `Number.prototype.toString`
      writes it: no sign, no leading zero. */
  function DecimalString(n: nat): (r: string)
    ensures |r| >= 1 && IsDecimal(r)
    ensures r[0] == '0' ==> n == 0
    decreases n
  {
    if n < 10 then [DigitChar(n)] else DecimalString(n / 10) + [DigitChar(n % 10)]
  }

  /** The value of a string of decimal digits. */
  function ParseDecimal(s: string): nat
    requires IsDecimal(s)
  {
    if s == [] then 0 else 10 * ParseDecimal(s[..|s| - 1]) + (s[|s| - 1] as int - 48)
  }

  /** Reading back the decimal text of `n` gives `n`. */
  lemma {:induction false} ParseDecimalString(n: nat)
    ensures ParseDecimal(DecimalString(n)) == n
    decreases n
  {
    if n >= 10 {
      var s := DecimalString(n);
      assert s[..|s| - 1] == DecimalString(n / 10);
      ParseDecimalString(n / 10);
    }
  }

  // ---------------------------------------------------------------------
  // Thumbnails and owned images (fetchNFTs)

  const IpfsPrefix: string := "ipfs://"
  const GatewayBase: string := "https://nftstorage.link/ipfs/"

  /** The thumbnail rewrite: an `ipfs://` URI loses its 7-character scheme
      and is put behind the HTTP gateway; anything else passes through. */
  function NormalizeThumbnail(thumbnail: string): (r: string)
    ensures StartsWith(thumbnail, IpfsPrefix) ==>
              StartsWith(r, GatewayBase) && r[|GatewayBase|..] == thumbnail[|IpfsPrefix|..]
    ensures !StartsWith(thumbnail, IpfsPrefix) ==> r == thumbnail
    ensures !StartsWith(r, IpfsPrefix)
  {
    if StartsWith(thumbnail, IpfsPrefix) then
      assert (GatewayBase + thumbnail[7..])[0] == 'h';
      GatewayBase + thumbnail[7..]
    else
      thumbnail
  }

  /** `ipfs://<cid>` becomes the gateway URL of `<cid>`. */
  lemma NormalizeIpfsUri(cid: string)
    ensures NormalizeThumbnail(IpfsPrefix + cid) == GatewayBase + cid
  {
    assert (IpfsPrefix + cid)[..|IpfsPrefix|] == IpfsPrefix;
    assert (IpfsPrefix + cid)[|IpfsPrefix|..] == cid;
  }

  /** Rewriting an already rewritten thumbnail changes nothing. */
  lemma NormalizeIdempotent(thumbnail: string)
    ensures NormalizeThumbnail(NormalizeThumbnail(thumbnail)) == NormalizeThumbnail(thumbnail)
  {
  }

  /** `ipfs://abc123` goes behind the gateway; a plain https URL is kept. */
  lemma NormalizeExamples()
    ensures NormalizeThumbnail("ipfs://abc123") == "https://nftstorage.link/ipfs/abc123"
    ensures NormalizeThumbnail("https://example.com/x.png") == "https://example.com/x.png"
  {
    NormalizeIpfsUri("abc123");
    assert "ipfs://abc123" == IpfsPrefix + "abc123";
    assert !StartsWith("https://example.com/x.png", IpfsPrefix) by {
      assert "https://example.com/x.png"[0] != IpfsPrefix[0];
    }
  }

  /** The display record the metadata script returns for one token. */
  datatype TokenMetadata = TokenMetadata(name: string, description: string, thumbnail: string, owner: string)

  /** One metadata read: the record, or a failed query. */
  datatype MetadataRead = Metadata(metadata: TokenMetadata) | MetadataReadFailed

  /** The owned-IDs query: the IDs in the order the chain returns them, or a failure. */
  datatype IdsQuery = OwnedIds(ids: seq<nat>) | IdsQueryFailed

  /** The ID list `fetchNFTs` walks: empty when the query failed. */
  function QueriedIds(query: IdsQuery): seq<nat> {
    match query
    case OwnedIds(ids) => ids
    case IdsQueryFailed => []
  }

  /** The images collected from `ids`, where `read(id)` is the outcome of the
      metadata query for `id`: the normalised thumbnails, in ID order, up to
      the first failed read. */
  function Collected(ids: seq<nat>, read: nat -> MetadataRead): seq<string> {
    if ids == [] then []
    else match read(ids[0])
      case MetadataReadFailed => []
      case Metadata(m) => [NormalizeThumbnail(m.thumbnail)] + Collected(ids[1..], read)
  }

  /** Every collected image is the normalised thumbnail of the token at the
      same position, and every read before it succeeded. */
  lemma {:induction false} CollectedInOrder(ids: seq<nat>, read: nat -> MetadataRead)
    ensures |Collected(ids, read)| <= |ids|
    ensures forall k :: 0 <= k < |Collected(ids, read)| ==>
              read(ids[k]).Metadata? &&
              Collected(ids, read)[k] == NormalizeThumbnail(read(ids[k]).metadata.thumbnail)
  {
    if ids != [] && read(ids[0]).Metadata? {
      CollectedInOrder(ids[1..], read);
    }
  }

  /** Collection stops exactly at the first failed read: when fewer images
      than IDs were collected, the read of the next ID failed. */
  lemma {:induction false} CollectedStopsAtFirstFailure(ids: seq<nat>, read: nat -> MetadataRead)
    ensures |Collected(ids, read)| < |ids| ==> read(ids[|Collected(ids, read)|]).MetadataReadFailed?
  {
    if ids != [] && read(ids[0]).Metadata? {
      CollectedStopsAtFirstFailure(ids[1..], read);
      CollectedInOrder(ids[1..], read);
      if |Collected(ids, read)| < |ids| {
        assert ids[1..][|Collected(ids[1..], read)|] == ids[|Collected(ids, read)|];
      }
    }
  }

  /** When every read succeeds, one image is collected per ID. */
  lemma AllReadsCollected(ids: seq<nat>, read: nat -> MetadataRead)
    requires forall k :: 0 <= k < |ids| ==> read(ids[k]).Metadata?
    ensures |Collected(ids, read)| == |ids|
  {
    CollectedInOrder(ids, read);
    CollectedStopsAtFirstFailure(ids, read);
  }

  /** A failed owned-IDs query collects nothing, whatever the reads would give. */
  lemma FailedIdsQueryCollectsNothing(read: nat -> MetadataRead)
    ensures Collected(QueriedIds(IdsQueryFailed), read) == []
  {
  }

  // ---------------------------------------------------------------------
  // Asset lookup (getMessiNFTIPFS)

  /** The JavaScript values an `ipfsURL` field or the lookup can hold. */
  datatype JsValue = JsString(text: string) | JsNull | JsUndefined

  /** What the asset endpoint answers: the `ipfsURL` field of each listed
      asset, in order (`undefined` where an entry lacks it), or a failure
      (network error, unreadable body, no `ipfs_hash` list). */
  datatype AssetResponse = AssetList(ipfsUrls: seq<JsValue>) | AssetFetchFailed

  /** JavaScript's loose `v == null`, true of both `null` and `undefined`. */
  predicate LooseEqualsNull(v: JsValue) {
    v.JsNull? || v.JsUndefined?
  }

  /** The lookup: the first entry's `ipfsURL` when the list is non-empty,
      `null` for an empty list, and `undefined` (the caught error) on failure. */
  function LookupAsset(response: AssetResponse): (v: JsValue)
    ensures v.JsString? <==> response.AssetList? && |response.ipfsUrls| > 0 && response.ipfsUrls[0].JsString?
    ensures response.AssetList? && |response.ipfsUrls| > 0 ==> v == response.ipfsUrls[0]
    ensures response == AssetList([]) ==> v == JsNull
    ensures response.AssetFetchFailed? ==> v == JsUndefined
  {
    match response
    case AssetFetchFailed => JsUndefined
    case AssetList(urls) => if |urls| > 0 then urls[0] else JsNull
  }

  /** The mint flow's `== null` test treats an empty list, a failed fetch and
      a first entry without a URL alike, and lets every listed string
      through, even an empty one. */
  lemma NoAssetIffEmptyOrFailed(response: AssetResponse)
    ensures LooseEqualsNull(LookupAsset(response)) <==>
              response.AssetFetchFailed? || response.ipfsUrls == [] || LooseEqualsNull(response.ipfsUrls[0])
  {
  }

  // ---------------------------------------------------------------------
  // Labels

  const TokenNamePrefix: string := "MessiNFT # "
  /** The text JavaScript gives `parseInt(undefined) + 1`, the ID shown when
      the supply query failed. */
  const NotANumber: string := "NaN"

  /** The total-supply query: the supply, or a failure. */
  datatype SupplyQuery = TotalSupply(count: nat) | SupplyQueryFailed

  /** The name given to the token being minted: the prefix and the next ID,
      one more than the current supply. */
  function TokenName(supply: SupplyQuery): (r: string)
    ensures |r| > |TokenNamePrefix| && r[..|TokenNamePrefix|] == TokenNamePrefix
    ensures supply.TotalSupply? ==>
              IsDecimal(r[|TokenNamePrefix|..]) && ParseDecimal(r[|TokenNamePrefix|..]) == supply.count + 1
    ensures supply.TotalSupply? ==> r[|TokenNamePrefix|] != '0'
    ensures supply.SupplyQueryFailed? ==> r[|TokenNamePrefix|..] == NotANumber
  {
    match supply
    case TotalSupply(n) =>
      ParseDecimalString(n + 1);
      assert (TokenNamePrefix + DecimalString(n + 1))[|TokenNamePrefix|..] == DecimalString(n + 1);
      TokenNamePrefix + DecimalString(n + 1)
    case SupplyQueryFailed =>
      assert (TokenNamePrefix + NotANumber)[|TokenNamePrefix|..] == NotANumber;
      TokenNamePrefix + NotANumber
  }

  /** A supply of 41 names the new token 42. */
  lemma TokenNameExample()
    ensures TokenName(TotalSupply(41)) == "MessiNFT # 42"
  {
    assert DecimalString(42) == DecimalString(4) + [DigitChar(2)];
  }

  const ExplorerBase: string := "https://testnet.flowscan.org/transaction/"

  /** The block-explorer link shown for a submitted transaction. */
  function ExplorerLink(txId: string): (r: string)
    ensures StartsWith(r, ExplorerBase) && r[|ExplorerBase|..] == txId
  {
    ExplorerBase + txId
  }

  /** Different transactions get different links. */
  lemma ExplorerLinkInjective(a: string, b: string)
    ensures ExplorerLink(a) == ExplorerLink(b) <==> a == b
  {
    if ExplorerLink(a) == ExplorerLink(b) {
      assert a == ExplorerLink(a)[|ExplorerBase|..];
    }
  }

  /** The address label on the logout button: the first 6 characters, `...`,
      then the last 4, with JavaScript's clamping for short addresses. */
  function ShortAddress(addr: string): (r: string)
    ensures |r| == Min(|addr|, 6) + 3 + Min(|addr|, 4)
    ensures r[..Min(|addr|, 6)] == addr[..Min(|addr|, 6)]
    ensures r[Min(|addr|, 6)..Min(|addr|, 6) + 3] == "..."
    ensures r[Min(|addr|, 6) + 3..] == addr[|addr| - Min(|addr|, 4)..]
  {
    JsSubstring(addr, 0, 6) + "..." + JsSubstring(addr, |addr| - 4, |addr|)
  }

  /** A Flow address (`0x` and 16 hex digits) is shown as its head and tail. */
  lemma ShortFlowAddress(addr: string)
    requires |addr| == 18
    ensures ShortAddress(addr) == addr[..6] + "..." + addr[14..]
  {
  }

  // ---------------------------------------------------------------------
  // Which mint button is shown (MintNFTButton)

  datatype MintButton = AlreadyHaveButton | MintEnabledButton | SoldOutButton

  /** Already minted wins over availability; otherwise availability decides
      between the mint button and the disabled one. */
  function ButtonFor(nftAlreadyMinted: bool, nftAvailable: bool): (b: MintButton)
    ensures b == AlreadyHaveButton <==> nftAlreadyMinted
    ensures b == MintEnabledButton <==> !nftAlreadyMinted && nftAvailable
    ensures b == SoldOutButton <==> !nftAlreadyMinted && !nftAvailable
  {
    if nftAlreadyMinted then AlreadyHaveButton
    else if nftAvailable then MintEnabledButton
    else SoldOutButton
  }

  // ---------------------------------------------------------------------
  // The mint flow (mint)

  const MintDescription: string := "Limited Edition AI Generated MessiNFT on Flow"
  /** The computation limit attached to the mint transaction. */
  const MintComputeLimit: nat := 99

  /** The arguments of the mint transaction. */
  datatype MintRequest = MintRequest(recipient: string, name: string, description: string,
                                     thumbnail: string, computeLimit: nat)

  /** Submitting the transaction: its ID, or a failure (rejected signature, ...). */
  datatype SubmitOutcome = Accepted(txId: string) | SubmitFailed

  /** Waiting for the transaction to be sealed. */
  datatype SealOutcome = Sealed | SealFailed

  /** The page's flags. */
  datatype Flags = Flags(loading: bool, nftAvailable: bool, nftAlreadyMinted: bool, testnetLink: string)

  /** One step of the mint flow: a flag write or a network call. */
  datatype Step =
    | SetLoading(on: bool)
    | SetNftAvailable(available: bool)
    | SetTestnetLink(link: string)
    | QueryTotalSupply
    | FetchAssetList
    | SubmitMint(request: MintRequest)
    | AwaitSeal(txId: string)

  function ApplyStep(f: Flags, s: Step): Flags {
    match s
    case SetLoading(on) => f.(loading := on)
    case SetNftAvailable(available) => f.(nftAvailable := available)
    case SetTestnetLink(link) => f.(testnetLink := link)
    case _ => f
  }

  /** The flags after the steps, taken in order from `f`. */
  function Replay(f: Flags, steps: seq<Step>): Flags
    decreases |steps|
  {
    if steps == [] then f else Replay(ApplyStep(f, steps[0]), steps[1..])
  }

  /** Replaying one more step applies it to the flags reached so far. */
  lemma {:induction false} ReplayAppend(f: Flags, steps: seq<Step>, s: Step)
    ensures Replay(f, steps + [s]) == ApplyStep(Replay(f, steps), s)
    decreases |steps|
  {
    if steps != [] {
      assert (steps + [s])[1..] == steps[1..] + [s];
      ReplayAppend(ApplyStep(f, steps[0]), steps[1..], s);
    }
  }

  /** No step of the mint flow touches `nftAlreadyMinted`. */
  lemma {:induction false} ReplayKeepsAlreadyMinted(f: Flags, steps: seq<Step>)
    ensures Replay(f, steps).nftAlreadyMinted == f.nftAlreadyMinted
    decreases |steps|
  {
    if steps != [] {
      ReplayKeepsAlreadyMinted(ApplyStep(f, steps[0]), steps[1..]);
    }
  }

  /** The request the flow submits: the signed-in address, the token name,
      the fixed description, and the looked-up `ipfsURL` as it came. */
  function MintRequestFor(recipient: string, supply: SupplyQuery, ipfsUrl: string): MintRequest {
    MintRequest(recipient, TokenName(supply), MintDescription, ipfsUrl, MintComputeLimit)
  }

  /** The steps of one mint attempt, given whether a token is already owned
      and the outcomes of the network calls. */
  function MintSteps(nftAlreadyMinted: bool, recipient: string, supply: SupplyQuery,
                     assets: AssetResponse, submit: SubmitOutcome, seal: SealOutcome): seq<Step>
  {
    if nftAlreadyMinted then []
    else
      var start := [SetLoading(true), QueryTotalSupply, FetchAssetList];
      var asset := LookupAsset(assets);
      if LooseEqualsNull(asset) then start + [SetNftAvailable(false)]
      else
        var submitted := start + [SubmitMint(MintRequestFor(recipient, supply, asset.text))];
        match submit
        case Accepted(txId) =>
          submitted + [SetTestnetLink(ExplorerLink(txId)), AwaitSeal(txId), SetLoading(false)]
        case SubmitFailed =>
          submitted + [SetLoading(false)]
  }

  /** The flags a mint attempt leaves, said directly: nothing when a token is
      already owned; `loading` still set and `nftAvailable` cleared when no
      asset is available; otherwise `loading` cleared and, when the
      transaction was accepted, the explorer link of its ID. */
  function MintResult(f: Flags, assets: AssetResponse, submit: SubmitOutcome): Flags {
    if f.nftAlreadyMinted then f
    else if LooseEqualsNull(LookupAsset(assets)) then f.(loading := true, nftAvailable := false)
    else match submit
      case Accepted(txId) => f.(loading := false, testnetLink := ExplorerLink(txId))
      case SubmitFailed => f.(loading := false)
  }

  /** Replaying the mint steps gives the flags `MintResult` describes. */
  lemma MintStepsReachResult(f: Flags, recipient: string, supply: SupplyQuery,
                             assets: AssetResponse, submit: SubmitOutcome, seal: SealOutcome)
    ensures Replay(f, MintSteps(f.nftAlreadyMinted, recipient, supply, assets, submit, seal))
         == MintResult(f, assets, submit)
  {
    if !f.nftAlreadyMinted {
      var start := [SetLoading(true), QueryTotalSupply, FetchAssetList];
      assert Replay(f, start) == f.(loading := true) by {
        assert [] + [SetLoading(true)] == [SetLoading(true)];
        ReplayAppend(f, [], SetLoading(true));
        assert [SetLoading(true)] + [QueryTotalSupply] == start[..2];
        ReplayAppend(f, [SetLoading(true)], QueryTotalSupply);
        assert start[..2] + [FetchAssetList] == start;
        ReplayAppend(f, start[..2], FetchAssetList);
      }
      var asset := LookupAsset(assets);
      if LooseEqualsNull(asset) {
        ReplayAppend(f, start, SetNftAvailable(false));
      } else {
        var submitted := start + [SubmitMint(MintRequestFor(recipient, supply, asset.text))];
        ReplayAppend(f, start, SubmitMint(MintRequestFor(recipient, supply, asset.text)));
        match submit
        case Accepted(txId) =>
          var linked := submitted + [SetTestnetLink(ExplorerLink(txId))];
          ReplayAppend(f, submitted, SetTestnetLink(ExplorerLink(txId)));
          ReplayAppend(f, linked, AwaitSeal(txId));
          ReplayAppend(f, linked + [AwaitSeal(txId)], SetLoading(false));
          assert linked + [AwaitSeal(txId)] + [SetLoading(false)]
              == submitted + [SetTestnetLink(ExplorerLink(txId)), AwaitSeal(txId), SetLoading(false)];
        case SubmitFailed =>
          ReplayAppend(f, submitted, SetLoading(false));
      }
    }
  }

  /** A mint attempt with a token already owned does nothing at all. */
  lemma MintGuard(recipient: string, supply: SupplyQuery, assets: AssetResponse,
                  submit: SubmitOutcome, seal: SealOutcome)
    ensures MintSteps(true, recipient, supply, assets, submit, seal) == []
  {
  }

  /** `loading` is left set exactly on the path where no asset is available. */
  lemma MintLoadingOutcome(f: Flags, recipient: string, supply: SupplyQuery,
                           assets: AssetResponse, submit: SubmitOutcome, seal: SealOutcome)
    requires !f.nftAlreadyMinted
    ensures Replay(f, MintSteps(false, recipient, supply, assets, submit, seal)).loading
        <==> LooseEqualsNull(LookupAsset(assets))
  {
    MintStepsReachResult(f, recipient, supply, assets, submit, seal);
  }

  /** A transaction is submitted exactly when no token is owned and an asset
      was found; a failed supply query does not stop it. */
  lemma MintSubmitsIff(nftAlreadyMinted: bool, recipient: string, supply: SupplyQuery,
                       assets: AssetResponse, submit: SubmitOutcome, seal: SealOutcome)
    ensures (exists i :: 0 <= i < |MintSteps(nftAlreadyMinted, recipient, supply, assets, submit, seal)| &&
               MintSteps(nftAlreadyMinted, recipient, supply, assets, submit, seal)[i].SubmitMint?)
        <==> !nftAlreadyMinted && !LooseEqualsNull(LookupAsset(assets))
  {
    var steps := MintSteps(nftAlreadyMinted, recipient, supply, assets, submit, seal);
    if !nftAlreadyMinted && !LooseEqualsNull(LookupAsset(assets)) {
      assert steps[3].SubmitMint?;
    }
  }

  /** The seal is awaited exactly when the submission was accepted, and the
      explorer link of that transaction is set in the step just before. */
  lemma MintAwaitsSealIff(nftAlreadyMinted: bool, recipient: string, supply: SupplyQuery,
                          assets: AssetResponse, submit: SubmitOutcome, seal: SealOutcome)
    ensures (exists i :: 0 <= i < |MintSteps(nftAlreadyMinted, recipient, supply, assets, submit, seal)| &&
               MintSteps(nftAlreadyMinted, recipient, supply, assets, submit, seal)[i].AwaitSeal?)
        <==> !nftAlreadyMinted && !LooseEqualsNull(LookupAsset(assets)) && submit.Accepted?
    ensures forall i :: 1 <= i < |MintSteps(nftAlreadyMinted, recipient, supply, assets, submit, seal)| ==>
              (MintSteps(nftAlreadyMinted, recipient, supply, assets, submit, seal)[i].AwaitSeal? ==>
                 MintSteps(nftAlreadyMinted, recipient, supply, assets, submit, seal)[i - 1]
                   == SetTestnetLink(ExplorerLink(MintSteps(nftAlreadyMinted, recipient, supply, assets, submit, seal)[i].txId)))
  {
    var steps := MintSteps(nftAlreadyMinted, recipient, supply, assets, submit, seal);
    if !nftAlreadyMinted && !LooseEqualsNull(LookupAsset(assets)) && submit.Accepted? {
      assert steps[5].AwaitSeal?;
    }
  }

  /** The submitted request carries the looked-up URL unchanged and the
      name built from the supply. */
  lemma MintRequestContents(recipient: string, supply: SupplyQuery, assets: AssetResponse,
                            submit: SubmitOutcome, seal: SealOutcome)
    requires assets.AssetList? && |assets.ipfsUrls| > 0 && assets.ipfsUrls[0].JsString?
    ensures MintSteps(false, recipient, supply, assets, submit, seal)[3]
         == SubmitMint(MintRequest(recipient, TokenName(supply), MintDescription, assets.ipfsUrls[0].text, 99))
  {
  }

  /** The seal outcome changes no step: `loading` is cleared either way. */
  lemma MintSealIrrelevant(nftAlreadyMinted: bool, recipient: string, supply: SupplyQuery,
                           assets: AssetResponse, submit: SubmitOutcome)
    ensures MintSteps(nftAlreadyMinted, recipient, supply, assets, submit, Sealed)
         == MintSteps(nftAlreadyMinted, recipient, supply, assets, submit, SealFailed)
  {
  }

  // ---------------------------------------------------------------------
  // The page (HomeComponents and the store it dispatches to)

  class HomePage {
    var loading: bool
    var testnetLink: string
    var nftAvailable: bool
    var nftAlreadyMinted: bool
    /** The global store, written only through the reducer. */
    var store: StoreState<()>

    function CurrentFlags(): Flags
      reads this
    {
      Flags(loading, nftAvailable, nftAlreadyMinted, testnetLink)
    }

    /** The page as first rendered. */
    constructor ()
      ensures CurrentFlags() == Flags(false, true, false, "")
      ensures store == InitialState()
    {
      loading := false;
      testnetLink := "";
      nftAvailable := true;
      nftAlreadyMinted := false;
      store := InitialState();
    }

    /** Hands an action to the reducer; a throwing reducer leaves the store. */
    method Dispatch(action: Action) returns (threw: bool)
      modifies this
      ensures threw <==> !action.SetMintedImages?
      ensures store == if action.SetMintedImages? then old(store).(mintedImages := action.payload) else old(store)
      ensures CurrentFlags() == old(CurrentFlags())
    {
      var r := Reduce(store, action);
      match r
      case Next(s) => store := s; threw := false;
      case Threw => threw := true;
    }

    /** Logging out empties the minted images; the wallet sign-out itself is
        outside the model. */
    method LogOut()
      modifies this
      ensures store.mintedImages == []
      ensures CurrentFlags() == old(CurrentFlags())
    {
      var _ := Dispatch(SetMintedImages([]));
    }

    /** Reloads the owned images: empties them, walks the owned IDs reading
        each token's metadata until a read fails, and publishes the collected
        images and the already-minted flag when anything was collected. */
    method FetchNFTs(idsQuery: IdsQuery, read: nat -> MetadataRead)
      modifies this
      ensures store.mintedImages == Collected(QueriedIds(idsQuery), read)
      ensures nftAlreadyMinted == (old(nftAlreadyMinted) || |store.mintedImages| > 0)
      ensures |store.mintedImages| > 0 ==> ButtonFor(nftAlreadyMinted, nftAvailable) == AlreadyHaveButton
      ensures loading == old(loading) && nftAvailable == old(nftAvailable)
      ensures testnetLink == old(testnetLink)
    {
      var _ := Dispatch(SetMintedImages([]));
      var ids: seq<nat> := [];
      match idsQuery {
        case OwnedIds(owned) => ids := owned;
        case IdsQueryFailed =>
      }
      var imageSrc: seq<string> := [];
      var i := 0;
      while i < |ids|
        invariant 0 <= i <= |ids|
        invariant |imageSrc| == i
        invariant Collected(ids, read) == imageSrc + Collected(ids[i..], read)
        decreases |ids| - i
      {
        assert ids[i..][0] == ids[i] && ids[i..][1..] == ids[i + 1..];
        var result := read(ids[i]);
        if result.MetadataReadFailed? {
          break;
        }
        var thumbnail := result.metadata.thumbnail;
        if StartsWith(thumbnail, IpfsPrefix) {
          imageSrc := imageSrc + [thumbnail[7..]];
          imageSrc := imageSrc[i := GatewayBase + imageSrc[i]];
        } else {
          imageSrc := imageSrc + [thumbnail];
        }
        i := i + 1;
      }
      if |imageSrc| > 0 {
        nftAlreadyMinted := true;
        var _ := Dispatch(SetMintedImages(imageSrc));
      }
    }

    /** One mint attempt for `recipient`, with the network outcomes given.
        Returns the steps taken, in order; the flags are those steps
        replayed on the old flags. */
    method Mint(recipient: string, supply: SupplyQuery, assets: AssetResponse,
                submit: SubmitOutcome, seal: SealOutcome) returns (steps: seq<Step>)
      modifies this
      ensures steps == MintSteps(old(nftAlreadyMinted), recipient, supply, assets, submit, seal)
      ensures CurrentFlags() == Replay(old(CurrentFlags()), steps)
      ensures store == old(store)
    {
      MintStepsReachResult(CurrentFlags(), recipient, supply, assets, submit, seal);
      steps := [];
      if nftAlreadyMinted {
        return;
      }
      loading := true;
      steps := [SetLoading(true), QueryTotalSupply];
      var name := TokenName(supply);
      steps := steps + [FetchAssetList];
      var ipfsHash := LookupAsset(assets);
      if LooseEqualsNull(ipfsHash) {
        nftAvailable := false;
        steps := steps + [SetNftAvailable(false)];
        return;
      }
      var request := MintRequest(recipient, name, MintDescription, ipfsHash.text, MintComputeLimit);
      steps := steps + [SubmitMint(request)];
      match submit {
        case Accepted(txId) =>
          testnetLink := ExplorerLink(txId);
          steps := steps + [SetTestnetLink(testnetLink), AwaitSeal(txId)];
        case SubmitFailed =>
      }
      loading := false;
      steps := steps + [SetLoading(false)];
    }
  }

  /** A mint attempt never clears `nftAlreadyMinted`, so once the
      already-minted button is shown no mint attempt removes it. */
  lemma AlreadyMintedIsPermanent(f: Flags, recipient: string, supply: SupplyQuery,
                                 assets: AssetResponse, submit: SubmitOutcome, seal: SealOutcome)
    requires f.nftAlreadyMinted
    ensures ButtonFor(Replay(f, MintSteps(f.nftAlreadyMinted, recipient, supply, assets, submit, seal)).nftAlreadyMinted,
                      Replay(f, MintSteps(f.nftAlreadyMinted, recipient, supply, assets, submit, seal)).nftAvailable)
         == AlreadyHaveButton
  {
    ReplayKeepsAlreadyMinted(f, MintSteps(f.nftAlreadyMinted, recipient, supply, assets, submit, seal));
  }

  /** A mint attempt that found no asset leaves the disabled button (unless a
      token is owned) with the spinner still set. */
  lemma UnavailableShowsSoldOut(f: Flags, recipient: string, supply: SupplyQuery,
                                assets: AssetResponse, submit: SubmitOutcome, seal: SealOutcome)
    requires !f.nftAlreadyMinted && LooseEqualsNull(LookupAsset(assets))
    ensures ButtonFor(Replay(f, MintSteps(false, recipient, supply, assets, submit, seal)).nftAlreadyMinted,
                      Replay(f, MintSteps(false, recipient, supply, assets, submit, seal)).nftAvailable)
         == SoldOutButton
    ensures Replay(f, MintSteps(false, recipient, supply, assets, submit, seal)).loading
  {
    MintStepsReachResult(f, recipient, supply, assets, submit, seal);
  }
}
