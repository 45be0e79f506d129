/** The global store of the page: the reducer handed to `useReducer` and its
    initial state (frontend/src/store/store.js). */
module Store {

  /** The store's state. `mintedImages` is the only field the application
      declares; `other` stands for every further field a state object may
      carry, which the reducer's object spread copies across untouched. */
  datatype StoreState<Other> = StoreState(mintedImages: seq<string>, other: Other)

  /** A dispatched action: the one type the reducer knows, or an action whose
      type tag is anything other than `SET_MINTED_IMAGES`. */
  datatype Action =
    | SetMintedImages(payload: seq<string>)
    | OtherAction(actionType: string)

  /** What the reducer does with an action: hands back the next state, or throws. */
  datatype Reduced<Other> = Next(state: StoreState<Other>) | Threw

  /** The state the store starts in: no minted images. */
  function InitialState(): (s: StoreState<()>)
    ensures |s.mintedImages| == 0
  {
    StoreState([], ())
  }

  /** The reducer: `SET_MINTED_IMAGES` replaces the image list and keeps every
      other field; every other action type throws. */
  function Reduce<Other>(state: StoreState<Other>, action: Action): (r: Reduced<Other>)
    ensures r.Next? <==> action.SetMintedImages?
    ensures r.Next? ==> r.state.mintedImages == action.payload
    ensures r.Next? ==> r.state.other == state.other
  {
    match action
    case SetMintedImages(payload) => Next(state.(mintedImages := payload))
    case OtherAction(_) => Threw
  }

  /** Two image updates in a row leave the second payload: last write wins. */
  lemma LastWriteWins<Other>(state: StoreState<Other>, first: seq<string>, second: seq<string>)
    ensures Reduce(state, SetMintedImages(first)).Next?
    ensures Reduce(Reduce(state, SetMintedImages(first)).state, SetMintedImages(second))
         == Reduce(state, SetMintedImages(second))
  {
  }

  /** Dispatching the same image update twice is the same as dispatching it once. */
  lemma SetMintedImagesIdempotent<Other>(state: StoreState<Other>, images: seq<string>)
    ensures Reduce(state, SetMintedImages(images)).Next?
    ensures Reduce(Reduce(state, SetMintedImages(images)).state, SetMintedImages(images))
         == Reduce(state, SetMintedImages(images))
  {
    LastWriteWins(state, images, images);
  }
}
