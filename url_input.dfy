/**
 * The URL field of the sidebar (app/components/UrlInput.tsx): what happens
 * when the user edits the field and when they submit it.
 *
 * Submission trims the input, then checks in order that it is a URL, that it
 * is not on the board yet, and that it is playable as a video or loadable as
 * an image; the first failing check sets the error message and stops. The
 * checks themselves (`isURL` from the validator library, `isValidVideoUrl`
 * and `getImageMeta`) are parameters `isUrl`, `canPlay` and `loadsImage`, and
 * `pathnameOf` stands for the `new URL(...)` parse inside `addAsset`.
 */
module UrlInputComponent {
  import opened Interfaces
  import opened Text
  import opened AssetsStore

  const InvalidUrl: string := "Invalid URL"
  const AlreadyUploaded: string := "Asset already uploaded"
  const CannotLoad: string := "Asset cannot be loaded"

  /** The outcome of the checks: an error message, or the asset to add. */
  datatype Verdict = Reject(message: string) | Accept(basic: BasicAsset)

  /** The decision chain of `onSubmit`, on the input as typed and the board. */
  function SubmitVerdict(input: string, assets: seq<Asset>,
                         isUrl: string -> bool, canPlay: string -> bool, loadsImage: string -> bool): (v: Verdict)
    ensures v == Reject(InvalidUrl) <==> !isUrl(Trim(input))
    ensures v == Reject(AlreadyUploaded) <==> isUrl(Trim(input)) && HasUrl(assets, Trim(input))
    ensures v == Reject(CannotLoad) <==>
      isUrl(Trim(input)) && !HasUrl(assets, Trim(input)) && !canPlay(Trim(input)) && !loadsImage(Trim(input))
    ensures v.Accept? <==>
      isUrl(Trim(input)) && !HasUrl(assets, Trim(input)) && (canPlay(Trim(input)) || loadsImage(Trim(input)))
    ensures v.Accept? ==>
      && v.basic.url == Trim(input)
      && (v.basic.assetType == Image <==> loadsImage(Trim(input)))
  {
    var url := Trim(input);
    if !isUrl(url) then Reject(InvalidUrl)
    else if HasUrl(assets, url) then Reject(AlreadyUploaded)
    else if !canPlay(url) && !loadsImage(url) then Reject(CannotLoad)
    else Accept(BasicAsset(url, if loadsImage(url) then Image else Video))
  }

  /** Every check, and the URL that is added, sees only the trimmed input. */
  lemma {:induction false} SubmitSeesTrimmedInput(input: string, assets: seq<Asset>,
                               isUrl: string -> bool, canPlay: string -> bool, loadsImage: string -> bool)
    ensures SubmitVerdict(input, assets, isUrl, canPlay, loadsImage)
         == SubmitVerdict(Trim(input), assets, isUrl, canPlay, loadsImage)
  {
    var t := Trim(input);
    TrimIdempotent(input);
    assert Trim(t) == t;
  }

  /**
   * A submission the checks accept, when the URL parses, puts exactly one
   * new tile on the board, carrying the trimmed URL, and keeps URLs unique.
   */
  lemma {:induction false} AcceptedSubmitAddsOneTile(input: string, assets: seq<Asset>,
                                  isUrl: string -> bool, canPlay: string -> bool, loadsImage: string -> bool,
                                  id: string, pathname: string)
    requires UniqueUrls(assets)
    requires SubmitVerdict(input, assets, isUrl, canPlay, loadsImage).Accept?
    ensures var r := AddedAssets(assets, SubmitVerdict(input, assets, isUrl, canPlay, loadsImage).basic, id, Some(pathname));
      && |r| == |assets| + 1 && r[..|assets|] == assets
      && r[|assets|].url == Trim(input)
      && UniqueUrls(r)
  {
    var v := SubmitVerdict(input, assets, isUrl, canPlay, loadsImage);
    AddKeepsUrlsUnique(assets, v.basic, id, Some(pathname));
  }

  /** The sidebar's URL field: its text, its error message and the store it adds to. */
  class UrlInput {
    var inputValue: string
    var error: string
    const store: Store

    /** The field starts empty and without an error. */
    constructor (store: Store)
      ensures this.store == store && inputValue == "" && error == ""
    {
      this.store := store;
      inputValue := "";
      error := "";
    }

    /** `onInputChange`: stores the new text and clears any error. */
    method OnInputChange(text: string)
      modifies this
      ensures inputValue == text && error == ""
    {
      error := "";
      inputValue := text;
    }

    /**
     * `onSubmit`. A rejected input sets the error and leaves the field and
     * the board alone. An accepted one is passed to `addAsset`; if that
     * throws (`threw`, the URL does not parse) the rest of the handler is
     * skipped, otherwise the field and the error are cleared.
     */
    method OnSubmit(isUrl: string -> bool, canPlay: string -> bool, loadsImage: string -> bool,
                    pathnameOf: string -> Option<string>, id: string) returns (threw: bool)
      requires store.Valid()
      requires forall i :: 0 <= i < |store.assets| ==> store.assets[i].id != id
      modifies this, store
      ensures store.Valid()
      ensures var v := SubmitVerdict(old(inputValue), old(store.assets), isUrl, canPlay, loadsImage);
        v.Reject? ==>
          && !threw && error == v.message && inputValue == old(inputValue)
          && store.assets == old(store.assets)
      ensures var v := SubmitVerdict(old(inputValue), old(store.assets), isUrl, canPlay, loadsImage);
        v.Accept? ==>
          && store.assets == AddedAssets(old(store.assets), v.basic, id, pathnameOf(v.basic.url))
          && (threw <==> pathnameOf(v.basic.url).None?)
          && (threw ==> inputValue == old(inputValue) && error == old(error))
          && (!threw ==> inputValue == "" && error == "" && HasUrl(store.assets, Trim(old(inputValue))))
    {
      ghost var v := SubmitVerdict(inputValue, store.assets, isUrl, canPlay, loadsImage);
      var url := Trim(inputValue);
      threw := false;
      if !isUrl(url) {
        assert v == Reject(InvalidUrl);
        error := InvalidUrl;
        return;
      }
      if HasUrl(store.assets, url) {
        assert v == Reject(AlreadyUploaded);
        error := AlreadyUploaded;
        return;
      }
      var isVideo := canPlay(url);
      var image := loadsImage(url);
      if !isVideo && !image {
        assert v == Reject(CannotLoad);
        error := CannotLoad;
        return;
      }
      var basic := BasicAsset(url, if image then Image else Video);
      assert v == Accept(basic);
      var pathname := pathnameOf(url);
      threw := store.AddAsset(basic, id, pathname);
      assert pathnameOf(url) == pathname;
      if threw {
        return;
      }
      assert HasUrl(store.assets, url);
      inputValue := "";
      error := "";
    }
  }
}
