/** The form that names and describes a collection: its initial values, its
    button label, the description-length rule and the click handler that
    updates or creates the collection, refreshes the unassigned NFTs and
    moves to the next step. The API hooks are oracles that resolve or reject;
    the calls the handler makes are recorded in a trace. */
module CollectionForm {
  import opened Js

  const COLLECTION_DESCRIPTION_MAX_CHAR_COUNT := 300

  /** A collection's display layout; only its presence matters here. */
  datatype CollectionLayout = CollectionLayout(columns: nat)

  datatype Props = Props(
    collectionId: Option<string>,
    collectionName: Option<string>,
    collectionCollectorsNote: Option<string>,
    nftIds: Option<seq<string>>,
    layout: Option<CollectionLayout>)

  /** `unescape(prop) ?? ''`: an absent prop gives the empty string. */
  function InitialText(prop: Option<string>, unescape: string -> string): string
  {
    if prop.Some? then unescape(prop.value) else ""
  }

  /** `hasEnteredValue`. */
  predicate HasEnteredValue(title: string, description: string)
  {
    |title| > 0 || |description| > 0
  }

  /** `buttonText`: an `nftIds` array, even an empty one, is truthy. */
  function ButtonText(nftIds: Option<seq<string>>, title: string, description: string): (text: string)
    ensures text == "create" <==> nftIds.Some?
    ensures text == "save" <==> nftIds.None? && (title != "" || description != "")
    ensures text == "skip" <==> nftIds.None? && title == "" && description == ""
  {
    if nftIds.Some? then "create"
    else if HasEnteredValue(title, description) then "save"
    else "skip"
  }

  /** The click is refused before any request. */
  predicate DescriptionTooLong(description: string)
  {
    |description| > COLLECTION_DESCRIPTION_MAX_CHAR_COUNT
  }

  /** What the catch block sees: an `Error` instance, carrying what
      `formatError` makes of it, or any other thrown value. */
  datatype Thrown = ErrorInstance(formatted: string) | NonError

  /** How an awaited API call settles. */
  datatype Outcome = Resolved | Rejected(thrown: Thrown)

  /** The outcome each API hook gives if it is called. */
  datatype Oracles = Oracles(update: Outcome, create: Outcome, refresh: Outcome)

  /** The calls a click can make, in the order it makes them. */
  datatype Call =
    | UpdateCollection(collectionId: string, title: string, description: string)
    | CreateCollection(galleryId: string, title: string, description: string,
                       nftIds: seq<string>, layout: CollectionLayout)
    | RefreshUnassignedNfts
    | OnNext
    | HideModal

  /** The collection is being updated: `collectionId` is truthy. */
  predicate UpdatesCollection(props: Props)
  {
    Truthy(props.collectionId)
  }

  /** The collection is being created: no truthy id, and both `nftIds` and `layout` given. */
  predicate CreatesCollection(props: Props)
  {
    !Truthy(props.collectionId) && props.nftIds.Some? && props.layout.Some?
  }

  /** The try block of a click: the calls it makes and the value thrown, if one was. */
  datatype Attempt = Attempt(calls: seq<Call>, thrown: Option<Thrown>)

  /** Reference meaning of the try block: the update or create request, then
      the refresh, then the navigation; the first rejection ends it. */
  function Submit(props: Props, galleryId: string, title: string, description: string, oracles: Oracles): Attempt
  {
    var update := if UpdatesCollection(props) then [UpdateCollection(props.collectionId.value, title, description)] else [];
    var create := if CreatesCollection(props)
                  then [CreateCollection(galleryId, title, description, props.nftIds.value, props.layout.value)]
                  else [];
    if UpdatesCollection(props) && oracles.update.Rejected? then Attempt(update, Some(oracles.update.thrown))
    else if CreatesCollection(props) && oracles.create.Rejected? then Attempt(create, Some(oracles.create.thrown))
    else if oracles.refresh.Rejected? then Attempt(update + create + [RefreshUnassignedNfts], Some(oracles.refresh.thrown))
    else Attempt(update + create + [RefreshUnassignedNfts, OnNext, HideModal], None)
  }

  /** `generalError` after the catch block: set only for an `Error` instance. */
  function ErrorAfter(thrown: Option<Thrown>): string
  {
    if thrown.Some? && thrown.value.ErrorInstance? then thrown.value.formatted else ""
  }

  predicate CallsUpdate(calls: seq<Call>)
  {
    exists i :: 0 <= i < |calls| && calls[i].UpdateCollection?
  }

  predicate CallsCreate(calls: seq<Call>)
  {
    exists i :: 0 <= i < |calls| && calls[i].CreateCollection?
  }

  predicate Navigates(calls: seq<Call>)
  {
    exists i :: 0 <= i < |calls| && calls[i] == OnNext
  }

  /** Update is requested iff `collectionId` is truthy, create iff it is falsy and
      both `nftIds` and `layout` are given; never both. */
  lemma SubmitRequestsOneKind(props: Props, galleryId: string, title: string, description: string, oracles: Oracles)
    ensures var a := Submit(props, galleryId, title, description, oracles);
            (CallsUpdate(a.calls) <==> UpdatesCollection(props)) &&
            (CallsCreate(a.calls) <==> CreatesCollection(props)) &&
            !(CallsUpdate(a.calls) && CallsCreate(a.calls))
  {
    var a := Submit(props, galleryId, title, description, oracles);
    if UpdatesCollection(props) {
      assert a.calls[0].UpdateCollection?;
    }
    if CreatesCollection(props) {
      assert a.calls[0].CreateCollection?;
    }
  }

  /** The update request carries the id and the current title and description;
      the create request carries the gallery, the NFTs and the layout. */
  lemma SubmitRequestArguments(props: Props, galleryId: string, title: string, description: string, oracles: Oracles)
    ensures var a := Submit(props, galleryId, title, description, oracles);
            (UpdatesCollection(props) ==> a.calls[0] == UpdateCollection(props.collectionId.value, title, description)) &&
            (CreatesCollection(props) ==>
               a.calls[0] == CreateCollection(galleryId, title, description, props.nftIds.value, props.layout.value))
  {
  }

  /** Navigation happens iff nothing was thrown, and then it comes right after
      the refresh, which comes after any update or create. */
  lemma SubmitNavigatesOnlyOnSuccess(props: Props, galleryId: string, title: string, description: string, oracles: Oracles)
    ensures var a := Submit(props, galleryId, title, description, oracles);
            (Navigates(a.calls) <==> a.thrown.None?) &&
            (a.thrown.None? ==> |a.calls| >= 3 && a.calls[|a.calls| - 3..] == [RefreshUnassignedNfts, OnNext, HideModal] &&
                                forall i :: 0 <= i < |a.calls| - 3 ==> a.calls[i].UpdateCollection? || a.calls[i].CreateCollection?)
  {
    var a := Submit(props, galleryId, title, description, oracles);
    if a.thrown.None? {
      assert a.calls[|a.calls| - 2] == OnNext;
    }
  }

  /** The try block ends by a throw exactly when one of the hooks it called
      rejected: update when updating, create when creating, and always refresh. */
  lemma SubmitFailsIffCalledHookRejects(props: Props, galleryId: string, title: string, description: string, oracles: Oracles)
    ensures var a := Submit(props, galleryId, title, description, oracles);
            a.thrown.Some? <==>
              (UpdatesCollection(props) && oracles.update.Rejected?) ||
              (CreatesCollection(props) && oracles.create.Rejected?) ||
              oracles.refresh.Rejected?
  {
  }

  class CollectionCreateOrEditForm {
    const props: Props
    /** The authenticated user's gallery (`useAuthenticatedGallery`). */
    const galleryId: string
    var title: string
    var description: string
    var generalError: string
    var isLoading: bool
    /** The calls made so far, in order. */
    var trace: seq<Call>

    /** The form as first rendered; `lodash.unescape` is passed in. */
    constructor (props: Props, galleryId: string, unescape: string -> string)
      ensures this.props == props && this.galleryId == galleryId
      ensures title == InitialText(props.collectionName, unescape)
      ensures description == InitialText(props.collectionCollectorsNote, unescape)
      ensures props.collectionName.None? ==> title == ""
      ensures props.collectionCollectorsNote.None? ==> description == ""
      ensures generalError == "" && !isLoading && trace == []
    {
      this.props := props;
      this.galleryId := galleryId;
      title := InitialText(props.collectionName, unescape);
      description := InitialText(props.collectionCollectorsNote, unescape);
      generalError := "";
      isLoading := false;
      trace := [];
    }

    /** `handleNameChange`. */
    method ChangeTitle(value: string)
      modifies this`title
      ensures title == value
    {
      title := value;
    }

    /** `handleDescriptionChange`. */
    method ChangeDescription(value: string)
      modifies this`description
      ensures description == value
    {
      description := value;
    }

    /** The label of the submit button. */
    function ButtonLabel(): string
      reads this
    {
      ButtonText(props.nftIds, title, description)
    }

    /** `handleClick`, run to completion. */
    method HandleClick(oracles: Oracles)
      modifies this`generalError, this`isLoading, this`trace
      ensures DescriptionTooLong(description) ==>
                generalError == "" && isLoading == old(isLoading) && trace == old(trace)
      ensures !DescriptionTooLong(description) ==>
                var a := Submit(props, galleryId, title, description, oracles);
                trace == old(trace) + a.calls && generalError == ErrorAfter(a.thrown) && !isLoading
    {
      generalError := "";
      if |description| > COLLECTION_DESCRIPTION_MAX_CHAR_COUNT {
        return;
      }
      isLoading := true;
      var thrown: Option<Thrown> := None;
      if Truthy(props.collectionId) {
        trace := trace + [UpdateCollection(props.collectionId.value, title, description)];
        if oracles.update.Rejected? {
          thrown := Some(oracles.update.thrown);
        }
      }
      if thrown.None? && !Truthy(props.collectionId) && props.nftIds.Some? && props.layout.Some? {
        trace := trace + [CreateCollection(galleryId, title, description, props.nftIds.value, props.layout.value)];
        if oracles.create.Rejected? {
          thrown := Some(oracles.create.thrown);
        }
      }
      if thrown.None? {
        trace := trace + [RefreshUnassignedNfts];
        if oracles.refresh.Rejected? {
          thrown := Some(oracles.refresh.thrown);
        } else {
          trace := trace + [OnNext, HideModal];
        }
      }
      if thrown.Some? && thrown.value.ErrorInstance? {
        generalError := thrown.value.formatted;
      }
      isLoading := false;
    }
  }

  /** 300 characters are accepted, 301 are refused. */
  lemma DescriptionLimitIsInclusive(d300: string, d301: string)
    requires |d300| == 300 && |d301| == 301
    ensures !DescriptionTooLong(d300) && DescriptionTooLong(d301)
  {
  }
}
