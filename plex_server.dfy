/** Response shapes of the local media server (`schemas/plex-server.ts`). Each endpoint has
    its own flat record and its own `MediaContainer` envelope; overlapping fields are
    repeated per shape, not shared, because each endpoint's set of optional fields differs.

    For every shape `X` there is a predicate `IsX(j, v)` (the schema's declaration: payload
    `j` decodes to `v`) and a decoder `DecodeX` proved to return exactly that `v`, and to
    fail only when no `v` exists. The JSON key `type` is the field `kind`. */
module PlexServer {
  import opened Wrappers
  import opened Json

  // ---------------------------------------------------------------------------
  // GET /library/sections
  // ---------------------------------------------------------------------------

  datatype LibrarySection = LibrarySection(key: string, title: string, kind: string, agent: string, scanner: string, uuid: string)

  predicate IsLibrarySection(j: Json, s: LibrarySection) {
    j.JObj? &&
    var o := j.fields;
    HasString(o, "key", s.key) && HasString(o, "title", s.title) && HasString(o, "type", s.kind)
    && HasString(o, "agent", s.agent) && HasString(o, "scanner", s.scanner) && HasString(o, "uuid", s.uuid)
  }

  function DecodeLibrarySection(j: Json): (r: Decoded<LibrarySection>)
    ensures r.Ok? ==> IsLibrarySection(j, r.value)
    ensures r.Err? ==> forall s :: !IsLibrarySection(j, s)
  {
    var o :- AsObject(j);
    var key :- RequiredString(o, "key");
    var title :- RequiredString(o, "title");
    var kind :- RequiredString(o, "type");
    var agent :- RequiredString(o, "agent");
    var scanner :- RequiredString(o, "scanner");
    var uuid :- RequiredString(o, "uuid");
    Ok(LibrarySection(key, title, kind, agent, scanner, uuid))
  }

  datatype SectionsContainer = SectionsContainer(size: int, directory: seq<LibrarySection>)

  datatype LibrarySectionsResponse = LibrarySectionsResponse(mediaContainer: SectionsContainer)

  ghost predicate IsSectionsContainer(j: Json, c: SectionsContainer) {
    j.JObj? && HasNumber(j.fields, "size", c.size) && ArrayOrEmpty(j.fields, "Directory", c.directory, IsLibrarySection)
  }

  function DecodeSectionsContainer(j: Json): (r: Decoded<SectionsContainer>)
    ensures r.Ok? ==> IsSectionsContainer(j, r.value)
    ensures r.Err? ==> forall c :: !IsSectionsContainer(j, c)
  {
    var o :- AsObject(j);
    var size :- RequiredNumber(o, "size");
    var directory :- DefaultArray(o, "Directory", DecodeLibrarySection, IsLibrarySection);
    Ok(SectionsContainer(size, directory))
  }

  ghost predicate IsLibrarySectionsResponse(j: Json, r: LibrarySectionsResponse) {
    j.JObj? && "MediaContainer" in j.fields && IsSectionsContainer(j.fields["MediaContainer"], r.mediaContainer)
  }

  function DecodeLibrarySectionsResponse(j: Json): (r: Decoded<LibrarySectionsResponse>)
    ensures r.Ok? ==> IsLibrarySectionsResponse(j, r.value)
    ensures r.Err? ==> forall v :: !IsLibrarySectionsResponse(j, v)
  {
    var o :- AsObject(j);
    var c :- RequiredRecord(o, "MediaContainer", DecodeSectionsContainer, IsSectionsContainer);
    Ok(LibrarySectionsResponse(c))
  }

  // ---------------------------------------------------------------------------
  // GET /library/sections/{id}/all and GET /library/metadata/{id}
  // ---------------------------------------------------------------------------

  datatype MediaItem = MediaItem(
    ratingKey: string, key: string, kind: string, title: string,
    thumb: string, summary: string,
    year: Option<int>, viewCount: Option<int>, leafCount: Option<int>, viewedLeafCount: Option<int>,
    addedAt: int,
    updatedAt: Option<int>, librarySectionID: Option<int>)

  predicate IsMediaItem(j: Json, m: MediaItem) {
    j.JObj? &&
    var o := j.fields;
    HasString(o, "ratingKey", m.ratingKey) && HasString(o, "key", m.key) && HasString(o, "type", m.kind)
    && HasString(o, "title", m.title) && StringOrDefault(o, "thumb", m.thumb) && StringOrDefault(o, "summary", m.summary)
    && NumberOption(o, "year", m.year) && NumberOption(o, "viewCount", m.viewCount)
    && NumberOption(o, "leafCount", m.leafCount) && NumberOption(o, "viewedLeafCount", m.viewedLeafCount)
    && HasNumber(o, "addedAt", m.addedAt)
    && NumberOption(o, "updatedAt", m.updatedAt) && NumberOption(o, "librarySectionID", m.librarySectionID)
  }

  function DecodeMediaItem(j: Json): (r: Decoded<MediaItem>)
    ensures r.Ok? ==> IsMediaItem(j, r.value)
    ensures r.Err? ==> forall m :: !IsMediaItem(j, m)
  {
    var o :- AsObject(j);
    var ratingKey :- RequiredString(o, "ratingKey");
    var key :- RequiredString(o, "key");
    var kind :- RequiredString(o, "type");
    var title :- RequiredString(o, "title");
    var thumb :- DefaultString(o, "thumb");
    var summary :- DefaultString(o, "summary");
    var year :- OptionNumber(o, "year");
    var viewCount :- OptionNumber(o, "viewCount");
    var leafCount :- OptionNumber(o, "leafCount");
    var viewedLeafCount :- OptionNumber(o, "viewedLeafCount");
    var addedAt :- RequiredNumber(o, "addedAt");
    var updatedAt :- OptionNumber(o, "updatedAt");
    var librarySectionID :- OptionNumber(o, "librarySectionID");
    Ok(MediaItem(ratingKey, key, kind, title, thumb, summary, year, viewCount, leafCount,
                 viewedLeafCount, addedAt, updatedAt, librarySectionID))
  }

  datatype ItemsContainer = ItemsContainer(size: int, librarySectionID: Option<int>, metadata: seq<MediaItem>)

  datatype LibraryItemsResponse = LibraryItemsResponse(mediaContainer: ItemsContainer)

  ghost predicate IsItemsContainer(j: Json, c: ItemsContainer) {
    j.JObj? && HasNumber(j.fields, "size", c.size) && NumberOption(j.fields, "librarySectionID", c.librarySectionID)
    && ArrayOrEmpty(j.fields, "Metadata", c.metadata, IsMediaItem)
  }

  function DecodeItemsContainer(j: Json): (r: Decoded<ItemsContainer>)
    ensures r.Ok? ==> IsItemsContainer(j, r.value)
    ensures r.Err? ==> forall c :: !IsItemsContainer(j, c)
  {
    var o :- AsObject(j);
    var size :- RequiredNumber(o, "size");
    var librarySectionID :- OptionNumber(o, "librarySectionID");
    var metadata :- DefaultArray(o, "Metadata", DecodeMediaItem, IsMediaItem);
    Ok(ItemsContainer(size, librarySectionID, metadata))
  }

  ghost predicate IsLibraryItemsResponse(j: Json, r: LibraryItemsResponse) {
    j.JObj? && "MediaContainer" in j.fields && IsItemsContainer(j.fields["MediaContainer"], r.mediaContainer)
  }

  function DecodeLibraryItemsResponse(j: Json): (r: Decoded<LibraryItemsResponse>)
    ensures r.Ok? ==> IsLibraryItemsResponse(j, r.value)
    ensures r.Err? ==> forall v :: !IsLibraryItemsResponse(j, v)
  {
    var o :- AsObject(j);
    var c :- RequiredRecord(o, "MediaContainer", DecodeItemsContainer, IsItemsContainer);
    Ok(LibraryItemsResponse(c))
  }

  datatype MetadataContainer = MetadataContainer(size: int, metadata: seq<MediaItem>)

  datatype MetadataResponse = MetadataResponse(mediaContainer: MetadataContainer)

  ghost predicate IsMetadataContainer(j: Json, c: MetadataContainer) {
    j.JObj? && HasNumber(j.fields, "size", c.size) && ArrayOrEmpty(j.fields, "Metadata", c.metadata, IsMediaItem)
  }

  function DecodeMetadataContainer(j: Json): (r: Decoded<MetadataContainer>)
    ensures r.Ok? ==> IsMetadataContainer(j, r.value)
    ensures r.Err? ==> forall c :: !IsMetadataContainer(j, c)
  {
    var o :- AsObject(j);
    var size :- RequiredNumber(o, "size");
    var metadata :- DefaultArray(o, "Metadata", DecodeMediaItem, IsMediaItem);
    Ok(MetadataContainer(size, metadata))
  }

  ghost predicate IsMetadataResponse(j: Json, r: MetadataResponse) {
    j.JObj? && "MediaContainer" in j.fields && IsMetadataContainer(j.fields["MediaContainer"], r.mediaContainer)
  }

  function DecodeMetadataResponse(j: Json): (r: Decoded<MetadataResponse>)
    ensures r.Ok? ==> IsMetadataResponse(j, r.value)
    ensures r.Err? ==> forall v :: !IsMetadataResponse(j, v)
  {
    var o :- AsObject(j);
    var c :- RequiredRecord(o, "MediaContainer", DecodeMetadataContainer, IsMetadataContainer);
    Ok(MetadataResponse(c))
  }

  // ---------------------------------------------------------------------------
  // GET /library/metadata/{id}/children
  // ---------------------------------------------------------------------------

  datatype ChildItem = ChildItem(
    ratingKey: string, key: string, kind: string, title: string,
    index: Option<int>, thumb: string, leafCount: Option<int>, viewedLeafCount: Option<int>,
    addedAt: int)

  predicate IsChildItem(j: Json, c: ChildItem) {
    j.JObj? &&
    var o := j.fields;
    HasString(o, "ratingKey", c.ratingKey) && HasString(o, "key", c.key) && HasString(o, "type", c.kind)
    && HasString(o, "title", c.title) && NumberOption(o, "index", c.index) && StringOrDefault(o, "thumb", c.thumb)
    && NumberOption(o, "leafCount", c.leafCount) && NumberOption(o, "viewedLeafCount", c.viewedLeafCount)
    && HasNumber(o, "addedAt", c.addedAt)
  }

  function DecodeChildItem(j: Json): (r: Decoded<ChildItem>)
    ensures r.Ok? ==> IsChildItem(j, r.value)
    ensures r.Err? ==> forall c :: !IsChildItem(j, c)
  {
    var o :- AsObject(j);
    var ratingKey :- RequiredString(o, "ratingKey");
    var key :- RequiredString(o, "key");
    var kind :- RequiredString(o, "type");
    var title :- RequiredString(o, "title");
    var index :- OptionNumber(o, "index");
    var thumb :- DefaultString(o, "thumb");
    var leafCount :- OptionNumber(o, "leafCount");
    var viewedLeafCount :- OptionNumber(o, "viewedLeafCount");
    var addedAt :- RequiredNumber(o, "addedAt");
    Ok(ChildItem(ratingKey, key, kind, title, index, thumb, leafCount, viewedLeafCount, addedAt))
  }

  datatype ChildrenContainer = ChildrenContainer(size: int, metadata: seq<ChildItem>)

  datatype ChildrenResponse = ChildrenResponse(mediaContainer: ChildrenContainer)

  ghost predicate IsChildrenContainer(j: Json, c: ChildrenContainer) {
    j.JObj? && HasNumber(j.fields, "size", c.size) && ArrayOrEmpty(j.fields, "Metadata", c.metadata, IsChildItem)
  }

  function DecodeChildrenContainer(j: Json): (r: Decoded<ChildrenContainer>)
    ensures r.Ok? ==> IsChildrenContainer(j, r.value)
    ensures r.Err? ==> forall c :: !IsChildrenContainer(j, c)
  {
    var o :- AsObject(j);
    var size :- RequiredNumber(o, "size");
    var metadata :- DefaultArray(o, "Metadata", DecodeChildItem, IsChildItem);
    Ok(ChildrenContainer(size, metadata))
  }

  ghost predicate IsChildrenResponse(j: Json, r: ChildrenResponse) {
    j.JObj? && "MediaContainer" in j.fields && IsChildrenContainer(j.fields["MediaContainer"], r.mediaContainer)
  }

  function DecodeChildrenResponse(j: Json): (r: Decoded<ChildrenResponse>)
    ensures r.Ok? ==> IsChildrenResponse(j, r.value)
    ensures r.Err? ==> forall v :: !IsChildrenResponse(j, v)
  {
    var o :- AsObject(j);
    var c :- RequiredRecord(o, "MediaContainer", DecodeChildrenContainer, IsChildrenContainer);
    Ok(ChildrenResponse(c))
  }

  // ---------------------------------------------------------------------------
  // GET /library/metadata/{id}/allLeaves
  // ---------------------------------------------------------------------------

  datatype LeafItem = LeafItem(
    ratingKey: string, key: string, kind: string, title: string,
    grandparentRatingKey: Option<string>, grandparentTitle: Option<string>, parentRatingKey: Option<string>,
    parentIndex: Option<int>, index: Option<int>, thumb: string, viewCount: Option<int>,
    addedAt: int)

  predicate IsLeafItem(j: Json, l: LeafItem) {
    j.JObj? &&
    var o := j.fields;
    HasString(o, "ratingKey", l.ratingKey) && HasString(o, "key", l.key) && HasString(o, "type", l.kind)
    && HasString(o, "title", l.title)
    && StringOption(o, "grandparentRatingKey", l.grandparentRatingKey)
    && StringOption(o, "grandparentTitle", l.grandparentTitle)
    && StringOption(o, "parentRatingKey", l.parentRatingKey)
    && NumberOption(o, "parentIndex", l.parentIndex) && NumberOption(o, "index", l.index)
    && StringOrDefault(o, "thumb", l.thumb) && NumberOption(o, "viewCount", l.viewCount)
    && HasNumber(o, "addedAt", l.addedAt)
  }

  function DecodeLeafItem(j: Json): (r: Decoded<LeafItem>)
    ensures r.Ok? ==> IsLeafItem(j, r.value)
    ensures r.Err? ==> forall l :: !IsLeafItem(j, l)
  {
    var o :- AsObject(j);
    var ratingKey :- RequiredString(o, "ratingKey");
    var key :- RequiredString(o, "key");
    var kind :- RequiredString(o, "type");
    var title :- RequiredString(o, "title");
    var grandparentRatingKey :- OptionString(o, "grandparentRatingKey");
    var grandparentTitle :- OptionString(o, "grandparentTitle");
    var parentRatingKey :- OptionString(o, "parentRatingKey");
    var parentIndex :- OptionNumber(o, "parentIndex");
    var index :- OptionNumber(o, "index");
    var thumb :- DefaultString(o, "thumb");
    var viewCount :- OptionNumber(o, "viewCount");
    var addedAt :- RequiredNumber(o, "addedAt");
    Ok(LeafItem(ratingKey, key, kind, title, grandparentRatingKey, grandparentTitle, parentRatingKey,
                parentIndex, index, thumb, viewCount, addedAt))
  }

  datatype LeavesContainer = LeavesContainer(size: int, metadata: seq<LeafItem>)

  datatype LeavesResponse = LeavesResponse(mediaContainer: LeavesContainer)

  ghost predicate IsLeavesContainer(j: Json, c: LeavesContainer) {
    j.JObj? && HasNumber(j.fields, "size", c.size) && ArrayOrEmpty(j.fields, "Metadata", c.metadata, IsLeafItem)
  }

  function DecodeLeavesContainer(j: Json): (r: Decoded<LeavesContainer>)
    ensures r.Ok? ==> IsLeavesContainer(j, r.value)
    ensures r.Err? ==> forall c :: !IsLeavesContainer(j, c)
  {
    var o :- AsObject(j);
    var size :- RequiredNumber(o, "size");
    var metadata :- DefaultArray(o, "Metadata", DecodeLeafItem, IsLeafItem);
    Ok(LeavesContainer(size, metadata))
  }

  ghost predicate IsLeavesResponse(j: Json, r: LeavesResponse) {
    j.JObj? && "MediaContainer" in j.fields && IsLeavesContainer(j.fields["MediaContainer"], r.mediaContainer)
  }

  function DecodeLeavesResponse(j: Json): (r: Decoded<LeavesResponse>)
    ensures r.Ok? ==> IsLeavesResponse(j, r.value)
    ensures r.Err? ==> forall v :: !IsLeavesResponse(j, v)
  {
    var o :- AsObject(j);
    var c :- RequiredRecord(o, "MediaContainer", DecodeLeavesContainer, IsLeavesContainer);
    Ok(LeavesResponse(c))
  }

  // ---------------------------------------------------------------------------
  // GET /status/sessions/history/all
  // ---------------------------------------------------------------------------

  datatype HistoryItem = HistoryItem(
    ratingKey: string, key: string, kind: string, title: string,
    parentRatingKey: Option<string>, grandparentRatingKey: Option<string>,
    accountID: int, viewedAt: int)

  predicate IsHistoryItem(j: Json, h: HistoryItem) {
    j.JObj? &&
    var o := j.fields;
    HasString(o, "ratingKey", h.ratingKey) && HasString(o, "key", h.key) && HasString(o, "type", h.kind)
    && HasString(o, "title", h.title)
    && StringOption(o, "parentRatingKey", h.parentRatingKey)
    && StringOption(o, "grandparentRatingKey", h.grandparentRatingKey)
    && HasNumber(o, "accountID", h.accountID) && HasNumber(o, "viewedAt", h.viewedAt)
  }

  function DecodeHistoryItem(j: Json): (r: Decoded<HistoryItem>)
    ensures r.Ok? ==> IsHistoryItem(j, r.value)
    ensures r.Err? ==> forall h :: !IsHistoryItem(j, h)
  {
    var o :- AsObject(j);
    var ratingKey :- RequiredString(o, "ratingKey");
    var key :- RequiredString(o, "key");
    var kind :- RequiredString(o, "type");
    var title :- RequiredString(o, "title");
    var parentRatingKey :- OptionString(o, "parentRatingKey");
    var grandparentRatingKey :- OptionString(o, "grandparentRatingKey");
    var accountID :- RequiredNumber(o, "accountID");
    var viewedAt :- RequiredNumber(o, "viewedAt");
    Ok(HistoryItem(ratingKey, key, kind, title, parentRatingKey, grandparentRatingKey, accountID, viewedAt))
  }

  datatype HistoryContainer = HistoryContainer(size: int, metadata: seq<HistoryItem>)

  datatype HistoryResponse = HistoryResponse(mediaContainer: HistoryContainer)

  ghost predicate IsHistoryContainer(j: Json, c: HistoryContainer) {
    j.JObj? && HasNumber(j.fields, "size", c.size) && ArrayOrEmpty(j.fields, "Metadata", c.metadata, IsHistoryItem)
  }

  function DecodeHistoryContainer(j: Json): (r: Decoded<HistoryContainer>)
    ensures r.Ok? ==> IsHistoryContainer(j, r.value)
    ensures r.Err? ==> forall c :: !IsHistoryContainer(j, c)
  {
    var o :- AsObject(j);
    var size :- RequiredNumber(o, "size");
    var metadata :- DefaultArray(o, "Metadata", DecodeHistoryItem, IsHistoryItem);
    Ok(HistoryContainer(size, metadata))
  }

  ghost predicate IsHistoryResponse(j: Json, r: HistoryResponse) {
    j.JObj? && "MediaContainer" in j.fields && IsHistoryContainer(j.fields["MediaContainer"], r.mediaContainer)
  }

  function DecodeHistoryResponse(j: Json): (r: Decoded<HistoryResponse>)
    ensures r.Ok? ==> IsHistoryResponse(j, r.value)
    ensures r.Err? ==> forall v :: !IsHistoryResponse(j, v)
  {
    var o :- AsObject(j);
    var c :- RequiredRecord(o, "MediaContainer", DecodeHistoryContainer, IsHistoryContainer);
    Ok(HistoryResponse(c))
  }

  // ---------------------------------------------------------------------------
  // Properties of the server schemas
  // ---------------------------------------------------------------------------

  /** The schemas are functions of the payload: a decoded response is the only value
      the declaration allows. */
  lemma ItemShapesFunctional()
    ensures Functional(IsLibrarySection) && Functional(IsMediaItem) && Functional(IsChildItem)
    ensures Functional(IsLeafItem) && Functional(IsHistoryItem)
  {
  }

  lemma {:induction false} SectionsResponseFunctional(j: Json, a: LibrarySectionsResponse, b: LibrarySectionsResponse)
    requires IsLibrarySectionsResponse(j, a) && IsLibrarySectionsResponse(j, b)
    ensures a == b
  {
    ItemShapesFunctional();
    var c := j.fields["MediaContainer"].fields;
    ArrayOrEmptyFunctional(c, "Directory", a.mediaContainer.directory, b.mediaContainer.directory, IsLibrarySection);
  }

  lemma {:induction false} LibraryItemsResponseFunctional(j: Json, a: LibraryItemsResponse, b: LibraryItemsResponse)
    requires IsLibraryItemsResponse(j, a) && IsLibraryItemsResponse(j, b)
    ensures a == b
  {
    ItemShapesFunctional();
    var c := j.fields["MediaContainer"].fields;
    ArrayOrEmptyFunctional(c, "Metadata", a.mediaContainer.metadata, b.mediaContainer.metadata, IsMediaItem);
  }

  lemma {:induction false} MetadataResponseFunctional(j: Json, a: MetadataResponse, b: MetadataResponse)
    requires IsMetadataResponse(j, a) && IsMetadataResponse(j, b)
    ensures a == b
  {
    ItemShapesFunctional();
    var c := j.fields["MediaContainer"].fields;
    ArrayOrEmptyFunctional(c, "Metadata", a.mediaContainer.metadata, b.mediaContainer.metadata, IsMediaItem);
  }

  lemma {:induction false} ChildrenResponseFunctional(j: Json, a: ChildrenResponse, b: ChildrenResponse)
    requires IsChildrenResponse(j, a) && IsChildrenResponse(j, b)
    ensures a == b
  {
    ItemShapesFunctional();
    var c := j.fields["MediaContainer"].fields;
    ArrayOrEmptyFunctional(c, "Metadata", a.mediaContainer.metadata, b.mediaContainer.metadata, IsChildItem);
  }

  lemma {:induction false} LeavesResponseFunctional(j: Json, a: LeavesResponse, b: LeavesResponse)
    requires IsLeavesResponse(j, a) && IsLeavesResponse(j, b)
    ensures a == b
  {
    ItemShapesFunctional();
    var c := j.fields["MediaContainer"].fields;
    ArrayOrEmptyFunctional(c, "Metadata", a.mediaContainer.metadata, b.mediaContainer.metadata, IsLeafItem);
  }

  lemma {:induction false} HistoryResponseFunctional(j: Json, a: HistoryResponse, b: HistoryResponse)
    requires IsHistoryResponse(j, a) && IsHistoryResponse(j, b)
    ensures a == b
  {
    ItemShapesFunctional();
    var c := j.fields["MediaContainer"].fields;
    ArrayOrEmptyFunctional(c, "Metadata", a.mediaContainer.metadata, b.mediaContainer.metadata, IsHistoryItem);
  }

  /** The `MediaContainer` envelope of a server response, with the given fields. */
  function Envelope(c: Object): Json {
    JObj(map["MediaContainer" := JObj(c)])
  }

  /** A sections envelope without `Directory` decodes to no sections. */
  lemma MissingDirectoryIsEmpty(c: Object, size: int)
    requires "Directory" !in c
    requires "size" in c && c["size"] == JNum(size)
    ensures DecodeLibrarySectionsResponse(Envelope(c)) == Ok(LibrarySectionsResponse(SectionsContainer(size, [])))
  {
  }

  /** A `Metadata`-less envelope decodes to no items, in every container that has one.
      Only the library-items container also reads `librarySectionID`: absent it is `None`, a
      number it is kept, and any other value fails the response. */
  lemma MissingMetadataIsEmpty(c: Object, size: int)
    requires "Metadata" !in c
    requires "size" in c && c["size"] == JNum(size)
    ensures "librarySectionID" !in c ==>
              DecodeLibraryItemsResponse(Envelope(c)) == Ok(LibraryItemsResponse(ItemsContainer(size, None, [])))
    ensures "librarySectionID" in c && c["librarySectionID"].JNum? ==>
              DecodeLibraryItemsResponse(Envelope(c))
              == Ok(LibraryItemsResponse(ItemsContainer(size, Some(c["librarySectionID"].n), [])))
    ensures "librarySectionID" in c && !c["librarySectionID"].JNum? ==> DecodeLibraryItemsResponse(Envelope(c)).Err?
    ensures DecodeMetadataResponse(Envelope(c)) == Ok(MetadataResponse(MetadataContainer(size, [])))
    ensures DecodeChildrenResponse(Envelope(c)) == Ok(ChildrenResponse(ChildrenContainer(size, [])))
    ensures DecodeLeavesResponse(Envelope(c)) == Ok(LeavesResponse(LeavesContainer(size, [])))
    ensures DecodeHistoryResponse(Envelope(c)) == Ok(HistoryResponse(HistoryContainer(size, [])))
  {
  }

  /** `size` is required in every envelope: without a numeric `size` every server
      response fails to decode. */
  lemma SizeRequired(c: Object)
    requires !("size" in c && c["size"].JNum?)
    ensures DecodeLibrarySectionsResponse(Envelope(c)).Err?
    ensures DecodeLibraryItemsResponse(Envelope(c)).Err?
    ensures DecodeMetadataResponse(Envelope(c)).Err?
    ensures DecodeChildrenResponse(Envelope(c)).Err?
    ensures DecodeLeavesResponse(Envelope(c)).Err?
    ensures DecodeHistoryResponse(Envelope(c)).Err?
  {
  }

  /** Normalisation of a media item: absent `thumb`/`summary` become `""`, absent
      numeric optionals become `None`, and present ones are kept. */
  lemma MediaItemNormalisation(j: Json)
    requires DecodeMediaItem(j).Ok?
    ensures var m, o := DecodeMediaItem(j).value, j.fields;
      && (m.thumb == if "thumb" in o then o["thumb"].s else "")
      && (m.summary == if "summary" in o then o["summary"].s else "")
      && (m.year == if "year" in o then Some(o["year"].n) else None)
      && (m.viewCount == if "viewCount" in o then Some(o["viewCount"].n) else None)
      && (m.leafCount == if "leafCount" in o then Some(o["leafCount"].n) else None)
      && (m.viewedLeafCount == if "viewedLeafCount" in o then Some(o["viewedLeafCount"].n) else None)
      && (m.updatedAt == if "updatedAt" in o then Some(o["updatedAt"].n) else None)
      && (m.librarySectionID == if "librarySectionID" in o then Some(o["librarySectionID"].n) else None)
  {
  }

  /** Option fields keep falsy values: `year: 0` is `Some(0)` and `parentRatingKey: ""`
      is `Some("")`, both distinct from an absent key. */
  lemma OptionFieldsKeepFalsyValues(j: Json)
    requires j.JObj?
    ensures "year" in j.fields && j.fields["year"] == JNum(0) && DecodeMediaItem(j).Ok?
            ==> DecodeMediaItem(j).value.year == Some(0)
    ensures "parentRatingKey" in j.fields && j.fields["parentRatingKey"] == JStr("") && DecodeLeafItem(j).Ok?
            ==> DecodeLeafItem(j).value.parentRatingKey == Some("")
    ensures "parentRatingKey" in j.fields && j.fields["parentRatingKey"] == JStr("") && DecodeHistoryItem(j).Ok?
            ==> DecodeHistoryItem(j).value.parentRatingKey == Some("")
  {
  }

  /** `ratingKey`, `key`, `type` and `title` are required strings in every item shape, and
      `addedAt` a required number in media, child and leaf items. */
  lemma ItemRequiredFields(j: Json, k: string)
    requires j.JObj?
    ensures k in {"ratingKey", "key", "type", "title"} && !(k in j.fields && j.fields[k].JStr?) ==>
      DecodeMediaItem(j).Err? && DecodeChildItem(j).Err? && DecodeLeafItem(j).Err? && DecodeHistoryItem(j).Err?
    ensures k == "addedAt" && !(k in j.fields && j.fields[k].JNum?) ==>
      DecodeMediaItem(j).Err? && DecodeChildItem(j).Err? && DecodeLeafItem(j).Err?
  {
  }

  /** A library section needs all six of its string fields. */
  lemma LibrarySectionRequiresAll(j: Json, k: string)
    requires j.JObj?
    requires k in {"key", "title", "type", "agent", "scanner", "uuid"}
    requires !(k in j.fields && j.fields[k].JStr?)
    ensures DecodeLibrarySection(j).Err?
  {
  }

  /** In a history item `accountID` and `viewedAt` are required numbers; only the two parent
      keys are optional. */
  lemma HistoryItemRules(j: Json)
    requires j.JObj?
    ensures !("accountID" in j.fields && j.fields["accountID"].JNum?) ==> DecodeHistoryItem(j).Err?
    ensures !("viewedAt" in j.fields && j.fields["viewedAt"].JNum?) ==> DecodeHistoryItem(j).Err?
    ensures DecodeHistoryItem(j).Ok? && "parentRatingKey" !in j.fields ==> DecodeHistoryItem(j).value.parentRatingKey == None
    ensures DecodeHistoryItem(j).Ok? && "grandparentRatingKey" !in j.fields ==> DecodeHistoryItem(j).value.grandparentRatingKey == None
  {
  }

  /** One undecodable item fails the whole response, in every container with a `Metadata`
      list; a partial list is never returned. */
  lemma OneBadItemFailsResponse(c: Object, i: nat)
    requires "Metadata" in c && c["Metadata"].JArr? && i < |c["Metadata"].items|
    ensures var item := c["Metadata"].items[i];
            DecodeMediaItem(item).Err? ==>
              DecodeMetadataResponse(Envelope(c)).Err? && DecodeLibraryItemsResponse(Envelope(c)).Err?
    ensures DecodeChildItem(c["Metadata"].items[i]).Err? ==> DecodeChildrenResponse(Envelope(c)).Err?
    ensures DecodeLeafItem(c["Metadata"].items[i]).Err? ==> DecodeLeavesResponse(Envelope(c)).Err?
    ensures DecodeHistoryItem(c["Metadata"].items[i]).Err? ==> DecodeHistoryResponse(Envelope(c)).Err?
  {
  }

  /** `{"MediaContainer":{"size":1,"Directory":[{"key":"1","title":"Movies",...}]}}`
      decodes to one section titled "Movies". */
  lemma SectionsExample()
    ensures var movies := JObj(map["key" := JStr("1"), "title" := JStr("Movies"), "type" := JStr("movie"),
                                   "agent" := JStr("x"), "scanner" := JStr("y"), "uuid" := JStr("z")]);
            var r := DecodeLibrarySectionsResponse(Envelope(map["size" := JNum(1), "Directory" := JArr([movies])]));
            r.Ok? && |r.value.mediaContainer.directory| == 1 && r.value.mediaContainer.directory[0].title == "Movies"
  {
    var movies := JObj(map["key" := JStr("1"), "title" := JStr("Movies"), "type" := JStr("movie"),
                           "agent" := JStr("x"), "scanner" := JStr("y"), "uuid" := JStr("z")]);
    var section := LibrarySection("1", "Movies", "movie", "x", "y", "z");
    assert IsLibrarySection(movies, section);
    var j := Envelope(map["size" := JNum(1), "Directory" := JArr([movies])]);
    var expected := LibrarySectionsResponse(SectionsContainer(1, [section]));
    assert IsLibrarySectionsResponse(j, expected);
    var r := DecodeLibrarySectionsResponse(j);
    ItemShapesFunctional();
    ArrayOrEmptyFunctional(j.fields["MediaContainer"].fields, "Directory", r.value.mediaContainer.directory, [section], IsLibrarySection);
  }
}
