/** What the composer keeps in browser storage and how it reads it back: the
    layer positions (no expiry, each missing field falling back to its own
    default) and the selected image URLs (valid for 24 hours). Storage is a
    value passed in and returned; the clock is a parameter. */
module ComposerStorage {

  import opened Wrappers
  import opened Composer
  import Text

  /** A storage entry as the composer finds it: absent (no entry, or an empty
      one), present but not parseable as JSON, or parsed. */
  datatype Entry<T> = Absent | Corrupt | Parsed(value: T)

  /** The saved position state; any field may be missing from the JSON. */
  datatype SavedPositions = SavedPositions(
    avatarPosition: Option<Position>,
    outfitPosition: Option<Position>,
    avatarSize: Option<Size>,
    outfitSize: Option<Size>)

  /** The saved image URLs and the time (milliseconds) they were saved; any
      field may be missing from the JSON. */
  datatype SavedUrls = SavedUrls(avatarUrl: Option<string>, outfitUrl: Option<string>, timestamp: Option<int>)

  /** The two composer entries of browser storage. */
  datatype Storage = Storage(positions: Entry<SavedPositions>, urls: Entry<SavedUrls>)

  /** What reading the URL entry does: set both URLs from it, remove it as
      expired, or nothing (no entry, or one that does not parse). */
  datatype UrlLoad = Restore(avatarUrl: Option<string>, outfitUrl: Option<string>) | RemoveExpired | NoUrls

  /** The composer's session state beside its positions. */
  datatype Session = Session(
    avatarUrl: Option<string>,
    outfitUrl: Option<string>,
    previewUrl: Option<string>,
    isAdjusting: bool,
    positions: PositionState)

  /** What the composer holds after mounting. */
  datatype Mounted = Mounted(positions: PositionState, urls: UrlLoad)

  /** Saved image URLs stay valid for 24 hours, in milliseconds. */
  const UrlLifetimeMs: int := 24 * 60 * 60 * 1000

  /** The entry written for a position state. */
  function SavePositionState(st: PositionState): SavedPositions {
    SavedPositions(Some(st.avatarPosition), Some(st.outfitPosition), Some(st.avatarSize), Some(st.outfitSize))
  }

  /** The position state rebuilt from a parsed entry: each field on its own
      falls back to its default when missing. */
  function RestorePositions(saved: SavedPositions): (st: PositionState)
    ensures st.avatarPosition == (if saved.avatarPosition.Some? then saved.avatarPosition.value else DefaultAvatarPosition)
    ensures st.outfitPosition == (if saved.outfitPosition.Some? then saved.outfitPosition.value else DefaultOutfitPosition)
    ensures st.avatarSize == (if saved.avatarSize.Some? then saved.avatarSize.value else DefaultAvatarSize)
    ensures st.outfitSize == (if saved.outfitSize.Some? then saved.outfitSize.value else DefaultOutfitSize)
  {
    PositionState(
      saved.avatarPosition.GetOr(DefaultAvatarPosition),
      saved.outfitPosition.GetOr(DefaultOutfitPosition),
      saved.avatarSize.GetOr(DefaultAvatarSize),
      saved.outfitSize.GetOr(DefaultOutfitSize))
  }

  /** Saving a position state and reading it back gives the same state. */
  lemma PositionsRoundTrip(st: PositionState)
    ensures RestorePositions(SavePositionState(st)) == st
  {
  }

  /** An entry with no fields restores exactly the defaults. */
  lemma EmptyEntryRestoresDefaults()
    ensures RestorePositions(SavedPositions(None, None, None, None)) == DefaultState
  {
  }

  /** Saved URLs are expired when more than 24 hours old. A missing timestamp
      makes the age NaN, and the comparison with NaN is false: such an entry
      never expires. */
  predicate IsExpired(saved: SavedUrls, now: int) {
    saved.timestamp.Some? && now - saved.timestamp.value > UrlLifetimeMs
  }

  /** Reading the URL entry at time `now`. */
  function LoadImageUrls(entry: Entry<SavedUrls>, now: int): (r: UrlLoad)
    ensures r.Restore? <==> entry.Parsed? && !IsExpired(entry.value, now)
    ensures r.Restore? ==> r.avatarUrl == entry.value.avatarUrl && r.outfitUrl == entry.value.outfitUrl
    ensures r.RemoveExpired? <==> entry.Parsed? && IsExpired(entry.value, now)
  {
    match entry
    case Absent => NoUrls
    case Corrupt => NoUrls
    case Parsed(saved) => if IsExpired(saved, now) then RemoveExpired else Restore(saved.avatarUrl, saved.outfitUrl)
  }

  /** The entry written when the selected URLs change at time `now`; nothing is
      written while neither URL is set. */
  function SaveImageUrls(avatarUrl: Option<string>, outfitUrl: Option<string>, now: int): (r: Option<SavedUrls>)
    ensures r.Some? <==> Text.Present(avatarUrl) || Text.Present(outfitUrl)
    ensures r.Some? ==> r.value.timestamp == Some(now)
  {
    if Text.Present(avatarUrl) || Text.Present(outfitUrl) then Some(SavedUrls(avatarUrl, outfitUrl, Some(now)))
    else None
  }

  /** URLs saved at `saved` and read at `now` are restored unchanged exactly
      when at most 24 hours have passed (24 hours to the millisecond still
      counts), and the entry is removed otherwise. */
  lemma UrlCacheRoundTrip(avatarUrl: Option<string>, outfitUrl: Option<string>, saved: int, now: int)
    requires Text.Present(avatarUrl) || Text.Present(outfitUrl)
    ensures var load := LoadImageUrls(Parsed(SaveImageUrls(avatarUrl, outfitUrl, saved).value), now);
            && (now - saved <= 86400000 ==> load == Restore(avatarUrl, outfitUrl))
            && (now - saved > 86400000 ==> load == RemoveExpired)
  {
  }

  /** Mounting the composer: a stored position entry replaces the defaults
      field by field, then the URL entry is read. An entry that does not parse
      throws before the URLs are read, so they are not restored. */
  function Mount(storage: Storage, now: int): (m: Mounted)
    ensures storage.positions.Parsed? ==> m.positions == RestorePositions(storage.positions.value)
    ensures !storage.positions.Parsed? ==> m.positions == DefaultState
    ensures storage.positions.Corrupt? ==> m.urls == NoUrls
    ensures !storage.positions.Corrupt? ==> m.urls == LoadImageUrls(storage.urls, now)
  {
    match storage.positions
    case Corrupt => Mounted(DefaultState, NoUrls)
    case Absent => Mounted(DefaultState, LoadImageUrls(storage.urls, now))
    case Parsed(saved) => Mounted(RestorePositions(saved), LoadImageUrls(storage.urls, now))
  }

  /** Restoring the URLs on mount sets them, and the URL effect then writes
      them back stamped with the current time: the 24 hours start again, so
      the URLs still come back at a later mount within 24 hours of this one,
      however old the original entry is. */
  lemma RestoreSlidesWindow(storage: Storage, now: int, later: int)
    requires !storage.positions.Corrupt? && storage.urls.Parsed?
    requires !IsExpired(storage.urls.value, now)
    requires Text.Present(storage.urls.value.avatarUrl) || Text.Present(storage.urls.value.outfitUrl)
    requires later - now <= UrlLifetimeMs
    ensures var a := storage.urls.value.avatarUrl;
            var o := storage.urls.value.outfitUrl;
            && Mount(storage, now).urls == Restore(a, o)
            && LoadImageUrls(Parsed(SaveImageUrls(a, o, now).value), later) == Restore(a, o)
  {
    UrlCacheRoundTrip(storage.urls.value.avatarUrl, storage.urls.value.outfitUrl, now, later);
  }

  /** The storage after the URL entry has been read: an expired entry is
      removed, anything else stays. */
  function AfterUrlLoad(storage: Storage, load: UrlLoad): (s: Storage)
    ensures s.positions == storage.positions
    ensures load.RemoveExpired? ==> s.urls == Absent
    ensures !load.RemoveExpired? ==> s == storage
  {
    if load.RemoveExpired? then storage.(urls := Absent) else storage
  }

  /** What a user action does: the new session and storage, whether a new
      composition is started (which later replaces the preview), and whether
      the parent's remove callback fires. */
  datatype Change = Change(session: Session, storage: Storage, recompose: bool, notifyRemove: bool)

  /** Both images are selected, so a composition can be started. */
  predicate BothSelected(session: Session) {
    Text.Present(session.avatarUrl) && Text.Present(session.outfitUrl)
  }

  /** A drag update: the layer's position is replaced, the whole state is
      written back, and a new composition is started when both images are
      selected. Until it finishes the preview is the old one. */
  function SaveAfterUpdate(session: Session, storage: Storage, layer: Layer, p: Position): (r: Change)
    ensures r.session.positions == UpdatePositionState(session.positions, layer, p)
    ensures r.session.(positions := session.positions) == session
    ensures r.storage == storage.(positions := Parsed(SavePositionState(r.session.positions)))
    ensures r.recompose <==> BothSelected(session)
    ensures !r.notifyRemove
  {
    var st := UpdatePositionState(session.positions, layer, p);
    Change(session.(positions := st), storage.(positions := Parsed(SavePositionState(st))),
           BothSelected(session), false)
  }

  /** "Reset positions": the defaults are restored and saved; the selected
      images and the adjusting mode stay, and the new positions start a new
      composition when both images are selected. */
  function ResetPositions(session: Session, storage: Storage): (r: Change)
    ensures r.session.positions == DefaultState
    ensures r.session.avatarUrl == session.avatarUrl && r.session.outfitUrl == session.outfitUrl
    ensures r.session.previewUrl == session.previewUrl && r.session.isAdjusting == session.isAdjusting
    ensures r.storage.urls == storage.urls
    ensures r.storage.positions.Parsed? && RestorePositions(r.storage.positions.value) == DefaultState
    ensures r.recompose <==> BothSelected(session)
    ensures !r.notifyRemove
  {
    Change(session.(positions := DefaultState), storage.(positions := Parsed(SavePositionState(DefaultState))),
           BothSelected(session), false)
  }

  /** "Clear selection": both images, the preview and the adjusting mode are
      cleared, the URL entry removed, the default positions restored and
      saved, and the parent's remove callback fires. With no image left, the
      new positions start no composition. */
  function ClearAll(session: Session, storage: Storage): (r: Change)
    ensures r.session == Session(None, None, None, false, DefaultState)
    ensures r.storage.urls == Absent
    ensures r.storage.positions.Parsed? && RestorePositions(r.storage.positions.value) == DefaultState
    ensures !r.recompose && r.notifyRemove
  {
    var cleared := Session(None, None, None, false, DefaultState);
    Change(cleared, Storage(Parsed(SavePositionState(DefaultState)), Absent), BothSelected(cleared), true)
  }

  /** After clearing, neither a drag update nor a reset starts a composition,
      while with both images selected each of them does. */
  lemma RecomposeNeedsBothImages(session: Session, storage: Storage, layer: Layer, p: Position)
    ensures var c := ClearAll(session, storage);
            && !SaveAfterUpdate(c.session, c.storage, layer, p).recompose
            && !ResetPositions(c.session, c.storage).recompose
    ensures BothSelected(session) ==>
              SaveAfterUpdate(session, storage, layer, p).recompose && ResetPositions(session, storage).recompose
  {
  }

  /** After a reset, a remount at any time starts from the defaults, and after
      clearing no URLs come back. */
  lemma ResetSurvivesRemount(session: Session, storage: Storage, now: int)
    ensures Mount(ResetPositions(session, storage).storage, now).positions == DefaultState
    ensures Mount(ClearAll(session, storage).storage, now) == Mounted(DefaultState, NoUrls)
  {
  }

  /** The default values, as written in the composer. */
  lemma DefaultValues()
    ensures DefaultState.avatarPosition == Position(0.5, 0.06) && DefaultState.avatarSize == Size(0.28, 0.28)
    ensures DefaultState.outfitPosition == Position(0.5, 0.4) && DefaultState.outfitSize == Size(0.72, 0.72)
  {
  }
}
