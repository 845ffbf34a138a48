/** The map-appearance dialog: an opacity slider whose input is normalised
    before it is broadcast, a highlight colour that can be restored to the
    stored default, two block-visibility toggles, the dialog's open/closed
    flag, and the reset of all of it when the page changes. Broadcasts go
    to an event log; the settings store is passed in where it is read. */
module MapAppearance {

  import opened Values

  /** The value the slider or the number field hands to `setOpacity`: a
      number, or a string together with what JavaScript's `Number(text)`
      makes of it (None for NaN). */
  datatype OpacityInput =
    | Number(value: real)
    | Text(text: string, numeric: Option<real>)

  /** `getMapSettings().highlightColor`: a colour object; only its `hex`
      is read here. */
  datatype Color = Color(hex: string)

  /** The settings held by the store (`getMapSettings()`). */
  datatype MapSettings = MapSettings(opacity: real, highlightColor: Color, showWaterBlocks: bool, showUnPopBlocks: bool)

  /** One broadcast on the event hub. */
  datatype AppearanceEvent =
    | SetOpacityEmit(opacity: OpacityInput)
    | UpdateHighlightEmit(hex: string)
    | SetWaterBlocksEmit(show: bool)
    | SetUnPopBlocksEmit(show: bool)

  /** The dialog's data fields. `mapSettings` is None while it is the empty
      object `{}`, `hlColors` is None while it is undefined. */
  datatype AppearanceData = AppearanceData(
    showModal: bool,
    mapSettings: Option<MapSettings>,
    opacity: real,
    hlColors: Option<Color>,
    showWaterBlocks: bool,
    showUnPopBlocks: bool,
    displayPicker: bool)

  /** `data()`: a closed dialog, an empty `mapSettings`, and the other
      fields read from the store. */
  function InitialData(store: MapSettings): (r: AppearanceData)
    ensures !r.showModal && !r.displayPicker && r.mapSettings.None?
    ensures r.opacity == store.opacity && r.hlColors == Some(store.highlightColor)
    ensures r.showWaterBlocks == store.showWaterBlocks && r.showUnPopBlocks == store.showUnPopBlocks
  {
    AppearanceData(false, None, store.opacity, Some(store.highlightColor),
                   store.showWaterBlocks, store.showUnPopBlocks, false)
  }

  /** `opacity > 100`, with JavaScript's conversion of a string operand; a
      NaN operand compares false. */
  predicate Above100(o: OpacityInput)
  {
    match o
    case Number(v) => v > 100.0
    case Text(_, n) => n.Some? && n.value > 100.0
  }

  /** `opacity < 0`, likewise. */
  predicate Below0(o: OpacityInput)
  {
    match o
    case Number(v) => v < 0.0
    case Text(_, n) => n.Some? && n.value < 0.0
  }

  /** The reset condition of `setOpacity`. */
  predicate ResetsOpacity(o: OpacityInput)
  {
    Above100(o) || Below0(o) || (o.Text? && o.text == "")
  }

  /** The value `setOpacity` broadcasts: 0 for an input it rejects, the
      input itself otherwise. */
  function NormalizeOpacity(o: OpacityInput): (r: OpacityInput)
    ensures !ResetsOpacity(r)
    ensures ResetsOpacity(o) <==> r != o
    ensures r == o || r == Number(0.0)
  {
    if ResetsOpacity(o) then Number(0.0) else o
  }

  /** A numeric input is broadcast as a number in [0, 100]; one already in
      range is broadcast unchanged and one out of range as 0. */
  lemma NumericOpacityInRange(v: real)
    ensures NormalizeOpacity(Number(v)).Number?
    ensures 0.0 <= NormalizeOpacity(Number(v)).value <= 100.0
    ensures 0.0 <= v <= 100.0 <==> NormalizeOpacity(Number(v)) == Number(v)
    ensures !(0.0 <= v <= 100.0) <==> NormalizeOpacity(Number(v)) == Number(0.0) && v != 0.0
  {
  }

  /** The empty string is broadcast as 0, and so is any string whose numeric
      value is out of range; any other string, including one that is not a
      number at all, is broadcast unchanged. */
  lemma TextOpacity(text: string, numeric: Option<real>)
    ensures text == "" ==> NormalizeOpacity(Text(text, numeric)) == Number(0.0)
    ensures numeric.Some? && (numeric.value > 100.0 || numeric.value < 0.0) ==>
      NormalizeOpacity(Text(text, numeric)) == Number(0.0)
    ensures text != "" && (numeric.None? || 0.0 <= numeric.value <= 100.0) ==>
      NormalizeOpacity(Text(text, numeric)) == Text(text, numeric)
  {
  }

  /** Normalising twice gives the same broadcast value as normalising once. */
  lemma NormalizeIdempotent(o: OpacityInput)
    ensures NormalizeOpacity(NormalizeOpacity(o)) == NormalizeOpacity(o)
  {
  }

  /** What `updateHighlight(useDefault)` leaves in `hlColors`. */
  function HighlightColors(data: AppearanceData, useDefault: bool): Option<Color>
  {
    if !useDefault then data.hlColors
    else if data.mapSettings.Some? then Some(data.mapSettings.value.highlightColor)
    else None
  }

  /** The hex `updateHighlight(useDefault)` broadcasts: the stored
      highlight colour when restoring the default once the settings have
      been read, the current colour otherwise; None when `hlColors` is
      undefined and reading its `hex` throws. */
  function HighlightHex(data: AppearanceData, useDefault: bool): (r: Option<string>)
    ensures useDefault && data.mapSettings.Some? ==> r == Some(data.mapSettings.value.highlightColor.hex)
    ensures !useDefault ==> r == if data.hlColors.Some? then Some(data.hlColors.value.hex) else None
    ensures useDefault && data.mapSettings.None? ==> r == None
  {
    var colors := HighlightColors(data, useDefault);
    if colors.Some? then Some(colors.value.hex) else None
  }

  /** After a change of route name the data are back to `data()`, whose
      `mapSettings` is the empty object, and `mounted` does not run again:
      restoring the default highlight then throws instead of broadcasting. */
  lemma HighlightFailsAfterReset(store: MapSettings)
    ensures HighlightHex(InitialData(store), true) == None
  {
  }

  /** The reset with `mapSettings` re-read from the store, as `mounted`
      does on creation. */
  function ResetData(store: MapSettings): (r: AppearanceData)
    ensures r == InitialData(store).(mapSettings := Some(store))
  {
    AppearanceData(false, Some(store), store.opacity, Some(store.highlightColor),
                   store.showWaterBlocks, store.showUnPopBlocks, false)
  }

  /** After the corrected reset, restoring the default broadcasts the stored
      colour, and keeping the current one broadcasts the same colour. */
  lemma HighlightAfterResetData(store: MapSettings)
    ensures HighlightHex(ResetData(store), true) == Some(store.highlightColor.hex)
    ensures HighlightHex(ResetData(store), false) == Some(store.highlightColor.hex)
  {
  }

  /** The dialog component. */
  class MapAppearanceDialog {
    var showModal: bool
    var mapSettings: Option<MapSettings>
    var opacity: real
    var hlColors: Option<Color>
    var showWaterBlocks: bool
    var showUnPopBlocks: bool
    var displayPicker: bool
    /** Every broadcast so far, in order. */
    var events: seq<AppearanceEvent>

    function Data(): AppearanceData
      reads this
    {
      AppearanceData(showModal, mapSettings, opacity, hlColors, showWaterBlocks, showUnPopBlocks, displayPicker)
    }

    /** `data()` followed by `mounted()`, which reads the settings. */
    constructor (store: MapSettings)
      ensures Data() == InitialData(store).(mapSettings := Some(store))
      ensures events == []
    {
      showModal, mapSettings, opacity, hlColors := false, None, store.opacity, Some(store.highlightColor);
      showWaterBlocks, showUnPopBlocks, displayPicker := store.showWaterBlocks, store.showUnPopBlocks, false;
      events := [];
      mapSettings := Some(store);
    }

    /** The `openMapAppearance` handler: open the dialog. */
    method OpenMapAppearance()
      modifies this
      ensures Data() == old(Data()).(showModal := true)
      ensures events == old(events)
    {
      showModal := true;
    }

    /** `closeModal()`: close the dialog. */
    method CloseModal()
      modifies this
      ensures Data() == old(Data()).(showModal := false)
      ensures events == old(events)
    {
      showModal := false;
    }

    /** `setOpacity(opacity)`: a rejected input resets the slider to 0 and
        0 is broadcast; any other input is broadcast as it is. */
    method SetOpacity(input: OpacityInput)
      modifies this
      ensures Data() == if ResetsOpacity(input) then old(Data()).(opacity := 0.0) else old(Data())
      ensures events == old(events) + [SetOpacityEmit(NormalizeOpacity(input))]
    {
      var o := input;
      if ResetsOpacity(o) {
        o := Number(0.0);
        opacity := 0.0;
      }
      events := events + [SetOpacityEmit(o)];
    }

    /** `updateHighlight(useDefault)`: optionally restore the stored
        colour, then broadcast the current colour's hex. `ok` is false when
        `hlColors` is undefined and reading `hex` throws. */
    method UpdateHighlight(useDefault: bool) returns (ok: bool)
      modifies this
      ensures Data() == old(Data()).(hlColors := HighlightColors(old(Data()), useDefault))
      ensures ok <==> HighlightHex(old(Data()), useDefault).Some?
      ensures events == old(events) +
        if ok then [UpdateHighlightEmit(HighlightHex(old(Data()), useDefault).value)] else []
    {
      if useDefault {
        hlColors := if mapSettings.Some? then Some(mapSettings.value.highlightColor) else None;
      }
      if hlColors.None? {
        return false;
      }
      events := events + [UpdateHighlightEmit(hlColors.value.hex)];
      ok := true;
    }

    /** `setWaterBlocks()`: broadcast the toggled flag; the flag itself
        follows the store, not this call. */
    method SetWaterBlocks()
      modifies this
      ensures Data() == old(Data())
      ensures events == old(events) + [SetWaterBlocksEmit(!showWaterBlocks)]
    {
      events := events + [SetWaterBlocksEmit(!showWaterBlocks)];
    }

    /** `setUnPopBlocks()`: the same for unpopulated blocks. */
    method SetUnPopBlocks()
      modifies this
      ensures Data() == old(Data())
      ensures events == old(events) + [SetUnPopBlocksEmit(!showUnPopBlocks)]
    {
      events := events + [SetUnPopBlocksEmit(!showUnPopBlocks)];
    }

    /** The `$route` watcher: on a change of route name every data field
        is reset to `data()` for the current store. */
    method OnRouteChange(toName: Option<string>, fromName: Option<string>, store: MapSettings)
      modifies this
      ensures Data() == if toName != fromName then InitialData(store) else old(Data())
      ensures events == old(events)
    {
      if toName != fromName {
        showModal, mapSettings, opacity, hlColors := false, None, store.opacity, Some(store.highlightColor);
        showWaterBlocks, showUnPopBlocks, displayPicker := store.showWaterBlocks, store.showUnPopBlocks, false;
      }
    }

    /** The watcher with `mapSettings` re-read as `mounted` does. */
    method OnRouteChangeRereading(toName: Option<string>, fromName: Option<string>, store: MapSettings)
      modifies this
      ensures Data() == if toName != fromName then ResetData(store) else old(Data())
      ensures events == old(events)
    {
      OnRouteChange(toName, fromName, store);
      if toName != fromName {
        mapSettings := Some(store);
      }
    }
  }
}
