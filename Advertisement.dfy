/** The advertisement settings page: the single active-panel state, the four refresh
    keys, and the props each edit panel derives from them. */
module Advertisement {
  import opened Wrappers
  import opened Storage
  import AdTypes
  import PromotionPowers
  import Durations
  import AdShows

  /** The four panel types: 'adType', 'promoPower', 'duration', 'adShow'. */
  datatype PanelType = AdTypeKind | PromoPowerKind | DurationKind | AdShowKind

  /** The active panel: its type, its mode and the item being edited (`None` when adding).
      One variant per type, so that the item always has the panel type's entity type. */
  datatype Panel =
    | AdTypePanel(mode: Mode, adType: Option<AdTypes.AdType>)
    | PromoPowerPanel(mode: Mode, power: Option<PromotionPowers.PromotionPower>)
    | DurationPanel(mode: Mode, duration: Option<Durations.DurationOption>)
    | AdShowPanel(mode: Mode, adShow: Option<AdShows.AdShowOption>)
  {
    function Type(): PanelType {
      match this
      case AdTypePanel(_, _) => AdTypeKind
      case PromoPowerPanel(_, _) => PromoPowerKind
      case DurationPanel(_, _) => DurationKind
      case AdShowPanel(_, _) => AdShowKind
    }

    predicate HasItem() {
      match this
      case AdTypePanel(_, item) => item.Some?
      case PromoPowerPanel(_, item) => item.Some?
      case DurationPanel(_, item) => item.Some?
      case AdShowPanel(_, item) => item.Some?
    }
  }

  /** What a card's "Add New" asks for: `handleOpenPanel(type, 'add', null)`. */
  function AddRequest(t: PanelType): (p: Panel)
    ensures p.Type() == t && p.mode == Add && !p.HasItem()
  {
    match t
    case AdTypeKind => AdTypePanel(Add, None)
    case PromoPowerKind => PromoPowerPanel(Add, None)
    case DurationKind => DurationPanel(Add, None)
    case AdShowKind => AdShowPanel(Add, None)
  }

  class AdvertisementPage {
    var activePanel: Option<Panel>
    var adTypeKey: nat
    var promoPowerKey: nat
    var durationKey: nat
    var adShowKey: nat

    /** No panel open, every refresh key 0. */
    constructor ()
      ensures activePanel == None
      ensures forall t :: RefreshKey(t) == 0
    {
      activePanel := None;
      adTypeKey, promoPowerKey, durationKey, adShowKey := 0, 0, 0, 0;
    }

    /** The `refreshKey` prop handed to the card of type `t`. */
    function RefreshKey(t: PanelType): nat
      reads this
    {
      match t
      case AdTypeKind => adTypeKey
      case PromoPowerKind => promoPowerKey
      case DurationKind => durationKey
      case AdShowKind => adShowKey
    }

    /** A panel's `isOpen` prop: `activePanel?.type === t`. */
    predicate IsOpen(t: PanelType)
      reads this
    {
      activePanel.Some? && activePanel.value.Type() == t
    }

    /** A panel's `mode` prop: the active mode when it is the active panel, 'add' otherwise. */
    function ModeFor(t: PanelType): Mode
      reads this
    {
      if IsOpen(t) then activePanel.value.mode else Add
    }

    /** The `initialData` props: the active item when that panel is active, null otherwise. */
    function AdTypeInitialData(): Option<AdTypes.AdType>
      reads this
    {
      if IsOpen(AdTypeKind) then activePanel.value.adType else None
    }

    function PromoPowerInitialData(): Option<PromotionPowers.PromotionPower>
      reads this
    {
      if IsOpen(PromoPowerKind) then activePanel.value.power else None
    }

    function DurationInitialData(): Option<Durations.DurationOption>
      reads this
    {
      if IsOpen(DurationKind) then activePanel.value.duration else None
    }

    function AdShowInitialData(): Option<AdShows.AdShowOption>
      reads this
    {
      if IsOpen(AdShowKind) then activePanel.value.adShow else None
    }

    /** `handleOpenPanel`: the requested panel replaces whatever was active, so exactly the
        requested type is open afterwards. The refresh keys are untouched. */
    method OpenPanel(p: Panel)
      modifies this
      ensures activePanel == Some(p)
      ensures forall t :: IsOpen(t) <==> t == p.Type()
      ensures forall t :: RefreshKey(t) == old(RefreshKey(t))
    {
      activePanel := Some(p);
    }

    /** `handleClosePanel`: no panel is open afterwards. */
    method ClosePanel()
      modifies this
      ensures activePanel == None
      ensures forall t :: !IsOpen(t)
      ensures forall t :: RefreshKey(t) == old(RefreshKey(t))
    {
      activePanel := None;
    }

    /** `handleSaveSuccess(t)`: t's refresh key goes up by exactly one, every other key and
        the active panel stay as they were. */
    method SaveSuccess(t: PanelType)
      modifies this
      ensures activePanel == old(activePanel)
      ensures forall u :: RefreshKey(u) == old(RefreshKey(u)) + (if u == t then 1 else 0)
    {
      match t
      case AdTypeKind => adTypeKey := adTypeKey + 1;
      case PromoPowerKind => promoPowerKey := promoPowerKey + 1;
      case DurationKind => durationKey := durationKey + 1;
      case AdShowKind => adShowKey := adShowKey + 1;
    }
  }

  /** At most one panel is open: two open panels have the same type. */
  lemma AtMostOnePanelOpen(page: AdvertisementPage, t: PanelType, u: PanelType)
    requires page.IsOpen(t) && page.IsOpen(u)
    ensures t == u
  {
  }

  /** A panel that is not the active one is told to be in 'add' mode with no item. */
  lemma InactivePanelProps(page: AdvertisementPage, t: PanelType)
    requires !page.IsOpen(t)
    ensures page.ModeFor(t) == Add
    ensures t == AdTypeKind ==> page.AdTypeInitialData() == None
    ensures t == PromoPowerKind ==> page.PromoPowerInitialData() == None
    ensures t == DurationKind ==> page.DurationInitialData() == None
    ensures t == AdShowKind ==> page.AdShowInitialData() == None
  {
  }
}
