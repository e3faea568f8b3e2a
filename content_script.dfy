/** The page-side half of the Dark Mode Reader extension: one boolean of user
    intent, `isEnabled`, and the visual state it drives on the page's root
    element (one marker class and six style variables), changed by
    enable / disable / toggle, seeded once from storage, and driven by two
    message handlers.

    The first half of the module describes a page as a value (`PageState`)
    with one function per transition, and proves what the transitions
    promise. The class `Page` at the end is the script itself: the same
    state as mutable fields, and one method per function of the script,
    each proved to move the state exactly as its specification function
    says. The load comes twice: `LoadInitialAsWritten` follows the script
    (`Loaded`), and `LoadInitial` is the corrected load (`LoadedReconciled`). */
module ContentScript {
  import opened JsValues

  // ---------------------------------------------------------------------
  // Constants
  // ---------------------------------------------------------------------

  /** The storage key holding the user's intent. */
  const StorageKey := "deepDarkModeEnabled"

  /** The marker class put on the root element while dark mode is on. */
  const RootClass := "deep-dark-mode-root"

  /** Message types. */
  const ToggleType := "DDM_TOGGLE"
  const GetStateType := "DDM_GET_STATE"
  const ActionToggleType := "DDM_TOGGLE_FROM_ACTION"

  /** The six style variables set on the root element, with their fixed values. */
  const Palette: map<string, string> := map[
    "--dd-background" := "#050608",
    "--dd-surface" := "#111827",
    "--dd-surface-soft" := "#020617",
    "--dd-text" := "#e5e7eb",
    "--dd-text-soft" := "#9ca3af",
    "--dd-accent" := "#3b82f6"
  ]

  // ---------------------------------------------------------------------
  // The page as a value
  // ---------------------------------------------------------------------

  /** Everything the script reads or changes: its own flag, the root
      element's class list and inline style, and the last value it managed
      to write under `StorageKey` (`None` before any successful write). */
  datatype PageState = PageState(
    isEnabled: bool,
    classes: set<string>,
    style: map<string, string>,
    persisted: Option<bool>)

  /** Outcome of the one storage read made at load time. */
  datatype ReadResult = ReadOk(items: map<string, Json>) | ReadErr

  /** The answer sent back to a runtime message: `{enabled}`. */
  datatype Response = Response(enabled: bool)

  /** Every palette variable is set, to its fixed value. */
  predicate AllVarsSet(style: map<string, string>)
  {
    forall k :: k in Palette ==> k in style && style[k] == Palette[k]
  }

  /** No palette variable is set. */
  predicate NoVarsSet(style: map<string, string>)
  {
    forall k :: k in Palette ==> k !in style
  }

  /** Two inline styles agree on every property that is not a palette variable. */
  ghost predicate SameOutside(style: map<string, string>, style': map<string, string>)
  {
    forall k :: k !in Palette ==> (k in style <==> k in style') && (k in style ==> style[k] == style'[k])
  }

  /** `t` differs from `s` at most in the flag, the marker class and the
      palette variables: the page's own classes, its own inline style and
      storage are untouched. */
  ghost predicate OnlyOverlayChanged(s: PageState, t: PageState)
  {
    t.classes - {RootClass} == s.classes - {RootClass} &&
    SameOutside(s.style, t.style) &&
    t.persisted == s.persisted
  }

  /** The all-or-nothing invariant: the marker class is present exactly
      when the flag is on, and then all six variables are set, otherwise
      none is. */
  predicate Consistent(s: PageState)
  {
    (RootClass in s.classes <==> s.isEnabled) &&
    (if s.isEnabled then AllVarsSet(s.style) else NoVarsSet(s.style))
  }

  // ---------------------------------------------------------------------
  // Specification of the transitions
  // ---------------------------------------------------------------------

  /** `setRootDarkAttributes(enable)`: add or remove the marker class. */
  function MarkRoot(classes: set<string>, enable: bool): (r: set<string>)
    ensures RootClass in r <==> enable
    ensures r - {RootClass} == classes - {RootClass}
  {
    if enable then classes + {RootClass} else classes - {RootClass}
  }

  /** `applyInlineOverrides(enable)`: set all six variables or remove all six. */
  function OverrideStyle(style: map<string, string>, enable: bool): (r: map<string, string>)
    ensures enable ==> AllVarsSet(r)
    ensures !enable ==> NoVarsSet(r)
    ensures SameOutside(style, r)
  {
    if enable then style + Palette else style - Palette.Keys
  }

  /** `enableDarkMode()`. */
  function Enabled(s: PageState): (r: PageState)
    ensures r.isEnabled && RootClass in r.classes && AllVarsSet(r.style)
    ensures Consistent(r)
    ensures OnlyOverlayChanged(s, r)
  {
    s.(isEnabled := true, classes := MarkRoot(s.classes, true), style := OverrideStyle(s.style, true))
  }

  /** `disableDarkMode()`. */
  function Disabled(s: PageState): (r: PageState)
    ensures !r.isEnabled && RootClass !in r.classes && NoVarsSet(r.style)
    ensures Consistent(r)
    ensures OnlyOverlayChanged(s, r)
  {
    s.(isEnabled := false, classes := MarkRoot(s.classes, false), style := OverrideStyle(s.style, false))
  }

  /** `toggleDarkMode()`: flip the flag through enable or disable, then
      write the new flag to storage; `writeOk` is whether that write
      succeeded (a failure is caught and dropped). */
  function Toggled(s: PageState, writeOk: bool): (r: PageState)
    ensures r.isEnabled == !s.isEnabled
    ensures Consistent(r)
    ensures r.persisted == if writeOk then Some(r.isEnabled) else s.persisted
    ensures r.classes - {RootClass} == s.classes - {RootClass} && SameOutside(s.style, r.style)
  {
    var t := if s.isEnabled then Disabled(s) else Enabled(s);
    if writeOk then t.(persisted := Some(t.isEnabled)) else t
  }

  /** The intent a storage read yields: the stored value's truthiness, or
      on for a failed read. */
  function ReadIntent(r: ReadResult): (on: bool)
    ensures r.ReadErr? ==> on
    ensures r.ReadOk? && StorageKey !in r.items ==> !on
    ensures r.ReadOk? && StorageKey in r.items && r.items[StorageKey].Bool? ==> on == r.items[StorageKey].b
  {
    match r
    case ReadOk(items) => Truthy(Lookup(items, StorageKey))
    case ReadErr => true
  }

  /** `loadInitialState()` as written: set the flag from the read, and
      call enable when it is on; when it is off, nothing else happens. */
  function Loaded(s: PageState, r: ReadResult): (t: PageState)
    ensures r.ReadErr? ==> t.isEnabled
    ensures r.ReadOk? ==> (t.isEnabled <==> Truthy(Lookup(r.items, StorageKey)))
    ensures t.isEnabled ==> t == Enabled(s)
    ensures !t.isEnabled ==> t.classes == s.classes && t.style == s.style
    ensures t.persisted == s.persisted
  {
    var s1 := s.(isEnabled := ReadIntent(r));
    if s1.isEnabled then Enabled(s1) else s1
  }

  /** `loadInitialState()` with the off branch calling disable, so that the
      page always ends consistent with the flag (see `LoadCanDesync`). */
  function LoadedReconciled(s: PageState, r: ReadResult): (t: PageState)
    ensures r.ReadErr? ==> t.isEnabled
    ensures r.ReadOk? ==> (t.isEnabled <==> Truthy(Lookup(r.items, StorageKey)))
    ensures Consistent(t)
    ensures OnlyOverlayChanged(s, t)
  {
    if ReadIntent(r) then Enabled(s) else Disabled(s)
  }

  /** The runtime message listener: `DDM_TOGGLE` toggles and reports the
      new flag, `DDM_GET_STATE` reports the flag, anything else (including
      a message with no type) is ignored. */
  function RuntimeDispatch(s: PageState, msgType: Option<string>, writeOk: bool): (r: (PageState, Option<Response>))
    ensures r.1.Some? <==> msgType == Some(ToggleType) || msgType == Some(GetStateType)
    ensures r.1.Some? ==> r.1.value.enabled == r.0.isEnabled
    ensures msgType == Some(ToggleType) ==> r.0 == Toggled(s, writeOk)
    ensures msgType != Some(ToggleType) ==> r.0 == s
  {
    if msgType == Some(ToggleType) then
      var t := Toggled(s, writeOk);
      (t, Some(Response(t.isEnabled)))
    else if msgType == Some(GetStateType) then
      (s, Some(Response(s.isEnabled)))
    else
      (s, None)
  }

  /** The window message listener: only a message posted by the page's own
      window with type `DDM_TOGGLE_FROM_ACTION` toggles. */
  function WindowDispatch(s: PageState, fromSelf: bool, dataType: Option<string>, writeOk: bool): (r: PageState)
    ensures r.isEnabled != s.isEnabled <==> fromSelf && dataType == Some(ActionToggleType)
    ensures fromSelf && dataType == Some(ActionToggleType) ==> r == Toggled(s, writeOk)
    ensures !(fromSelf && dataType == Some(ActionToggleType)) ==> r == s
  {
    if !fromSelf then s
    else if dataType == Some(ActionToggleType) then Toggled(s, writeOk)
    else s
  }

  // ---------------------------------------------------------------------
  // Properties
  // ---------------------------------------------------------------------

  /** Under the invariant there is no partial application: the marker class,
      "all six variables set" and the flag agree, and exactly one of "all
      set" / "none set" holds. */
  lemma NoPartialApplication(s: PageState)
    requires Consistent(s)
    ensures RootClass in s.classes <==> AllVarsSet(s.style)
    ensures AllVarsSet(s.style) <==> s.isEnabled
    ensures AllVarsSet(s.style) != NoVarsSet(s.style)
  {
    assert "--dd-background" in Palette;
  }

  /** Enabling twice is enabling once. */
  lemma EnableIdempotent(s: PageState)
    ensures Enabled(Enabled(s)) == Enabled(s)
  {
  }

  /** Disabling twice is disabling once. */
  lemma DisableIdempotent(s: PageState)
    ensures Disabled(Disabled(s)) == Disabled(s)
  {
  }

  /** Two toggles restore the flag, the class list and the inline style. */
  lemma ToggleTwiceRestores(s: PageState, w1: bool, w2: bool)
    requires Consistent(s)
    ensures Toggled(Toggled(s, w1), w2).isEnabled == s.isEnabled
    ensures Toggled(Toggled(s, w1), w2).classes == s.classes
    ensures Toggled(Toggled(s, w1), w2).style == s.style
  {
  }

  /** A failed storage write is invisible on the page: only what was
      persisted differs. */
  lemma ToggleWriteFailureSwallowed(s: PageState)
    ensures Toggled(s, false) == Toggled(s, true).(persisted := s.persisted)
  {
  }

  /** The as-written load can leave the marker class and all six variables
      in place while the flag is off: this happens when a toggle has run
      before the storage read completes and the read then yields "off". */
  lemma LoadCanDesync(s: PageState, items: map<string, Json>)
    requires Consistent(s) && s.isEnabled
    requires !Truthy(Lookup(items, StorageKey))
    ensures !Loaded(s, ReadOk(items)).isEnabled
    ensures RootClass in Loaded(s, ReadOk(items)).classes
    ensures !Consistent(Loaded(s, ReadOk(items)))
  {
  }

  /** The concrete sequence: a fresh page with no classes and no inline
      style receives `DDM_TOGGLE` before its load finishes, and storage
      holds nothing under the key. */
  lemma EarlyToggleThenLoadDesyncs()
    ensures var initial := PageState(false, {}, map[], None);
            var early := RuntimeDispatch(initial, Some(ToggleType), true).0;
            var loaded := Loaded(early, ReadOk(map[]));
            !loaded.isEnabled && RootClass in loaded.classes && !Consistent(loaded)
  {
  }

  /** On a page still in its initial, consistent off state (the only state
      in which the script's own startup path runs the load), the corrected
      load is exactly the as-written one. */
  lemma ReconciledAgreesOnInitialState(s: PageState, r: ReadResult)
    requires Consistent(s) && !s.isEnabled
    ensures LoadedReconciled(s, r) == Loaded(s, r)
  {
  }

  /** Both message handlers keep the invariant. */
  lemma DispatchKeepsConsistent(s: PageState, msgType: Option<string>, fromSelf: bool, writeOk: bool)
    requires Consistent(s)
    ensures Consistent(RuntimeDispatch(s, msgType, writeOk).0)
    ensures Consistent(WindowDispatch(s, fromSelf, msgType, writeOk))
  {
  }

  /** The action-button path and the popup's `DDM_TOGGLE` drive the same
      state machine to the same state. */
  lemma WindowToggleIsRuntimeToggle(s: PageState, writeOk: bool)
    ensures WindowDispatch(s, true, Some(ActionToggleType), writeOk) == RuntimeDispatch(s, Some(ToggleType), writeOk).0
  {
  }

  /** A fresh page whose storage has no entry stays off and answers
      `{enabled: false}`; a toggle then answers `{enabled: true}`, applies
      the overlay and persists `true`. */
  lemma FreshPageScenario(classes: set<string>, style: map<string, string>)
    requires RootClass !in classes && NoVarsSet(style)
    ensures var s0 := Loaded(PageState(false, classes, style, None), ReadOk(map[]));
            var (s1, answer1) := RuntimeDispatch(s0, Some(GetStateType), true);
            var (s2, answer2) := RuntimeDispatch(s1, Some(ToggleType), true);
            s1 == s0 == PageState(false, classes, style, None) &&
            answer1 == Some(Response(false)) &&
            answer2 == Some(Response(true)) &&
            RootClass in s2.classes && AllVarsSet(s2.style) && s2.persisted == Some(true)
  {
  }

  /** The six `setProperty` calls, in source order, amount to merging the palette. */
  lemma SettingEachVarMergesPalette(style: map<string, string>)
    ensures style["--dd-background" := "#050608"]["--dd-surface" := "#111827"]
                 ["--dd-surface-soft" := "#020617"]["--dd-text" := "#e5e7eb"]
                 ["--dd-text-soft" := "#9ca3af"]["--dd-accent" := "#3b82f6"] == style + Palette
  {
  }

  /** The six `removeProperty` calls amount to dropping the palette's names. */
  lemma RemovingEachVarDropsPalette(style: map<string, string>)
    ensures style - {"--dd-background"} - {"--dd-surface"} - {"--dd-surface-soft"}
                  - {"--dd-text"} - {"--dd-text-soft"} - {"--dd-accent"} == style - Palette.Keys
  {
  }

  // ---------------------------------------------------------------------
  // The script
  // ---------------------------------------------------------------------

  /** The content script's state on one page: the module-level flag, the
      root element's class list and inline style, and the storage entry. */
  class Page {
    var isEnabled: bool
    var classes: set<string>
    var style: map<string, string>
    var persisted: Option<bool>

    ghost function State(): PageState
      reads this
    {
      PageState(isEnabled, classes, style, persisted)
    }

    ghost predicate Valid()
      reads this
    {
      Consistent(State())
    }

    /** Script start on a page whose root element carries `pageClasses` and
        `pageStyle`; the flag starts off. The invariant holds from the start
        when the page does not itself use the extension's class or variables. */
    constructor (pageClasses: set<string>, pageStyle: map<string, string>)
      ensures State() == PageState(false, pageClasses, pageStyle, None)
      ensures Valid() <==> RootClass !in pageClasses && NoVarsSet(pageStyle)
    {
      isEnabled := false;
      classes := pageClasses;
      style := pageStyle;
      persisted := None;
    }

    /** `classList.add` / `classList.remove` of the marker class. */
    method SetRootDarkAttributes(enable: bool)
      modifies this`classes
      ensures classes == MarkRoot(old(classes), enable)
    {
      if enable {
        classes := classes + {RootClass};
      } else {
        classes := classes - {RootClass};
      }
    }

    /** `style.setProperty(name, value)`. */
    method SetProperty(name: string, value: string)
      modifies this`style
      ensures style == old(style)[name := value]
    {
      style := style[name := value];
    }

    /** `style.removeProperty(name)`. */
    method RemoveProperty(name: string)
      modifies this`style
      ensures style == old(style) - {name}
    {
      style := style - {name};
    }

    /** Six `setProperty` calls, or six `removeProperty` calls. */
    method ApplyInlineOverrides(enable: bool)
      modifies this`style
      ensures style == OverrideStyle(old(style), enable)
    {
      ghost var before := style;
      if enable {
        SetProperty("--dd-background", "#050608");
        SetProperty("--dd-surface", "#111827");
        SetProperty("--dd-surface-soft", "#020617");
        SetProperty("--dd-text", "#e5e7eb");
        SetProperty("--dd-text-soft", "#9ca3af");
        SetProperty("--dd-accent", "#3b82f6");
        SettingEachVarMergesPalette(before);
      } else {
        RemoveProperty("--dd-background");
        RemoveProperty("--dd-surface");
        RemoveProperty("--dd-surface-soft");
        RemoveProperty("--dd-text");
        RemoveProperty("--dd-text-soft");
        RemoveProperty("--dd-accent");
        RemovingEachVarDropsPalette(before);
      }
    }

    method Enable()
      modifies this`isEnabled, this`classes, this`style
      ensures State() == Enabled(old(State()))
      ensures Valid()
    {
      isEnabled := true;
      SetRootDarkAttributes(true);
      ApplyInlineOverrides(true);
    }

    method Disable()
      modifies this`isEnabled, this`classes, this`style
      ensures State() == Disabled(old(State()))
      ensures Valid()
    {
      isEnabled := false;
      SetRootDarkAttributes(false);
      ApplyInlineOverrides(false);
    }

    /** `writeOk` says whether the storage write that follows the flip succeeds. */
    method Toggle(writeOk: bool)
      modifies this
      ensures State() == Toggled(old(State()), writeOk)
      ensures isEnabled == !old(isEnabled)
      ensures Valid()
    {
      if isEnabled {
        Disable();
      } else {
        Enable();
      }
      if writeOk {
        persisted := Some(isEnabled);
      }
    }

    /** The load as the script writes it: the off branch does nothing, so
        the invariant is kept only when the page was still off, or the read
        yields on. */
    method LoadInitialAsWritten(r: ReadResult)
      modifies this`isEnabled, this`classes, this`style
      ensures State() == Loaded(old(State()), r)
      ensures old(Valid()) && (!old(isEnabled) || isEnabled) ==> Valid()
    {
      match r {
        case ReadOk(items) =>
          isEnabled := Truthy(Lookup(items, StorageKey));
        case ReadErr =>
          isEnabled := true;
      }
      if isEnabled {
        Enable();
      }
    }

    /** The load, with disable in the off branch (see `LoadedReconciled`). */
    method LoadInitial(r: ReadResult)
      modifies this`isEnabled, this`classes, this`style
      ensures State() == LoadedReconciled(old(State()), r)
      ensures old(Valid()) && !old(isEnabled) ==> State() == Loaded(old(State()), r)
      ensures Valid()
    {
      ghost var before := State();
      match r {
        case ReadOk(items) =>
          isEnabled := Truthy(Lookup(items, StorageKey));
        case ReadErr =>
          isEnabled := true;
      }
      if isEnabled {
        Enable();
      } else {
        Disable();
      }
      if Consistent(before) && !before.isEnabled {
        ReconciledAgreesOnInitialState(before, r);
      }
    }

    method OnRuntimeMessage(msgType: Option<string>, writeOk: bool) returns (response: Option<Response>)
      modifies this
      ensures (State(), response) == RuntimeDispatch(old(State()), msgType, writeOk)
      ensures old(Valid()) ==> Valid()
    {
      if msgType == Some(ToggleType) {
        Toggle(writeOk);
        response := Some(Response(isEnabled));
      } else if msgType == Some(GetStateType) {
        response := Some(Response(isEnabled));
      } else {
        response := None;
      }
    }

    method OnWindowMessage(fromSelf: bool, dataType: Option<string>, writeOk: bool)
      modifies this
      ensures State() == WindowDispatch(old(State()), fromSelf, dataType, writeOk)
      ensures old(Valid()) ==> Valid()
    {
      if !fromSelf {
        return;
      }
      if dataType == Some(ActionToggleType) {
        Toggle(writeOk);
      }
    }
  }
}
