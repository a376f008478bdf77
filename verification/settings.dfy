/**
 * The display switches of src/index.js. `Config` holds the six `show*`
 * flags and two switches (`zoom`, `fullscreen`) that exist only once they
 * have been toggled; `Context` holds the run, zoom and fullscreen switches.
 * A JavaScript object keeps its properties in creation order, which is the
 * order in which they are saved and restored.
 */
module Settings {
  import opened Wrappers

  /** The six `show*` flags of `Config`, in declaration order. */
  datatype Flag = ForceLine | RepelLine | AttractLine | FollowLine | FriendLines | Axis

  const ShowForceLine := "showForceLine"
  const ShowRepelLine := "showRepelLine"
  const ShowAttractLine := "showAttractLine"
  const ShowFollowLine := "showFollowLine"
  const ShowFriendLines := "showFriendLines"
  const ShowAxis := "showAxis"
  const ZoomKey := "zoom"
  const FullscreenKey := "fullscreen"

  /** The property name of each flag. */
  function FlagName(g: Flag): string {
    match g
    case ForceLine => ShowForceLine
    case RepelLine => ShowRepelLine
    case AttractLine => ShowAttractLine
    case FollowLine => ShowFollowLine
    case FriendLines => ShowFriendLines
    case Axis => ShowAxis
  }

  /** A property of a `Config`: a `show*` flag or one of the two late switches. */
  datatype Key = FlagKey(flag: Flag) | ZoomProperty | FullscreenProperty

  /** The property name of each key. */
  function KeyName(k: Key): string {
    match k
    case FlagKey(g) => FlagName(g)
    case ZoomProperty => ZoomKey
    case FullscreenProperty => FullscreenKey
  }

  /** Different properties have different names. */
  lemma KeyNameInjective(a: Key, b: Key)
    ensures KeyName(a) == KeyName(b) ==> a == b
  {
  }

  /** The properties the constructor creates, in order. */
  const ConstructorKeys: seq<Key> :=
    [FlagKey(ForceLine), FlagKey(RepelLine), FlagKey(AttractLine), FlagKey(FollowLine), FlagKey(FriendLines), FlagKey(Axis)]

  /**
   * The state of a `Config`. `zoom` and `fullscreen` are `None` while the
   * property does not exist; `lateKeys` lists the properties created after
   * construction, in the order they were created.
   */
  datatype Flags = Flags(
    showForceLine: bool, showRepelLine: bool, showAttractLine: bool,
    showFollowLine: bool, showFriendLines: bool, showAxis: bool,
    zoom: Option<bool>, fullscreen: Option<bool>, lateKeys: seq<Key>)

  /** A new `Config`: every flag false, no late property. */
  const InitialFlags := Flags(false, false, false, false, false, false, None, None, [])

  function Get(f: Flags, g: Flag): bool {
    match g
    case ForceLine => f.showForceLine
    case RepelLine => f.showRepelLine
    case AttractLine => f.showAttractLine
    case FollowLine => f.showFollowLine
    case FriendLines => f.showFriendLines
    case Axis => f.showAxis
  }

  /** `!x` on a property that may be missing: a missing property reads as false. */
  function Negated(x: Option<bool>): Option<bool> {
    Some(x != Some(true))
  }

  /** Sets one `show*` flag; every other field is kept. */
  function SetFlag(f: Flags, g: Flag, value: bool): (r: Flags)
    ensures forall h :: Get(r, h) == if h == g then value else Get(f, h)
    ensures r.zoom == f.zoom && r.fullscreen == f.fullscreen && r.lateKeys == f.lateKeys
  {
    match g
    case ForceLine => f.(showForceLine := value)
    case RepelLine => f.(showRepelLine := value)
    case AttractLine => f.(showAttractLine := value)
    case FollowLine => f.(showFollowLine := value)
    case FriendLines => f.(showFriendLines := value)
    case Axis => f.(showAxis := value)
  }

  /** The effect of the `toggle*` method of a `show*` flag. */
  function Toggle(f: Flags, g: Flag): Flags {
    SetFlag(f, g, !Get(f, g))
  }

  /** A toggle negates its own flag and leaves every other one, and the late switches, alone. */
  lemma ToggleOnlyOwn(f: Flags, g: Flag, h: Flag)
    ensures Get(Toggle(f, g), h) == if g == h then !Get(f, h) else Get(f, h)
    ensures Toggle(f, g).zoom == f.zoom && Toggle(f, g).fullscreen == f.fullscreen
    ensures Toggle(f, g).lateKeys == f.lateKeys
  { }

  /** Toggling a flag twice restores the config. */
  lemma ToggleTwice(f: Flags, g: Flag)
    ensures Toggle(Toggle(f, g), g) == f
  { }

  /** Every flag of a new config is off. */
  lemma InitialFlagsOff(g: Flag)
    ensures !Get(InitialFlags, g)
  { }

  /** The properties: the constructor's, then the late ones. */
  function Keys(f: Flags): seq<Key> {
    ConstructorKeys + f.lateKeys
  }

  /** `config[key]`: the value of a property, if the property exists. */
  function Lookup(f: Flags, key: Key): (r: Option<bool>)
    ensures r.Some? <==> key.FlagKey? || (key == ZoomProperty && f.zoom.Some?) || (key == FullscreenProperty && f.fullscreen.Some?)
  {
    match key
    case FlagKey(g) => Some(Get(f, g))
    case ZoomProperty => f.zoom
    case FullscreenProperty => f.fullscreen
  }

  /** `config[key] = value` for a property that exists; a missing one is not created by this model. */
  function Assign(f: Flags, key: Key, value: bool): Flags {
    match key
    case FlagKey(g) => SetFlag(f, g, value)
    case ZoomProperty => if f.zoom.Some? then f.(zoom := Some(value)) else f
    case FullscreenProperty => if f.fullscreen.Some? then f.(fullscreen := Some(value)) else f
  }

  /** Writing a property keeps the property list. */
  lemma AssignKeepsKeys(f: Flags, key: Key, value: bool)
    ensures Keys(Assign(f, key, value)) == Keys(f)
  { }

  /** Writing a `show*` flag sets it and nothing else. */
  lemma AssignFlagOnlyOwn(f: Flags, g: Flag, value: bool, other: Key)
    ensures Lookup(Assign(f, FlagKey(g), value), other) ==
      if other == FlagKey(g) then Some(value) else Lookup(f, other)
  {
  }

  /** Writing an existing property sets it and nothing else. */
  lemma AssignOnlyOwn(f: Flags, key: Key, value: bool, other: Key)
    ensures Lookup(Assign(f, key, value), other) ==
      if other == key && Lookup(f, key).Some? then Some(value) else Lookup(f, other)
  {
    if key.FlagKey? {
      AssignFlagOnlyOwn(f, key.flag, value, other);
    }
  }

  /** The property list names each property once, and exactly the existing ones. */
  ghost predicate WellKeyed(f: Flags) {
    (forall i, j :: 0 <= i < j < |Keys(f)| ==> Keys(f)[i] != Keys(f)[j]) &&
    (forall k :: k in Keys(f) <==> Lookup(f, k).Some?)
  }

  lemma InitialWellKeyed()
    ensures WellKeyed(InitialFlags)
  {
    assert Keys(InitialFlags) == ConstructorKeys;
  }

  /** A `show*` toggle and a property write keep the property list exact. */
  lemma ToggleAssignWellKeyed(f: Flags, g: Flag, key: Key, value: bool)
    requires WellKeyed(f)
    ensures WellKeyed(Toggle(f, g))
    ensures WellKeyed(Assign(f, key, value))
  {
    forall k
      ensures Lookup(Assign(f, key, value), k).Some? <==> Lookup(f, k).Some?
    {
      AssignOnlyOwn(f, key, value, k);
    }
    AssignKeepsKeys(f, key, value);
  }

  /** The effect of `Config.toggleZoom`: the property is created the first time. */
  function ToggleLate(f: Flags, zoom: bool): Flags {
    if zoom then
      f.(zoom := Negated(f.zoom), lateKeys := if f.zoom.None? then f.lateKeys + [ZoomProperty] else f.lateKeys)
    else
      f.(fullscreen := Negated(f.fullscreen), lateKeys := if f.fullscreen.None? then f.lateKeys + [FullscreenProperty] else f.lateKeys)
  }

  /** Creating a late switch keeps the property list exact. */
  lemma ToggleLateWellKeyed(f: Flags, zoom: bool)
    requires WellKeyed(f)
    ensures WellKeyed(ToggleLate(f, zoom))
    ensures Lookup(ToggleLate(f, zoom), if zoom then ZoomProperty else FullscreenProperty) ==
      Some(Lookup(f, if zoom then ZoomProperty else FullscreenProperty) != Some(true))
  {
    var t := ToggleLate(f, zoom);
    var key := if zoom then ZoomProperty else FullscreenProperty;
    if Lookup(f, key).None? {
      assert key !in Keys(f);
      assert Keys(t) == Keys(f) + [key];
      forall i, j | 0 <= i < j < |Keys(t)|
        ensures Keys(t)[i] != Keys(t)[j]
      {
        if j == |Keys(f)| {
          assert Keys(t)[i] == Keys(f)[i];
        } else {
          assert Keys(t)[i] == Keys(f)[i] && Keys(t)[j] == Keys(f)[j];
        }
      }
    } else {
      assert Keys(t) == Keys(f);
    }
  }

  class Config {
    var showForceLine: bool
    var showRepelLine: bool
    var showAttractLine: bool
    var showFollowLine: bool
    var showFriendLines: bool
    var showAxis: bool
    var zoom: Option<bool>
    var fullscreen: Option<bool>
    var lateKeys: seq<Key>

    function Value(): Flags
      reads this
    {
      Flags(showForceLine, showRepelLine, showAttractLine, showFollowLine, showFriendLines, showAxis,
        zoom, fullscreen, lateKeys)
    }

    constructor()
      ensures Value() == InitialFlags
    {
      showForceLine := false;
      showRepelLine := false;
      showAttractLine := false;
      showFollowLine := false;
      showFriendLines := false;
      showAxis := false;
      zoom := None;
      fullscreen := None;
      lateKeys := [];
    }

    method ToggleForceLine()
      modifies this
      ensures Value() == Toggle(old(Value()), ForceLine)
    {
      showForceLine := !showForceLine;
    }

    method ToggleAttractLine()
      modifies this
      ensures Value() == Toggle(old(Value()), AttractLine)
    {
      showAttractLine := !showAttractLine;
    }

    method ToggleRepelLines()
      modifies this
      ensures Value() == Toggle(old(Value()), RepelLine)
    {
      showRepelLine := !showRepelLine;
    }

    method ToggleFollowLine()
      modifies this
      ensures Value() == Toggle(old(Value()), FollowLine)
    {
      showFollowLine := !showFollowLine;
    }

    method ToggleFriendLines()
      modifies this
      ensures Value() == Toggle(old(Value()), FriendLines)
    {
      showFriendLines := !showFriendLines;
    }

    method ToggleAxis()
      modifies this
      ensures Value() == Toggle(old(Value()), Axis)
    {
      showAxis := !showAxis;
    }

    method ToggleZoom()
      modifies this
      ensures Value() == ToggleLate(old(Value()), true)
    {
      if zoom.None? {
        lateKeys := lateKeys + [ZoomProperty];
      }
      zoom := Negated(zoom);
    }

    method ToggleFullscreen()
      modifies this
      ensures Value() == ToggleLate(old(Value()), false)
    {
      if fullscreen.None? {
        lateKeys := lateKeys + [FullscreenProperty];
      }
      fullscreen := Negated(fullscreen);
    }

    /** `config[key] = value` for an existing property. */
    method Set(key: Key, value: bool)
      modifies this
      ensures Value() == Assign(old(Value()), key, value)
    {
      match key {
        case FlagKey(g) =>
          match g {
            case ForceLine => showForceLine := value;
            case RepelLine => showRepelLine := value;
            case AttractLine => showAttractLine := value;
            case FollowLine => showFollowLine := value;
            case FriendLines => showFriendLines := value;
            case Axis => showAxis := value;
          }
        case ZoomProperty =>
          if zoom.Some? {
            zoom := Some(value);
          }
        case FullscreenProperty =>
          if fullscreen.Some? {
            fullscreen := Some(value);
          }
      }
    }
  }

  class Context {
    const config: Config
    var simulationRunning: bool
    var zoom: bool
    /** Missing (`None`) until first toggled. */
    var fullscreen: Option<bool>

    /** `new Context(config = new Config())` */
    constructor(config: Option<Config>)
      ensures config.Some? ==> this.config == config.value
      ensures config.None? ==> fresh(this.config) && this.config.Value() == InitialFlags
      ensures !simulationRunning && !zoom && fullscreen == None
    {
      if config.Some? {
        this.config := config.value;
      } else {
        this.config := new Config();
      }
      simulationRunning := false;
      zoom := false;
      fullscreen := None;
    }

    method ToggleZoom()
      modifies this`zoom
      ensures zoom == !old(zoom)
    {
      zoom := !zoom;
    }

    method ToggleFullscreen()
      modifies this`fullscreen
      ensures fullscreen == Negated(old(fullscreen))
    {
      fullscreen := Negated(fullscreen);
    }
  }

  /** Toggling a switch that may be missing twice restores its truth value (a missing one comes back as false). */
  lemma NegatedTwice(x: Option<bool>)
    ensures Negated(Negated(x)) == Some(x == Some(true))
    ensures Negated(x) == Some(true) <==> x != Some(true)
  { }
}
