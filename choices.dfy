/** The camera-configuration scans: `try_set_image_jpeg` (serverV5.py and
    serverV8.py), `try_enable_liveview` and `try_autofocus` (serverV8.py).
    The camera's configuration tree is a value: a map from widget name to a
    node holding its widget type, its choices and its current value. Which
    writes the camera refuses is a parameter (`rejects`, a set of writes, so
    two values written to the same widget can fare differently); a write is
    the pair `set_value` + `set_config`. */
module Choices {
  import opened Common

  datatype Widget = Toggle | Radio | Menu | Other

  datatype Node = Node(widget: Widget, choices: seq<string>, current: string)

  type Config = map<string, Node>

  /** A value written to a widget: the integer 1 or one of its choice strings. */
  datatype Value = Int(n: int) | Text(s: string)

  datatype Setting = Setting(key: string, value: Value)

  // ------------------------------------------------------- choice searches

  /** The index of the first choice satisfying p. */
  function FirstMatch(s: seq<string>, p: string -> bool): (r: Option<nat>)
    ensures r.Some? ==> r.value < |s| && p(s[r.value]) && forall k | 0 <= k < r.value :: !p(s[k])
    ensures r.None? ==> forall k | 0 <= k < |s| :: !p(s[k])
  {
    if s == [] then None
    else if p(s[0]) then Some(0)
    else
      match FirstMatch(s[1..], p)
      case None => None
      case Some(i) => Some(i + 1)
  }

  /** The index of the last choice satisfying p. */
  function LastMatch(s: seq<string>, p: string -> bool): (r: Option<nat>)
    ensures r.Some? ==> r.value < |s| && p(s[r.value]) && forall k | r.value < k < |s| :: !p(s[k])
    ensures r.None? ==> forall k | 0 <= k < |s| :: !p(s[k])
  {
    if s == [] then None
    else if p(s[|s| - 1]) then Some(|s| - 1)
    else LastMatch(s[..|s| - 1], p)
  }

  /** `w in c.lower()`. */
  predicate HasLower(c: string, w: string) {
    Contains(Lower(c), w)
  }

  predicate JpegLike(c: string) {
    HasLower(c, "jpeg") || HasLower(c, "jpg") || HasLower(c, "fine")
  }

  predicate LiveLike(c: string) {
    HasLower(c, "on") || HasLower(c, "live") || HasLower(c, "enable")
    || HasLower(c, "movie") || HasLower(c, "viewfinder")
  }

  predicate HalfLike(c: string) {
    HasLower(c, "press half") || HasLower(c, "half")
  }

  predicate ReleaseLike(c: string) {
    HasLower(c, "release")
  }

  predicate NearLike(c: string) {
    HasLower(c, "near") || Lower(c) == "1" || HasLower(c, "small")
  }

  /** The "press half" test adds nothing to the "half" test. */
  lemma HalfLikeIsHalf(c: string)
    ensures HalfLike(c) <==> HasLower(c, "half")
  {
    var l := Lower(c);
    if Contains(l, "press half") {
      var i :| 0 <= i <= |l| && HasAt(l, "press half", i);
      assert l[i + 6..i + 10] == "press half"[6..10];
      assert HasAt(l, "half", i + 6);
    }
  }

  /** The choices of a node: `count_choices` answers only for radio and menu
      widgets and raises for every other type. */
  function ChoiceList(n: Node): Option<seq<string>> {
    if n.widget == Radio || n.widget == Menu then Some(n.choices) else None
  }

  /** `_find_child(cfg, names)`: the first of the names the tree has. */
  function FindChild(cfg: Config, names: seq<string>): (r: Option<string>)
    ensures r.Some? ==> r.value in names && r.value in cfg
    ensures r.Some? ==> exists i | 0 <= i < |names| :: names[i] == r.value
                                  && forall j | 0 <= j < i :: names[j] !in cfg
    ensures r.None? ==> forall i | 0 <= i < |names| :: names[i] !in cfg
  {
    if names == [] then None
    else if names[0] in cfg then
      Some(names[0])
    else
      var r := FindChild(cfg, names[1..]);
      if r.Some? then
        var i :| 0 <= i < |names[1..]| && names[1..][i] == r.value
                 && forall j | 0 <= j < i :: names[1..][j] !in cfg;
        assert names[i + 1] == r.value && forall j | 0 <= j < i + 1 :: names[j] !in cfg;
        r
      else r
  }

  // ------------------------------------------------------ try_set_image_jpeg

  const JpegKeys: seq<string> := ["imageformat", "imagequality"]

  /** The single write try_set_image_jpeg makes, if any: the first key the
      tree has whose choices include a JPEG-like one, with the first such
      choice. A present node that is not a choice widget makes
      `count_choices` raise, which ends the whole scan. */
  function JpegScan(cfg: Config, keys: seq<string>): Option<Setting>
    decreases |keys|
  {
    if keys == [] then None
    else if keys[0] !in cfg then JpegScan(cfg, keys[1..])
    else
      match ChoiceList(cfg[keys[0]])
      case None => None
      case Some(cs) =>
        match FirstMatch(cs, JpegLike)
        case Some(i) => Some(Setting(keys[0], Text(cs[i])))
        case None => JpegScan(cfg, keys[1..])
  }

  /** The first JPEG-like choice of a choice list, scanned as the source's
      inner `for` does, returning on the first hit. */
  method FirstJpegChoice(cs: seq<string>) returns (r: Option<nat>)
    ensures r == FirstMatch(cs, JpegLike)
  {
    var i := 0;
    while i < |cs|
      invariant 0 <= i <= |cs|
      invariant forall k | 0 <= k < i :: !JpegLike(cs[k])
    {
      if JpegLike(cs[i]) {
        FirstMatchAt(cs, JpegLike, i);
        return Some(i);
      }
      i := i + 1;
    }
    FirstMatchNone(cs, JpegLike);
    return None;
  }

  lemma {:induction false} FirstMatchAt(s: seq<string>, p: string -> bool, i: nat)
    requires i < |s| && p(s[i]) && forall k | 0 <= k < i :: !p(s[k])
    ensures FirstMatch(s, p) == Some(i)
    decreases i
  {
    if i > 0 {
      FirstMatchAt(s[1..], p, i - 1);
    }
  }

  lemma FirstMatchNone(s: seq<string>, p: string -> bool)
    requires forall k | 0 <= k < |s| :: !p(s[k])
    ensures FirstMatch(s, p) == None
  {
  }

  /** `try_set_image_jpeg(cam)`; `cfg` is None when `get_config` fails. The
      result is the write attempted (whether or not the camera took it, the
      function returns right after it). */
  method SelectImageJpeg(cfg: Option<Config>) returns (r: Option<Setting>)
    ensures cfg.None? ==> r.None?
    ensures cfg.Some? ==> r == JpegScan(cfg.value, JpegKeys)
  {
    if cfg.None? {
      return None;
    }
    var c := cfg.value;
    var k := 0;
    while k < |JpegKeys|
      invariant 0 <= k <= |JpegKeys|
      invariant JpegScan(c, JpegKeys[k..]) == JpegScan(c, JpegKeys)
    {
      var key := JpegKeys[k];
      assert JpegKeys[k..][1..] == JpegKeys[k + 1..];
      if key in c {
        var choices := ChoiceList(c[key]);
        if choices.None? {
          return None;
        }
        var i := FirstJpegChoice(choices.value);
        if i.Some? {
          return Some(Setting(key, Text(choices.value[i.value])));
        }
      }
      k := k + 1;
    }
    return None;
  }

  /** What the scan promises: at most one write, on "imageformat" whenever
      that widget offers a JPEG-like choice, on "imagequality" only when
      "imageformat" is absent or offers none, and always with the first
      JPEG-like choice of the widget written. */
  lemma JpegScanChoosesFirst(cfg: Config)
    ensures var r := JpegScan(cfg, JpegKeys);
      r.Some? ==>
        r.value.key in JpegKeys && r.value.key in cfg && r.value.value.Text?
        && ChoiceList(cfg[r.value.key]).Some?
        && var cs := cfg[r.value.key].choices;
           var i := FirstMatch(cs, JpegLike);
           i.Some? && r.value.value.s == cs[i.value]
    ensures var f := "imageformat";
      f in cfg && ChoiceList(cfg[f]).Some? && FirstMatch(cfg[f].choices, JpegLike).Some? ==>
        JpegScan(cfg, JpegKeys).Some? && JpegScan(cfg, JpegKeys).value.key == f
    ensures var f := "imageformat";
      JpegScan(cfg, JpegKeys).Some? && JpegScan(cfg, JpegKeys).value.key == "imagequality" ==>
        f !in cfg || (ChoiceList(cfg[f]).Some? && FirstMatch(cfg[f].choices, JpegLike).None?)
    ensures var f := "imageformat";
      f in cfg && ChoiceList(cfg[f]).None? ==> JpegScan(cfg, JpegKeys).None?
    ensures var q := "imagequality";
      PassesOn(cfg, "imageformat") && Offers(cfg, q) ==>
        var i := FirstMatch(cfg[q].choices, JpegLike).value;
        JpegScan(cfg, JpegKeys) == Some(Setting(q, Text(cfg[q].choices[i])))
    ensures JpegScan(cfg, JpegKeys).None? <==>
      !Offers(cfg, "imageformat") && (!PassesOn(cfg, "imageformat") || !Offers(cfg, "imagequality"))
  {
    assert JpegKeys[1..] == ["imagequality"];
    assert JpegKeys[1..][1..] == [];
  }

  /** The widget exists, is a choice widget, and offers a JPEG-like choice. */
  predicate Offers(cfg: Config, key: string) {
    key in cfg && ChoiceList(cfg[key]).Some? && FirstMatch(cfg[key].choices, JpegLike).Some?
  }

  /** The scan moves on past this key: the widget is absent, or is a choice
      widget without a JPEG-like choice. */
  predicate PassesOn(cfg: Config, key: string) {
    key !in cfg || (ChoiceList(cfg[key]).Some? && FirstMatch(cfg[key].choices, JpegLike).None?)
  }

  // ----------------------------------------------------- try_enable_liveview

  const LiveviewKeys: seq<string> := ["viewfinder", "liveview", "eosviewfinder", "movie", "uilock"]

  /** What the loop writes to one widget: 1 to a toggle, the first live-like
      choice to a radio, nothing otherwise. */
  function LiveviewValue(n: Node): (r: Option<Value>)
    ensures r.Some? && n.widget == Radio ==>
      exists i | 0 <= i < |n.choices| ::
        r.value == Text(n.choices[i]) && LiveLike(n.choices[i])
        && forall k | 0 <= k < i :: !LiveLike(n.choices[k])
    ensures n.widget == Radio ==> (r.None? <==> forall k | 0 <= k < |n.choices| :: !LiveLike(n.choices[k]))
    ensures n.widget == Toggle <==> r == Some(Int(1))
    ensures n.widget != Toggle && n.widget != Radio ==> r.None?
  {
    if n.widget == Toggle then Some(Int(1))
    else if n.widget == Radio then
      match FirstMatch(n.choices, LiveLike)
      case Some(i) => Some(Text(n.choices[i]))
      case None => None
    else None
  }

  /** The writes of the key loop, in key order. */
  function LiveviewPlan(cfg: Config, keys: seq<string>): seq<Setting>
    decreases |keys|
  {
    if keys == [] then []
    else
      (if keys[0] in cfg && LiveviewValue(cfg[keys[0]]).Some?
       then [Setting(keys[0], LiveviewValue(cfg[keys[0]]).value)] else [])
      + LiveviewPlan(cfg, keys[1..])
  }

  /** The write that touches "capturetarget" with its own current value. */
  function CaptureTargetWrite(cfg: Option<Config>): seq<Setting> {
    if cfg.Some? && "capturetarget" in cfg.value && cfg.value["capturetarget"].widget == Radio
    then [Setting("capturetarget", Text(cfg.value["capturetarget"].current))]
    else []
  }

  /** The first live-like choice of a radio widget, as the inner `for` with
      `break` finds it. */
  method FirstLiveChoice(cs: seq<string>) returns (r: Option<nat>)
    ensures r == FirstMatch(cs, LiveLike)
  {
    r := None;
    var i := 0;
    while i < |cs|
      invariant 0 <= i <= |cs|
      invariant forall k | 0 <= k < i :: !LiveLike(cs[k])
    {
      if LiveLike(cs[i]) {
        FirstMatchAt(cs, LiveLike, i);
        r := Some(i);
        break;
      }
      i := i + 1;
    }
    if r.None? {
      FirstMatchNone(cs, LiveLike);
    }
  }

  /** Some write of `ws` was accepted by the camera. */
  predicate AnyAccepted(ws: seq<Setting>, rejects: set<Setting>) {
    exists w | w in ws :: w !in rejects
  }

  lemma AnyAcceptedAppend(a: seq<Setting>, b: seq<Setting>, rejects: set<Setting>)
    ensures AnyAccepted(a + b, rejects) <==> AnyAccepted(a, rejects) || AnyAccepted(b, rejects)
  {
    if AnyAccepted(a + b, rejects) {
      var w :| w in a + b && w !in rejects;
      assert w in a || w in b;
    }
    if AnyAccepted(a, rejects) {
      var w :| w in a && w !in rejects;
      assert w in a + b;
    }
    if AnyAccepted(b, rejects) {
      var w :| w in b && w !in rejects;
      assert w in a + b;
    }
  }

  /** What the loop body decides to write to one key. */
  method LiveviewValueOf(c: Config, key: string) returns (value: Option<Value>)
    ensures value == (if key in c then LiveviewValue(c[key]) else None)
  {
    value := None;
    if key in c && (c[key].widget == Toggle || c[key].widget == Radio) {
      if c[key].widget == Toggle {
        value := Some(Int(1));
      } else {
        var i := FirstLiveChoice(c[key].choices);
        if i.Some? {
          value := Some(Text(c[key].choices[i.value]));
        }
      }
    }
  }

  /** The plan from key `k` on is the write for key `k`, if any, followed by
      the plan from key `k + 1` on. */
  lemma LiveviewPlanStep(c: Config, keys: seq<string>, k: nat, value: Option<Value>)
    requires k < |keys|
    requires value == (if keys[k] in c then LiveviewValue(c[keys[k]]) else None)
    ensures LiveviewPlan(c, keys[k..])
      == (if value.Some? then [Setting(keys[k], value.value)] else []) + LiveviewPlan(c, keys[k + 1..])
  {
    assert keys[k..][1..] == keys[k + 1..];
  }

  /** The `for key in lv_keys` loop over any key list. */
  method LiveviewLoop(c: Config, keys: seq<string>, rejects: set<Setting>)
    returns (enabled: bool, writes: seq<Setting>)
    ensures writes == LiveviewPlan(c, keys)
    ensures enabled <==> AnyAccepted(writes, rejects)
  {
    enabled := false;
    writes := [];
    var k := 0;
    while k < |keys|
      invariant 0 <= k <= |keys|
      invariant writes + LiveviewPlan(c, keys[k..]) == LiveviewPlan(c, keys)
      invariant enabled <==> AnyAccepted(writes, rejects)
    {
      var key := keys[k];
      var value := LiveviewValueOf(c, key);
      ghost var step := if value.Some? then [Setting(key, value.value)] else [];
      ghost var rest := LiveviewPlan(c, keys[k + 1..]);
      LiveviewPlanStep(c, keys, k, value);
      assert writes + (step + rest) == (writes + step) + rest;
      AnyAcceptedAppend(writes, step, rejects);
      if value.Some? {
        assert AnyAccepted(step, rejects) <==> Setting(key, value.value) !in rejects by {
          assert step[0] in step;
        }
        writes := writes + [Setting(key, value.value)];
        if Setting(key, value.value) !in rejects {
          enabled := true;
        }
      } else {
        assert writes + step == writes;
      }
      k := k + 1;
    }
    assert keys[k..] == [];
  }

  /** `try_enable_liveview(cam)`: `cfg` is the first `_cfg(cam)`, `later`
      the second one (for the capturetarget touch). Every key is tried, not
      only up to the first success; `enabled` tells whether any of the five
      writes was accepted. */
  method TryEnableLiveview(cfg: Option<Config>, later: Option<Config>, rejects: set<Setting>)
    returns (enabled: bool, writes: seq<Setting>)
    ensures cfg.None? ==> !enabled && writes == []
    ensures cfg.Some? ==>
      writes == LiveviewPlan(cfg.value, LiveviewKeys) + CaptureTargetWrite(later)
    ensures cfg.Some? ==> (enabled <==> AnyAccepted(LiveviewPlan(cfg.value, LiveviewKeys), rejects))
  {
    if cfg.None? {
      return false, [];
    }
    var ws;
    enabled, ws := LiveviewLoop(cfg.value, LiveviewKeys, rejects);
    writes := ws + CaptureTargetWrite(later);
  }

  /** The key loop writes to every one of the five widgets that has a value
      to take, in key order, and to nothing else. */
  lemma {:induction false} LiveviewPlanComplete(cfg: Config, keys: seq<string>)
    ensures forall w | w in LiveviewPlan(cfg, keys) ::
      w.key in keys && w.key in cfg && LiveviewValue(cfg[w.key]) == Some(w.value)
    ensures forall key | key in keys && key in cfg && LiveviewValue(cfg[key]).Some? ::
      Setting(key, LiveviewValue(cfg[key]).value) in LiveviewPlan(cfg, keys)
    decreases |keys|
  {
    if keys != [] {
      LiveviewPlanComplete(cfg, keys[1..]);
      forall key | key in keys[1..] ensures key in keys {
      }
    }
  }

  // ----------------------------------------------------------- try_autofocus

  const DriveKeys: seq<string> := ["autofocusdrive", "autofocus", "triggerfocus"]

  /** The focus-drive write: 1 to a toggle, "On" to anything else. */
  function DriveWrite(cfg: Config): seq<Setting> {
    match FindChild(cfg, DriveKeys)
    case None => []
    case Some(key) => [Setting(key, if cfg[key].widget == Toggle then Int(1) else Text("On"))]
  }

  predicate RemoteRadio(cfg: Config) {
    "eosremoterelease" in cfg && cfg["eosremoterelease"].widget == Radio
  }

  /** The half-press write and, after it, the release write. */
  function RemoteWrites(cfg: Config): seq<Setting> {
    if !RemoteRadio(cfg) then []
    else
      var cs := cfg["eosremoterelease"].choices;
      match LastMatch(cs, HalfLike)
      case None => []
      case Some(h) =>
        [Setting("eosremoterelease", Text(cs[h]))]
        + match LastMatch(cs, ReleaseLike)
          case None => []
          case Some(r) => [Setting("eosremoterelease", Text(cs[r]))]
  }

  predicate ManualNode(cfg: Config) {
    "manualfocusdrive" in cfg
    && (cfg["manualfocusdrive"].widget == Radio || cfg["manualfocusdrive"].widget == Menu)
  }

  /** The manual-focus choice: the first near-like choice, else choice 0;
      none at all when the list is empty (`get_choice(0)` raises). */
  function ManualChoice(cs: seq<string>): (r: Option<string>)
    ensures r.None? <==> cs == []
    ensures r.Some? ==> r.value in cs
    ensures r.Some? && r.value != cs[0] ==> NearLike(r.value)
    ensures (exists k | 0 <= k < |cs| :: NearLike(cs[k])) ==>
      exists i | 0 <= i < |cs| ::
        r == Some(cs[i]) && NearLike(cs[i]) && forall k | 0 <= k < i :: !NearLike(cs[k])
    ensures cs != [] && (forall k | 0 <= k < |cs| :: !NearLike(cs[k])) ==> r == Some(cs[0])
  {
    if cs == [] then None
    else
      match FirstMatch(cs, NearLike)
      case Some(i) => Some(cs[i])
      case None => Some(cs[0])
  }

  /** The `half`/`release` loop: both are the last matching choice, since the
      loop runs to the end and overwrites on every hit. */
  method HalfRelease(cs: seq<string>) returns (half: Option<string>, release: Option<string>)
    ensures half.None? <==> LastMatch(cs, HalfLike).None?
    ensures half.Some? ==> half.value == cs[LastMatch(cs, HalfLike).value]
    ensures release.None? <==> LastMatch(cs, ReleaseLike).None?
    ensures release.Some? ==> release.value == cs[LastMatch(cs, ReleaseLike).value]
  {
    half, release := None, None;
    var hi: Option<nat> := None;
    var ri: Option<nat> := None;
    var i := 0;
    while i < |cs|
      invariant 0 <= i <= |cs|
      invariant hi == LastMatch(cs[..i], HalfLike) && ri == LastMatch(cs[..i], ReleaseLike)
      invariant half == (if hi.Some? then Some(cs[hi.value]) else None)
      invariant release == (if ri.Some? then Some(cs[ri.value]) else None)
    {
      assert cs[..i + 1][..i] == cs[..i];
      if HalfLike(cs[i]) {
        hi := Some(i);
        half := Some(cs[i]);
      }
      if ReleaseLike(cs[i]) {
        ri := Some(i);
        release := Some(cs[i]);
      }
      i := i + 1;
    }
    assert cs[..i] == cs;
  }

  /** The manual-focus loop with `break`. */
  method PickManualChoice(cs: seq<string>) returns (r: Option<string>)
    ensures r == ManualChoice(cs)
  {
    if cs == [] {
      return None;
    }
    var choice := cs[0];
    var i := 0;
    while i < |cs|
      invariant 0 <= i <= |cs|
      invariant forall k | 0 <= k < i :: !NearLike(cs[k])
    {
      if NearLike(cs[i]) {
        FirstMatchAt(cs, NearLike, i);
        choice := cs[i];
        break;
      }
      i := i + 1;
    }
    if i == |cs| {
      FirstMatchNone(cs, NearLike);
    }
    return Some(choice);
  }

  /** `min(max(timeout_s, 0.1), 2.0)`. */
  function SettleTime(t: real): (r: real)
    ensures 0.1 <= r <= 2.0
    ensures 0.1 <= t <= 2.0 ==> r == t
  {
    var lo := if t > 0.1 then t else 0.1;
    if lo < 2.0 then lo else 2.0
  }

  /** The manual-focus write, when the widget exists and has a choice. */
  function ManualWrite(cfg: Config): seq<Setting> {
    if ManualNode(cfg) && ManualChoice(cfg["manualfocusdrive"].choices).Some?
    then [Setting("manualfocusdrive", Text(ManualChoice(cfg["manualfocusdrive"].choices).value))]
    else []
  }

  /** Some node of the autofocus sequence exists, so the settle pause is taken. */
  predicate AnyFocusNode(cfg: Config) {
    FindChild(cfg, DriveKeys).Some? || RemoteRadio(cfg) || ManualNode(cfg)
  }

  /** The writes whose answer feeds `ok`: the release write's answer is
      dropped, so only the half-press of the remote-release block counts. */
  function HalfPress(cfg: Config): (r: seq<Setting>)
    ensures r == [] <==> RemoteWrites(cfg) == []
    ensures r != [] ==> r == [RemoteWrites(cfg)[0]]
  {
    var ws := RemoteWrites(cfg);
    if ws == [] then [] else [ws[0]]
  }

  /** The eosremoterelease block: the loop, then the half-press and release
      writes; `accepted` is the half-press write's answer alone. */
  method RemoteStep(c: Config, rejects: set<Setting>) returns (ws: seq<Setting>, accepted: bool)
    requires RemoteRadio(c)
    ensures ws == RemoteWrites(c)
    ensures accepted <==> AnyAccepted(HalfPress(c), rejects)
  {
    var half, release := HalfRelease(c["eosremoterelease"].choices);
    ws := [];
    accepted := false;
    if half.Some? {
      ws := [Setting("eosremoterelease", Text(half.value))];
      accepted := ws[0] !in rejects;
      assert ws[0] in ws;
      if release.Some? {
        ws := ws + [Setting("eosremoterelease", Text(release.value))];
      }
    }
  }

  /** A camera that refuses the half-press but takes the release leaves `ok`
      false: the release write is made, and its answer is not counted. */
  lemma ReleaseAnswerIgnored(cfg: Config, rejects: set<Setting>)
    requires |RemoteWrites(cfg)| == 2
    requires RemoteWrites(cfg)[0] in rejects && RemoteWrites(cfg)[1] !in rejects
    ensures AnyAccepted(RemoteWrites(cfg), rejects)
    ensures !AnyAccepted(HalfPress(cfg), rejects)
  {
    assert RemoteWrites(cfg)[1] in RemoteWrites(cfg);
  }

  /** `try_autofocus(cam, timeout_s)`. `ok` is None when the call raised
      (a manual-focus widget without choices); the writes made before that
      are still listed. `ok` reports the drive, half-press and manual-focus
      writes; the release write is made but its answer is dropped. `settle`
      is the pause taken at the end, present only when some node was tried. */
  method TryAutofocus(cfg: Option<Config>, rejects: set<Setting>, timeout: real)
    returns (ok: Option<bool>, writes: seq<Setting>, settle: Option<real>)
    ensures cfg.None? ==> ok == Some(false) && writes == [] && settle.None?
    ensures cfg.Some? ==>
      writes == DriveWrite(cfg.value) + RemoteWrites(cfg.value) + ManualWrite(cfg.value)
    ensures cfg.Some? ==>
      (ok.None? <==> ManualNode(cfg.value) && cfg.value["manualfocusdrive"].choices == [])
    ensures cfg.Some? && ok.Some? ==>
      (ok.value <==> AnyAccepted(DriveWrite(cfg.value) + HalfPress(cfg.value) + ManualWrite(cfg.value), rejects))
    ensures settle.Some? ==> settle.value == SettleTime(timeout)
    ensures settle.Some? <==> cfg.Some? && ok.Some? && AnyFocusNode(cfg.value)
  {
    if cfg.None? {
      return Some(false), [], None;
    }
    var c := cfg.value;
    var tried := false;
    var accepted := false;
    var drive := FindChild(c, DriveKeys);
    writes := [];
    if drive.Some? {
      tried := true;
      writes := [Setting(drive.value, if c[drive.value].widget == Toggle then Int(1) else Text("On"))];
      accepted := writes[0] !in rejects;
      assert writes[0] in writes;
    }
    assert writes == DriveWrite(c);
    ghost var counted := writes;
    if RemoteRadio(c) {
      tried := true;
      var ws, acc := RemoteStep(c, rejects);
      AnyAcceptedAppend(counted, HalfPress(c), rejects);
      counted := counted + HalfPress(c);
      writes := writes + ws;
      accepted := accepted || acc;
    }
    assert writes == DriveWrite(c) + RemoteWrites(c);
    assert counted == DriveWrite(c) + HalfPress(c);
    assert accepted <==> AnyAccepted(counted, rejects);
    if ManualNode(c) {
      tried := true;
      var choice := PickManualChoice(c["manualfocusdrive"].choices);
      if choice.None? {
        return None, writes, None;
      }
      var w := [Setting("manualfocusdrive", Text(choice.value))];
      assert w[0] in w;
      AnyAcceptedAppend(counted, w, rejects);
      writes := writes + w;
      counted := counted + w;
      accepted := accepted || w[0] !in rejects;
    }
    ok := Some(accepted);
    settle := if tried then Some(SettleTime(timeout)) else None;
  }

  /** The remote-release writes: a half-press with the last half-like
      choice, then, only after it, a release with the last release-like
      choice; no release is written without a half-press. */
  lemma RemoteWritesOrder(cfg: Config)
    requires RemoteRadio(cfg)
    ensures var cs := cfg["eosremoterelease"].choices;
      var ws := RemoteWrites(cfg);
      |ws| <= 2
      && (ws == [] <==> forall k | 0 <= k < |cs| :: !HalfLike(cs[k]))
      && (|ws| >= 1 ==> ws[0].value.Text? && IsLastWith(cs, HalfLike, ws[0].value.s))
      && (|ws| == 2 <==> |ws| >= 1 && exists k | 0 <= k < |cs| :: ReleaseLike(cs[k]))
      && (|ws| == 2 ==> ws[1].value.Text? && IsLastWith(cs, ReleaseLike, ws[1].value.s))
  {
    var cs := cfg["eosremoterelease"].choices;
    var h := LastMatch(cs, HalfLike);
    var r := LastMatch(cs, ReleaseLike);
    if h.Some? {
      assert IsLastWith(cs, HalfLike, cs[h.value]);
      if r.Some? {
        assert IsLastWith(cs, ReleaseLike, cs[r.value]);
      }
    }
  }

  /** v is a choice satisfying p, taken at a position with no later choice
      satisfying p. */
  ghost predicate IsLastWith(cs: seq<string>, p: string -> bool, v: string) {
    exists h | 0 <= h < |cs| :: cs[h] == v && p(cs[h]) && forall k | h < k < |cs| :: !p(cs[k])
  }
}
