/**
 The Watson panel plugin: classifying the Watson state file as an active or
 inactive tracking session, folding that into the plugin's status, mapping
 the status to the icon on show, and acquiring and releasing the file monitor
 that re-runs this on every change of the state file.

 Reading the state file, the JSON lookup, the OS file watch and the panel's
 geometry are outside the model: each enters as a parameter.
 */
module Watson {
  import opened Wrappers
  import opened CTypes
  import Utils

  // ---------------------------------------------------------------------------
  // Data model (watson.h)
  // ---------------------------------------------------------------------------

  /** `enum watson_status`. */
  datatype Status = Active | Inactive

  /** `enum watson_icon`. */
  datatype Icon = IconActive | IconInactive

  /** The integer values C gives the two `enum watson_status` constants. */
  const STATUS_ACTIVE: int := 0
  const STATUS_INACTIVE: int := 1

  /** `struct watson_state`: what one read of the state file yields. */
  datatype WatsonState = WatsonState(status: Status)

  /** The token kinds the mjson lookup reports (`enum mjson_tok`). */
  datatype JsonTok =
    | TokInvalid | TokKey | TokString | TokNumber
    | TokTrue | TokFalse | TokNull | TokArray | TokObject

  /**
   The lookup of `$.project` in a JSON buffer: given the bytes it may look at,
   the kind of token found there (`TokInvalid` when nothing is found). The
   mjson parser is not part of this model, so every lookup is a parameter.
   */
  type ProjectLookup = seq<byte> -> JsonTok

  /** The panel geometry the host reports when an icon is drawn. */
  datatype Panel = Panel(size: Int32, nrows: UInt32)

  /** What the host guarantees of its geometry: at least one row. */
  predicate PanelOk(panel: Panel)
  {
    panel.nrows >= 1
  }

  // ---------------------------------------------------------------------------
  // Classification (state_new) and processing (watson_process)
  // ---------------------------------------------------------------------------

  /** The bytes handed to the lookup: the content, cut to at most INT_MAX bytes. */
  function LookupInput(content: seq<byte>): (window: seq<byte>)
    ensures |window| <= INT_MAX && |window| <= |content|
    ensures window == content[..|window|]
    ensures |content| <= INT_MAX ==> window == content
    ensures |content| > INT_MAX ==> |window| == INT_MAX
  {
    content[..ClampToInt(|content|)]
  }

  /**
   `state_new`: a failed read gives no state; a successful one gives a state
   whose status is Active exactly when the lookup finds a string.
   */
  function StateNew(read: Option<seq<byte>>, lookup: ProjectLookup): (state: Option<WatsonState>)
    ensures state.None? <==> read.None?
    ensures state.Some? ==>
      (state.value.status == Active <==> lookup(LookupInput(read.value)) == TokString)
  {
    match read
    case None => None
    case Some(content) =>
      if lookup(LookupInput(content)) == TokString then Some(WatsonState(Active))
      else Some(WatsonState(Inactive))
  }

  /** The status `watson_process` stores for a state: Inactive when there is none. */
  function ProcessedStatus(state: Option<WatsonState>): (s: Status)
    ensures s == Active <==> state == Some(WatsonState(Active))
  {
    match state
    case None => Inactive
    case Some(st) => st.status
  }

  /**
   The status one read of the state file leads to. The classification is
   fail-safe: it is Active only when the file was read and the lookup found a
   string, and Inactive for every other outcome.
   */
  function ReadStatus(read: Option<seq<byte>>, lookup: ProjectLookup): (s: Status)
    ensures s == Active <==> read.Some? && lookup(LookupInput(read.value)) == TokString
    ensures read.None? ==> s == Inactive
  {
    ProcessedStatus(StateNew(read, lookup))
  }

  // ---------------------------------------------------------------------------
  // Status to icon (watson_update)
  // ---------------------------------------------------------------------------

  /** The C value of a status. */
  function StatusCode(s: Status): (c: int)
    ensures c == STATUS_ACTIVE <==> s == Active
    ensures c == STATUS_INACTIVE <==> s == Inactive
  {
    match s
    case Active => STATUS_ACTIVE
    case Inactive => STATUS_INACTIVE
  }

  /**
   The switch of `watson_update` on the C value of the status: the active icon
   for STATUS_ACTIVE, the inactive icon for STATUS_INACTIVE and for any other
   value.
   */
  function IconForCode(code: int): (i: Icon)
    ensures i == IconActive <==> code == STATUS_ACTIVE
  {
    if code == STATUS_ACTIVE then IconActive
    else if code == STATUS_INACTIVE then IconInactive
    else IconInactive
  }

  /** The icon a status is shown with. */
  function IconFor(s: Status): (i: Icon)
    ensures i == IconActive <==> s == Active
    ensures i == IconInactive <==> s == Inactive
  {
    IconForCode(StatusCode(s))
  }

  // ---------------------------------------------------------------------------
  // The plugin's observable state and the steps that change it
  // ---------------------------------------------------------------------------

  /** An icon as drawn: its kind and its size in pixels. */
  datatype Picture = Picture(kind: Icon, size: int)

  /** What the plugin shows: its status and the icon in its box, if any. */
  datatype View = View(status: Status, shown: Option<Picture>)

  /** `watson_process` on views: only the status changes. */
  function ProcessView(v: View, read: Option<seq<byte>>, lookup: ProjectLookup): (w: View)
  {
    v.(status := ReadStatus(read, lookup))
  }

  /** `watson_update` on views: the icon for the current status replaces the one shown. */
  function UpdateView(v: View, panel: Panel): (w: View)
    requires PanelOk(panel)
  {
    v.(shown := Some(Picture(IconFor(v.status), Utils.IconSize(panel.size, panel.nrows))))
  }

  /**
   `watson_file_changed`: one process step, then one update step. Afterwards
   the plugin shows exactly the classification of what was read, with the
   matching icon sized for the panel, whatever it showed before.
   */
  function EventStep(v: View, read: Option<seq<byte>>, lookup: ProjectLookup, panel: Panel): (w: View)
    requires PanelOk(panel)
    ensures w.status == Active <==> read.Some? && lookup(LookupInput(read.value)) == TokString
    ensures w.shown.Some?
    ensures w.shown.value.kind == IconActive <==> w.status == Active
    ensures w.shown.value.size == Utils.IconSize(panel.size, panel.nrows)
  {
    UpdateView(ProcessView(v, read, lookup), panel)
  }

  /**
   The view after a change event for each read, in order. Once at least one
   event has been handled an icon is shown, and it is the one for the status:
   there is no intermediate or unknown display.
   */
  function AfterEvents(v: View, observed: seq<Option<seq<byte>>>, lookup: ProjectLookup, panel: Panel): (w: View)
    requires PanelOk(panel)
    ensures observed == [] ==> w == v
    ensures observed != [] ==> w.shown.Some? && (w.shown.value.kind == IconActive <==> w.status == Active)
    decreases |observed|
  {
    if observed == [] then v
    else AfterEvents(EventStep(v, observed[0], lookup, panel), observed[1..], lookup, panel)
  }

  /** Nothing of the previous view survives a change event: no merging, no stale copy. */
  lemma EventForgetsPast(v1: View, v2: View, read: Option<seq<byte>>, lookup: ProjectLookup, panel: Panel)
    requires PanelOk(panel)
    ensures EventStep(v1, read, lookup, panel) == EventStep(v2, read, lookup, panel)
  {
  }

  /** Handling a second event on unchanged content changes nothing. */
  lemma EventIdempotent(v: View, read: Option<seq<byte>>, lookup: ProjectLookup, panel: Panel)
    requires PanelOk(panel)
    ensures EventStep(EventStep(v, read, lookup, panel), read, lookup, panel)
         == EventStep(v, read, lookup, panel)
  {
    EventForgetsPast(EventStep(v, read, lookup, panel), v, read, lookup, panel);
  }

  /** After any run of events, the view is the one the last read alone gives. */
  lemma {:induction false} LastEventWins(v: View, observed: seq<Option<seq<byte>>>, lookup: ProjectLookup, panel: Panel)
    requires PanelOk(panel) && observed != []
    ensures AfterEvents(v, observed, lookup, panel) == EventStep(v, observed[|observed| - 1], lookup, panel)
    decreases |observed|
  {
    var next := EventStep(v, observed[0], lookup, panel);
    if |observed| > 1 {
      LastEventWins(next, observed[1..], lookup, panel);
      EventForgetsPast(next, v, observed[|observed| - 1], lookup, panel);
    }
  }

  /** Any number of events on unchanged content end where a single one does. */
  lemma RepeatedEvents(v: View, read: Option<seq<byte>>, n: nat, lookup: ProjectLookup, panel: Panel)
    requires PanelOk(panel) && n >= 1
    ensures AfterEvents(v, seq(n, _ => read), lookup, panel) == EventStep(v, read, lookup, panel)
  {
    LastEventWins(v, seq(n, _ => read), lookup, panel);
  }

  /**
   A transient classification from a half-written file is corrected by the
   next event: the view then reflects the completed content only.
   */
  lemma LaterEventCorrects(v: View, partial: Option<seq<byte>>, complete: Option<seq<byte>>,
                           lookup: ProjectLookup, panel: Panel)
    requires PanelOk(panel)
    ensures AfterEvents(v, [partial, complete], lookup, panel).status == ReadStatus(complete, lookup)
  {
    LastEventWins(v, [partial, complete], lookup, panel);
  }

  // ---------------------------------------------------------------------------
  // GObject references and the file monitor (monitor_new, monitor_free)
  // ---------------------------------------------------------------------------

  /**
   The live GObject and slice allocations the monitor code acquires, each
   identified by a handle.
   */
  class ObjectPool {
    var live: set<nat>
    var next: nat

    ghost predicate Valid()
      reads this
    {
      forall h :: h in live ==> h < next
    }

    constructor ()
      ensures Valid() && live == {}
    {
      live, next := {}, 0;
    }

    /** Allocate a new object. */
    method Acquire() returns (h: nat)
      requires Valid()
      modifies this
      ensures Valid()
      ensures h !in old(live) && live == old(live) + {h}
    {
      h := next;
      live, next := live + {h}, next + 1;
    }

    /** Drop the last reference to an object; dropping NULL leaves every object alive. */
    method Release(h: Option<nat>)
      requires Valid()
      requires h.Some? ==> h.value in live
      modifies this
      ensures Valid()
      ensures live == if h.Some? then old(live) - {h.value} else old(live)
    {
      if h.Some? {
        live := live - {h.value};
      }
    }
  }

  /**
   `struct watson_monitor`, together with the slice that holds it: the GFile
   for the state file and the GFileMonitor on it (NULL until it is created).
   */
  datatype WatsonMonitor = WatsonMonitor(slice: nat, file: nat, monitor: Option<nat>)

  /** The allocations a monitor owns. */
  function Handles(wm: Option<WatsonMonitor>): (hs: set<nat>)
    ensures wm.None? ==> hs == {}
    ensures wm.Some? ==> wm.value.slice in hs && wm.value.file in hs
    ensures wm.Some? && wm.value.monitor.Some? ==> wm.value.monitor.value in hs
  {
    match wm
    case None => {}
    case Some(m) =>
      {m.slice, m.file} + (if m.monitor.Some? then {m.monitor.value} else {})
  }

  /** The allocations of a monitor are three (or, before the OS watch exists, two) different objects. */
  predicate Distinct(wm: Option<WatsonMonitor>)
  {
    wm.Some? ==>
      && wm.value.slice != wm.value.file
      && (wm.value.monitor.Some? ==>
            wm.value.monitor.value != wm.value.slice && wm.value.monitor.value != wm.value.file)
  }

  /** `monitor_free`: NULL is a no-op; otherwise every allocation of the monitor is released. */
  method MonitorFree(pool: ObjectPool, wm: Option<WatsonMonitor>)
    requires pool.Valid() && Handles(wm) <= pool.live && Distinct(wm)
    modifies pool
    ensures pool.Valid()
    ensures pool.live == old(pool.live) - Handles(wm)
  {
    if wm.None? {
      return;
    }
    var m := wm.value;
    pool.Release(Some(m.file));
    pool.Release(m.monitor);
    pool.Release(Some(m.slice));
  }

  /**
   `monitor_new`: builds the monitor structure and its GFile, then asks for the
   OS watch (`watchable` says whether that succeeds). On failure the partly
   built structure is released and there is no monitor; on success the monitor
   holds three new allocations.
   */
  method MonitorNew(pool: ObjectPool, watchable: bool) returns (wm: Option<WatsonMonitor>)
    requires pool.Valid()
    modifies pool
    ensures pool.Valid()
    ensures wm.None? <==> !watchable
    ensures wm.Some? ==> wm.value.monitor.Some? && Distinct(wm) && |Handles(wm)| == 3
    ensures Handles(wm) !! old(pool.live)
    ensures pool.live == old(pool.live) + Handles(wm)
  {
    var slice := pool.Acquire();
    var file := pool.Acquire();
    var monitor: Option<nat> := None;
    if watchable {
      var h := pool.Acquire();
      monitor := Some(h);
    }
    var built := WatsonMonitor(slice, file, monitor);
    if monitor.None? {
      MonitorFree(pool, Some(built));
      return None;
    }
    wm := Some(built);
  }

  // ---------------------------------------------------------------------------
  // The plugin (struct watson_plugin)
  // ---------------------------------------------------------------------------

  /** A GtkImage in the plugin's box; `alive` turns false when it is destroyed. */
  class IconWidget {
    const kind: Icon
    const size: int
    var alive: bool

    constructor (kind: Icon, size: int)
      ensures this.kind == kind && this.size == size && alive
    {
      this.kind, this.size, alive := kind, size, true;
    }
  }

  class Plugin {
    var status: Status
    var icon: IconWidget?
    var box: seq<IconWidget>
    var monitor: Option<WatsonMonitor>
    /** The slice holding the plugin structure itself. */
    var allocation: nat
    /** The number of icons drawn so far. */
    ghost var paints: nat

    /** The box holds the current icon, and only it, and that icon is alive. */
    ghost predicate Valid()
      reads this, icon
    {
      && box == (if icon == null then [] else [icon])
      && (icon != null ==> icon.alive)
    }

    /** Every allocation the plugin owns: its own structure and its monitor's. */
    function Owned(): (hs: set<nat>)
      reads this
      ensures allocation in hs && Handles(monitor) <= hs
    {
      {allocation} + Handles(monitor)
    }

    /** The plugin's allocations are all different objects. */
    predicate OwnsDistinct()
      reads this
    {
      allocation !in Handles(monitor) && Distinct(monitor)
    }

    /** What the plugin shows. */
    function CurrentView(): (v: View)
      reads this, icon
    {
      View(status, if icon == null then None else Some(Picture(icon.kind, icon.size)))
    }

    /**
     `watson_new`: the plugin structure is allocated, with no icon yet and
     status Inactive before anything has been read, and a monitor on the state
     file when the OS lets it watch the path.
     */
    constructor (pool: ObjectPool, watchable: bool)
      requires pool.Valid()
      modifies pool
      ensures Valid() && CurrentView() == View(Inactive, None) && paints == 0
      ensures pool.Valid()
      ensures monitor.None? <==> !watchable
      ensures monitor.Some? ==> monitor.value.monitor.Some? && |Handles(monitor)| == 3
      ensures OwnsDistinct()
      ensures Owned() !! old(pool.live)
      ensures pool.live == old(pool.live) + Owned()
    {
      var own := pool.Acquire();
      var wm := MonitorNew(pool, watchable);
      allocation := own;
      status := Inactive;
      icon := null;
      box := [];
      monitor := wm;
      paints := 0;
    }

    /** `watson_process`: store the status one read of the state file leads to. */
    method Process(read: Option<seq<byte>>, lookup: ProjectLookup)
      modifies this`status
      ensures status == ProcessedStatus(StateNew(read, lookup))
      ensures CurrentView() == ProcessView(old(CurrentView()), read, lookup)
    {
      var state := StateNew(read, lookup);
      if state.None? {
        status := Inactive;
      } else {
        status := state.value.status;
      }
    }

    /**
     `icon_update`: destroy the icon shown, if any, and put a new icon of the
     requested kind, sized for the panel, in the box.
     */
    method IconUpdate(kind: Icon, panel: Panel)
      requires Valid() && PanelOk(panel)
      modifies this`icon, this`box, this`paints, icon
      ensures Valid() && fresh(icon)
      ensures icon != null && icon.kind == kind
      ensures icon.size == Utils.IconSize(panel.size, panel.nrows)
      ensures box == [icon]
      ensures old(icon) != null ==> !old(icon).alive
      ensures paints == old(paints) + 1
    {
      if icon != null {
        icon.alive := false;
        box := [];
      }
      var size := Utils.IconSize(panel.size, panel.nrows);
      icon := new IconWidget(kind, size);
      box := box + [icon];
      paints := paints + 1;
    }

    /** `watson_update`: show the icon for the current status. */
    method Update(panel: Panel)
      requires Valid() && PanelOk(panel)
      modifies this`icon, this`box, this`paints, icon
      ensures Valid() && fresh(icon)
      ensures CurrentView() == UpdateView(old(CurrentView()), panel)
      ensures old(icon) != null ==> !old(icon).alive
      ensures paints == old(paints) + 1
    {
      var kind := IconForCode(StatusCode(status));
      IconUpdate(kind, panel);
    }

    /** `watson_file_changed`: one process step, then one update step, per event. */
    method FileChanged(read: Option<seq<byte>>, lookup: ProjectLookup, panel: Panel)
      requires Valid() && PanelOk(panel)
      modifies this`status, this`icon, this`box, this`paints, icon
      ensures Valid() && fresh(icon)
      ensures CurrentView() == EventStep(old(CurrentView()), read, lookup, panel)
      ensures old(icon) != null ==> !old(icon).alive
      ensures paints == old(paints) + 1
      ensures monitor == old(monitor)
    {
      Process(read, lookup);
      Update(panel);
    }

    /**
     `watson_free`, apart from the settings dialog: the monitor's allocations
     are released, the icon is destroyed along with the box, and the plugin
     structure is released.
     */
    method Free(pool: ObjectPool)
      requires Valid() && pool.Valid()
      requires Owned() <= pool.live && OwnsDistinct()
      modifies pool, icon
      ensures pool.Valid()
      ensures pool.live == old(pool.live) - Owned()
      ensures icon != null ==> !icon.alive
    {
      MonitorFree(pool, monitor);
      if icon != null {
        icon.alive := false;
      }
      pool.Release(Some(allocation));
    }
  }

  /**
   `plugin_construct`: build the plugin, then compute and draw the status once
   before any change event arrives.
   */
  method Construct(pool: ObjectPool, watchable: bool, read: Option<seq<byte>>,
                   lookup: ProjectLookup, panel: Panel) returns (p: Plugin)
    requires pool.Valid() && PanelOk(panel)
    modifies pool
    ensures fresh(p) && fresh(p.icon) && p.Valid() && pool.Valid()
    ensures p.CurrentView() == EventStep(View(Inactive, None), read, lookup, panel)
    ensures p.paints == 1
    ensures p.monitor.None? <==> !watchable
    ensures p.OwnsDistinct() && p.Owned() !! old(pool.live)
    ensures pool.live == old(pool.live) + p.Owned()
  {
    p := new Plugin(pool, watchable);
    p.Process(read, lookup);
    p.Update(panel);
  }

  /**
   A plugin lifetime: construction with its first paint, a change event, and
   `watson_free` leave exactly the allocations that were live before, whether
   or not the watch could be set up.
   */
  method ConstructThenFree(pool: ObjectPool, watchable: bool, first: Option<seq<byte>>,
                           changed: Option<seq<byte>>, lookup: ProjectLookup, panel: Panel)
    requires pool.Valid() && PanelOk(panel)
    modifies pool
    ensures pool.Valid() && pool.live == old(pool.live)
  {
    var p := Construct(pool, watchable, first, lookup, panel);
    p.FileChanged(changed, lookup, panel);
    p.Free(pool);
  }
}
