# Watson panel plugin — a Dafny model

The xfce4 Watson plugin shows, in a desktop panel, whether the Watson time
tracker is recording a session. It watches Watson's JSON state file, and on
every change it re-reads the file. It classifies the content as Active when
`$.project` holds a JSON string and Inactive otherwise. It stores that status
in the plugin and replaces the panel icon with the active or inactive picture.
Panels older than libxfce4panel 4.14 size the icon with a small heuristic over
the panel's geometry.

This project models that core:

- `ctypes.dfy` (module `CTypes`): the C `int`/`unsigned int` limits. It also holds the clamp to
  `INT_MAX` that both source files apply, and C's truncating division, which
  Dafny's Euclidean `/` is not.
- `utils.dfy` (module `Utils`): the pre-4.14 branch of `plugin_get_icon_size`.
- `watson.dfy` (module `Watson`): the types of `watson.h` and the classification of `state_new`.
  It also holds `watson_process`, the status-to-icon switch of `watson_update`, and
  `icon_update`. Then come `watson_file_changed`, the status default of `watson_new`,
  `monitor_new` and `monitor_free`, `watson_free` apart from its dialog, and
  `plugin_construct` apart from its signal connections.
  The plugin is a class. Its constructor sets every field, including `monitor`,
  and its methods update `status`, `icon` and the box contents in place.
  `Process`, `Update` and `FileChanged` are specified by pure functions on a `View`
  (status plus the picture shown), and the lemmas about event sequences are
  stated on those functions. `IconUpdate` states the new icon and box directly.
  The constructor, `Free` and the monitor methods state which allocations of an
  `ObjectPool` become live or are released.
- `wrappers.dfy` (module `Wrappers`): `Option`, standing for a pointer that may be NULL.

Inputs from outside the plugin are parameters:
- the result of reading the state file, as `Option<seq<byte>>`;
- the mjson lookup, as a function from the bytes it may inspect to a token kind;
- whether the OS lets the path be watched;
- the panel's size and row count.

## Model

| member | source | states |
|---|---|---|
| CTypes.ClampToInt | src/utils.c:25 | the clamped count never exceeds INT_MAX or the count, and is the count itself unless that is above INT_MAX |
| CTypes.CDiv | src/utils.c:27 | C division by a positive divisor truncates toward zero: the quotient times the divisor lies within one divisor of the dividend, on the zero side |
| CTypes.CDivMonotone | src/utils.c:27 | the truncated quotient never decreases as the dividend grows |
| CTypes.CDivAntitone | src/utils.c:25-27 | for a non-negative dividend the quotient never increases as the divisor grows |
| CTypes.CDivBounded | src/utils.c:27 | the quotient lies between zero and the dividend |
| Utils.RowWidth | src/utils.c:20-27 | the per-row width lies between zero and the panel size, and equals the size for a one-row panel |
| Utils.IconSize | src/utils.c:14-39 | the icon size is at least 12, is one of 12, 16, 24, 32 or at least 38, and leaves 4 pixels spare on any panel of 20 pixels or more |
| Utils.SizeForWidth | src/utils.c:29-39 | the chain gives at least 12, one of 12, 16, 24, 32 or at least 38, and at most the width minus 4 from width 20 on |
| Utils.IconSizeBuckets | src/utils.c:29-39 | both directions of each bucket: 12 iff width at most 19, 16 iff 20..27, 24 iff 28..35, 32 iff 36..41; width minus 4 exactly at widths 16, 20, 28, 36 and from 42 on |
| Utils.SizeForWidthMonotone | src/utils.c:29-39 | the bucketing never shrinks as the width grows |
| Utils.IconSizeMonotone | src/utils.c:23-39 | a larger panel never gets a smaller icon |
| Utils.IconSizeMoreRows | src/utils.c:24-39 | more rows on the same panel never get a larger icon |
| Watson.LookupInput | src/watson.c:153-154 | the lookup sees a prefix of the content of at most INT_MAX bytes, all of it when the content fits |
| Watson.StateNew | src/watson.c:131-169 | a failed read gives no state; otherwise the status is Active if and only if the `$.project` lookup finds a string |
| Watson.ProcessedStatus | src/watson.c:212-217 | the stored status is Active exactly when a state exists and is Active; no state means Inactive |
| Watson.ReadStatus | src/watson.c:212-217 | the status `watson_process` stores after `state_new`: Active if and only if the file was read and the lookup found a string; a failed read gives Inactive |
| Watson.StatusCode | src/watson.h:14-18 | STATUS_ACTIVE and STATUS_INACTIVE stand for exactly Active and Inactive |
| Watson.IconForCode | src/watson.c:184-194 | the switch is total: the active icon exactly for STATUS_ACTIVE, the inactive icon for every other value |
| Watson.IconFor | src/watson.c:179-197 | Active is shown with the active icon and Inactive with the inactive icon, and no status shares an icon |
| Watson.EventStep | src/watson.c:243-244 | after a change event the status is the classification of what was read, an icon is shown, and its kind and size match that status and the panel |
| Watson.AfterEvents | src/watson.c:243-244 | no events leave the view as it was; after at least one event an icon is shown and its kind matches the status |
| Watson.EventForgetsPast | src/watson.c:212-217 | the view after an event does not depend on the view before it |
| Watson.EventIdempotent | src/watson.c:243-244 | a second event on unchanged content leaves status and icon as they are |
| Watson.LastEventWins | src/watson.c:232-245 | after any non-empty run of events the view is the one the last read alone gives |
| Watson.RepeatedEvents | src/watson.c:243-244 | any number of events on unchanged content end where a single one does |
| Watson.LaterEventCorrects | src/watson.c:243-244 | a transient status from a half-written file is replaced by the status of the completed file on the next event |
| Watson.ObjectPool.Acquire | src/watson.c:281-284 | an allocation is a new object, not live before, and only it becomes live |
| Watson.ObjectPool.Release | src/watson.c:261-264 | releasing an object makes exactly it no longer live; releasing NULL changes nothing |
| Watson.MonitorFree | src/watson.c:256-265 | releasing NULL changes nothing; releasing a monitor releases its file, its OS monitor and its structure |
| Watson.MonitorNew | src/watson.c:275-299 | there is no monitor exactly when the watch cannot be set up, and nothing stays allocated then; on success the monitor owns three new, pairwise different allocations, one of them the OS monitor |
| Watson.Plugin.constructor | src/watson.c:309-328 | a new plugin is Inactive with no icon before any read, and holds a monitor exactly when the path can be watched; its own structure and the monitor's three objects are new, pairwise different allocations |
| Watson.Plugin.Process | src/watson.c:207-220 | only the status changes, and it becomes the status the read leads to |
| Watson.Plugin.IconUpdate | src/watson.c:93-107 | the old icon is destroyed; the box holds exactly one new live icon, of the requested kind and sized for the panel |
| Watson.Plugin.Update | src/watson.c:179-197 | the icon shown becomes the one for the stored status; the status is unchanged |
| Watson.Plugin.FileChanged | src/watson.c:232-245 | each event is one process step followed by one update step, drawing exactly one icon; the monitor is untouched |
| Watson.Plugin.Free | src/watson.c:362-378 | every allocation of the monitor and the plugin structure itself are released, and the icon is destroyed |
| Watson.Construct | src/watson.c:409-427 | a constructed plugin already shows the status of the first read, drawn once |
| Watson.ConstructThenFree | src/watson.c:309-378 | construction, the first paint, a change event and freeing leave exactly the allocations live before, with or without a watch |

## Left out

- The mjson parser behind `mjson_find` is not part of this model. It is a parameter, and nothing is claimed about which bytes it accepts.
- File reading (`g_file_get_contents`) and building the state file's path (`config_path`) are I/O. The read result is a parameter.
- Pixbuf loading in `icon_new` is GTK plumbing, including its fall-back to the "image-missing" icon. An icon is modelled only by its kind and size.
- Container setup in `watson_new` and the settings dialog teardown in `watson_free` are GTK plumbing.
- The libxfce4panel 4.14 branch of `plugin_get_icon_size` is a single library call.
- Connecting and delivering GIO signals is host event-loop plumbing. A change event is a call of `FileChanged`.
- Plugin registration is host glue.
- `plugin_construct` is modelled up to its signal connections and adding the event box to the panel, which are host glue.
- Icon sizes always follow the pre-4.14 heuristic. On libxfce4panel 4.14 or later `plugin_get_icon_size` returns the library's value, which the model does not capture.
- `plugin_size_changed` is a call of `Update` with the new geometry, so it is not modelled separately.
- Diagnostics are not modelled: the message printed when the watch cannot be set up, and the DBG/TRACE lines.
- The slice allocated and freed for `struct watson_state` inside one read is not tracked. The plugin's own slice and the monitor's objects are tracked.
- After a failed watch setup, `monitor_free` passes a NULL monitor to `g_object_unref`. GLib rejects that with a diagnostic and changes nothing. The model treats that release as a no-op.
- Watson.MonitorFree: the code guards only against NULL, not against releasing the same monitor twice. The model therefore requires the monitor's allocations to be live. It does not claim release is idempotent.
- Utils.IconSize: requires at least one row. With zero rows the C code divides by zero, and the host never reports zero rows.
