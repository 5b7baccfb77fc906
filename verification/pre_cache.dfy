/**
 * The offline pre-cache flow of the root layout (app/layout.tsx): once the
 * site starts running as an installed web app, a dialog offers to download
 * the content for offline use, unless a persistent `hasPreCached` flag says
 * that was already done. The service worker reports progress by message; a
 * report of 100 ends the download and sets the flag.
 */
module PreCache {
  import opened Wrappers

  /** What the display-mode media queries and the navigator report. */
  datatype DisplayEnv = DisplayEnv(
    standalone: bool,           // (display-mode: standalone)
    iosUserAgent: bool,         // the user agent names an iPad, iPhone or iPod
    msStream: bool,             // window.MSStream is present
    navigatorStandalone: bool,  // navigator.standalone, absent counting as false
    fullscreen: bool,           // (display-mode: fullscreen)
    minimalUi: bool)            // (display-mode: minimal-ui)

  /** `checkPWAInstallation`'s test for running as an installed app. */
  function IsInstalled(env: DisplayEnv): bool {
    || env.standalone
    || (env.iosUserAgent && !env.msStream && env.navigatorStandalone)
    || env.fullscreen
    || env.minimalUi
  }

  /** A message from the service worker: `event.data.type` and `event.data.progress`. */
  datatype WorkerMessage = WorkerMessage(kind: string, progress: int)

  const CacheProgress := "CACHE_PROGRESS"

  /** The stored `hasPreCached` item is truthy: present and not the empty string. */
  predicate Cached(stored: Option<string>) {
    stored.Some? && stored.value != ""
  }

  /** The layout's four state variables and the stored flag. */
  datatype Flags = Flags(installed: bool, dialog: bool, downloading: bool, progress: int, stored: Option<string>)

  /** `checkPWAInstallation`: record the new installed state; open the dialog on a not-installed to installed edge when nothing is cached. */
  function Check(f: Flags, env: DisplayEnv): Flags {
    f.(installed := IsInstalled(env),
       dialog := f.dialog || (!f.installed && IsInstalled(env) && !Cached(f.stored)))
  }

  /** The service-worker message listener. */
  function OnMessage(f: Flags, m: WorkerMessage): Flags {
    if m.kind != CacheProgress then f
    else if m.progress == 100 then
      f.(progress := 100, downloading := false, dialog := false, stored := Some("true"))
    else f.(progress := m.progress)
  }

  /** `handlePreCache`'s state change. */
  function StartCaching(f: Flags): Flags { f.(downloading := true) }

  /** The dialog's `onClose`. */
  function Close(f: Flags): Flags { f.(dialog := false) }

  /** Everything that can happen to the layout, in the order it happens. */
  datatype Event = Display(env: DisplayEnv) | Worker(message: WorkerMessage) | Confirm | Dismiss

  function Step(f: Flags, e: Event): Flags {
    match e
    case Display(env) => Check(f, env)
    case Worker(m) => OnMessage(f, m)
    case Confirm => StartCaching(f)
    case Dismiss => Close(f)
  }

  function Run(f: Flags, events: seq<Event>): Flags
    decreases events
  {
    if events == [] then f else Run(Step(f, events[0]), events[1..])
  }

  /** The dialog is never open while the flag says the content is cached. */
  predicate Consistent(f: Flags) {
    Cached(f.stored) ==> !f.dialog
  }

  /**
   * The dialog is opened by a check only on the not-installed to installed
   * edge and only when nothing is cached; that edge with nothing cached always
   * opens it.
   */
  lemma CheckOpensOnlyOnInstallEdge(f: Flags, env: DisplayEnv)
    ensures !f.dialog && Check(f, env).dialog ==> !f.installed && IsInstalled(env) && !Cached(f.stored)
    ensures !f.installed && IsInstalled(env) && !Cached(f.stored) ==> Check(f, env).dialog
    ensures Check(f, env).installed == IsInstalled(env)
    ensures Check(f, env).stored == f.stored && Check(f, env).downloading == f.downloading
  {
  }

  /**
   * Messages of another type change nothing; a progress report stores its
   * value, and exactly 100 also ends the download, closes the dialog and sets
   * the flag to "true".
   */
  lemma OnMessageSpec(f: Flags, m: WorkerMessage)
    ensures m.kind != CacheProgress ==> OnMessage(f, m) == f
    ensures m.kind == CacheProgress ==> OnMessage(f, m).progress == m.progress && OnMessage(f, m).installed == f.installed
    ensures m.kind == CacheProgress && m.progress != 100 ==> OnMessage(f, m) == f.(progress := m.progress)
    ensures m.kind == CacheProgress && m.progress == 100 ==>
      !OnMessage(f, m).downloading && !OnMessage(f, m).dialog && OnMessage(f, m).stored == Some("true")
  {
  }

  /** Every event keeps the dialog closed while the flag is set, and never clears a set flag. */
  lemma StepKeepsConsistent(f: Flags, e: Event)
    requires Consistent(f)
    ensures Consistent(Step(f, e))
    ensures Cached(f.stored) ==> Cached(Step(f, e).stored)
  {
  }

  /** Once the content is cached, no sequence of events ever opens the dialog again. */
  lemma {:induction false} OnceCachedNeverReopens(f: Flags, events: seq<Event>)
    requires Consistent(f) && Cached(f.stored)
    ensures Cached(Run(f, events).stored) && !Run(f, events).dialog
    decreases events
  {
    if events != [] {
      StepKeepsConsistent(f, events[0]);
      OnceCachedNeverReopens(Step(f, events[0]), events[1..]);
    }
  }

  /** The layout's state, updated in place by its handlers. */
  class Layout {
    var isPWAInstalled: bool
    var showPreCacheDialog: bool
    var isDownloading: bool
    var downloadProgress: int
    /** The `hasPreCached` item of `localStorage`. */
    var hasPreCached: Option<string>

    ghost function State(): Flags
      reads this
    {
      Flags(isPWAInstalled, showPreCacheDialog, isDownloading, downloadProgress, hasPreCached)
    }

    ghost predicate Valid()
      reads this
    {
      Consistent(State())
    }

    /** The initial state, with whatever the storage already holds. */
    constructor (stored: Option<string>)
      ensures Valid() && State() == Flags(false, false, false, 0, stored)
    {
      isPWAInstalled, showPreCacheDialog, isDownloading, downloadProgress := false, false, false, 0;
      hasPreCached := stored;
    }

    /** `checkPWAInstallation`, run on mount, on display-mode changes and on resize. */
    method CheckInstallation(env: DisplayEnv)
      requires Valid()
      modifies this
      ensures Valid() && State() == Check(old(State()), env)
    {
      var wasInstalled := isPWAInstalled;
      var isNowInstalled := env.standalone || (env.iosUserAgent && !env.msStream && env.navigatorStandalone)
        || env.fullscreen || env.minimalUi;
      isPWAInstalled := isNowInstalled;
      if !wasInstalled && isNowInstalled {
        if !(hasPreCached.Some? && hasPreCached.value != "") {
          showPreCacheDialog := true;
        }
      }
    }

    /** The service-worker message listener. */
    method HandleWorkerMessage(m: WorkerMessage)
      requires Valid()
      modifies this
      ensures Valid() && State() == OnMessage(old(State()), m)
    {
      if m.kind == CacheProgress {
        downloadProgress := m.progress;
        if m.progress == 100 {
          isDownloading := false;
          showPreCacheDialog := false;
          hasPreCached := Some("true");
        }
      }
    }

    /**
     * `handlePreCache`: the download starts; START_CACHING goes to the
     * service worker only when a controller is there to receive it.
     */
    method PreCache(controllerAvailable: bool) returns (startCachingSent: bool)
      requires Valid()
      modifies this
      ensures Valid() && State() == StartCaching(old(State()))
      ensures startCachingSent == controllerAvailable
    {
      isDownloading := true;
      startCachingSent := controllerAvailable;
    }

    /** The dialog's `onClose`. */
    method CloseDialog()
      requires Valid()
      modifies this
      ensures Valid() && State() == Close(old(State()))
    {
      showPreCacheDialog := false;
    }

    /**
     * The dialog is on screen only while running installed (it is mounted only
     * then) and, by the layout's invariant, never while the flag is set.
     */
    function DialogOpen(): (open: bool)
      reads this
      requires Valid()
      ensures open ==> isPWAInstalled && showPreCacheDialog && !Cached(hasPreCached)
      ensures isPWAInstalled && showPreCacheDialog ==> open
    {
      isPWAInstalled && showPreCacheDialog
    }
  }
}
