/** Exposure/Download/ExposureDownloadTask.swift: the controller that takes one
    asset from entitlement to an offline download.  It owns an optional
    download task and an optional entitlement request, consults and writes the
    session store, and relays the task's events to the callbacks installed on
    it.

    The download framework (its session manager, tasks and offline assets)
    and the entitlement endpoint are outside the model.  The store is a map
    from asset id to (entitlement, location), asynchronous answers from the
    framework (an offline asset's state, a restored task, an entitlement
    response, a task event) are parameters, and every call the controller
    makes on its collaborators, every store write and every callback it fires
    is appended to one trace, so that their order can be stated.  The
    iOS 10 and later branch of task creation is the one modelled. */
module ExposureDownload {
  import opened Wrappers
  import opened Errors

  /** The entitlement fields the controller reads. */
  datatype PlaybackEntitlement = PlaybackEntitlement(mediaLocator: string)

  /** A session store record: the entitlement and the local location, if any. */
  datatype Record = Record(entitlement: PlaybackEntitlement, url: Option<string>)

  /** The state the framework reports for an offline media asset. */
  datatype AssetState = AssetCompleted(url: string) | AssetNotPlayable

  /** `DownloadTask.State`. */
  datatype TaskState = TaskNotStarted | TaskRunning | TaskSuspended | TaskCanceling | TaskCompleted

  /** `ExposureDownloadTask.State`. */
  datatype State = NotStarted | Running | Suspended | Canceling | Completed

  datatype Progress = Progress(current: int, total: int)

  /** The events a download task reports to the closures hooked onto it. */
  datatype TaskEvent =
    | DidPrepare
    | DidSuspend
    | DidResume
    | DidCancel(url: string)
    | DidComplete(url: string)
    | DidProgress(progress: Progress)
    | DidFail(location: Option<string>, reason: DownloadError)
    | DidBecomePlaybackReady(url: string)
    | DidStartDownloadingMediaOption(option: string)

  /** The events the controller publishes, one per callback it fires. */
  datatype Event =
    | OnPrepared
    | OnSuspended
    | OnResumed
    | OnCanceled(url: string)
    | OnCompleted(url: string)
    | OnProgress(progress: Progress)
    | OnError(location: Option<string>, error: ExposureError)
    | OnPlaybackReady(url: string)
    | OnDownloadingMediaOption(option: string)
    | OnEntitlementRequestStarted
    | OnEntitlementResponse(entitlement: PlaybackEntitlement)
    | OnEntitlementRequestCancelled

  /** The callback properties, one per setter. */
  datatype EventKind =
    | PreparedKind | SuspendedKind | ResumedKind | CanceledKind | CompletedKind | ProgressKind
    | ErrorKind | PlaybackReadyKind | ShouldDownloadMediaOptionKind | DownloadingMediaOptionKind
    | EntitlementRequestStartedKind | EntitlementResponseKind | EntitlementRequestCancelledKind

  /** The callback property an event is published through. */
  function KindOf(e: Event): EventKind {
    match e
    case OnPrepared => PreparedKind
    case OnSuspended => SuspendedKind
    case OnResumed => ResumedKind
    case OnCanceled(_) => CanceledKind
    case OnCompleted(_) => CompletedKind
    case OnProgress(_) => ProgressKind
    case OnError(_, _) => ErrorKind
    case OnPlaybackReady(_) => PlaybackReadyKind
    case OnDownloadingMediaOption(_) => DownloadingMediaOptionKind
    case OnEntitlementRequestStarted => EntitlementRequestStartedKind
    case OnEntitlementResponse(_) => EntitlementResponseKind
    case OnEntitlementRequestCancelled => EntitlementRequestCancelledKind
  }

  /** A callback closure, by identity; `NoOp` is the `{ _ in }` default. */
  type Handler = nat

  const NoOp: Handler := 0

  /** The closure installed for `kind`. */
  function HandlerIn(handlers: map<EventKind, Handler>, kind: EventKind): (h: Handler)
    ensures kind !in handlers ==> h == NoOp
  {
    if kind in handlers then handlers[kind] else NoOp
  }

  /** Commands the controller sends a download task or an entitlement request. */
  datatype Command = Resume | Suspend | Cancel | Prepare(lazily: bool)

  /** `DownloadTask` from the download framework. */
  class Task {
    /** Set by the framework. */
    var state: TaskState
    /** The bitrate handed to `use(bitrate:)`. */
    var bitrate: Option<int>
    /** The entitlement captured by the closures hooked onto the task. */
    var hookedWith: Option<PlaybackEntitlement>

    constructor ()
      ensures state == TaskNotStarted && bitrate == None && hookedWith == None
    {
      state := TaskNotStarted;
      bitrate := None;
      hookedWith := None;
    }
  }

  /** An entitlement request in flight, with the `lazily` its completion
      handler captured. */
  class EntitlementRequest {
    const lazily: bool

    constructor (lazily: bool)
      ensures this.lazily == lazily
    {
      this.lazily := lazily;
    }
  }

  datatype Target = TaskTarget(task: Task) | RequestTarget(request: EntitlementRequest)

  /** One step of the controller's interaction with the outside. */
  datatype Action =
    | Publish(handler: Handler, event: Event)
    | Save(assetId: string, entitlement: PlaybackEntitlement, url: Option<string>)
    | RequestEntitlement(request: EntitlementRequest)
    | Restore(assetId: string)
    | CreateTask(task: Task, mediaUrl: string)
    | Send(target: Target, command: Command)

  /** Firing the callback installed for the event's kind. */
  function Fire(handlers: map<EventKind, Handler>, e: Event): (a: Action)
    ensures a.Publish? && a.event == e && a.handler == HandlerIn(handlers, KindOf(e))
  {
    Publish(HandlerIn(handlers, KindOf(e)), e)
  }

  /** The bits per second handed to a task: `requiredBitrate` is in kbit/s. */
  function Bps(requiredBitrate: Option<Int64>): (r: Option<int>)
    ensures r.None? <==> requiredBitrate.None?
    ensures r.Some? ==> r.value / 1000 == requiredBitrate.value && r.value % 1000 == 0
  {
    if requiredBitrate.Some? then Some(requiredBitrate.value * 1000) else None
  }

  /** `state`: a task's state, or `notStarted` without a task. */
  function Mirror(s: TaskState): State {
    match s
    case TaskNotStarted => NotStarted
    case TaskRunning => Running
    case TaskSuspended => Suspended
    case TaskCanceling => Canceling
    case TaskCompleted => Completed
  }

  /** The controller's state mirrors the task's one to one. */
  lemma MirrorIsOneToOne(a: TaskState, b: TaskState)
    ensures Mirror(a) == Mirror(b) <==> a == b
  {
  }

  /** What the hooked closures do with one task event: canceled, completed
      and error events save the captured entitlement and the location, then
      fire their callback; the others only fire theirs. */
  function Relay(assetId: string, entitlement: PlaybackEntitlement, handlers: map<EventKind, Handler>,
                 ev: TaskEvent): (actions: seq<Action>)
    ensures ev.DidCancel? || ev.DidComplete? || ev.DidFail? ==>
              && |actions| == 2
              && actions[0] == Save(assetId, entitlement,
                                    if ev.DidFail? then ev.location else Some(ev.url))
              && actions[1].Publish?
    ensures !(ev.DidCancel? || ev.DidComplete? || ev.DidFail?) ==> |actions| == 1 && actions[0].Publish?
    ensures actions[|actions| - 1].Publish? && !actions[|actions| - 1].event.OnEntitlementRequestStarted?
    ensures ev.DidPrepare? ==> actions[0] == Fire(handlers, OnPrepared)
    ensures ev.DidSuspend? ==> actions[0] == Fire(handlers, OnSuspended)
    ensures ev.DidResume? ==> actions[0] == Fire(handlers, OnResumed)
    ensures ev.DidCancel? ==> actions[1] == Fire(handlers, OnCanceled(ev.url))
    ensures ev.DidComplete? ==> actions[1] == Fire(handlers, OnCompleted(ev.url))
    ensures ev.DidProgress? ==> actions[0] == Fire(handlers, OnProgress(ev.progress))
    ensures ev.DidFail? ==> actions[1] == Fire(handlers, OnError(ev.location, Download(ev.reason)))
    ensures ev.DidBecomePlaybackReady? ==> actions[0] == Fire(handlers, OnPlaybackReady(ev.url))
    ensures ev.DidStartDownloadingMediaOption? ==> actions[0] == Fire(handlers, OnDownloadingMediaOption(ev.option))
  {
    match ev
    case DidPrepare => [Fire(handlers, OnPrepared)]
    case DidSuspend => [Fire(handlers, OnSuspended)]
    case DidResume => [Fire(handlers, OnResumed)]
    case DidCancel(url) => [Save(assetId, entitlement, Some(url)), Fire(handlers, OnCanceled(url))]
    case DidComplete(url) => [Save(assetId, entitlement, Some(url)), Fire(handlers, OnCompleted(url))]
    case DidProgress(p) => [Fire(handlers, OnProgress(p))]
    case DidFail(location, reason) =>
      [Save(assetId, entitlement, location), Fire(handlers, OnError(location, Download(reason)))]
    case DidBecomePlaybackReady(url) => [Fire(handlers, OnPlaybackReady(url))]
    case DidStartDownloadingMediaOption(option) => [Fire(handlers, OnDownloadingMediaOption(option))]
  }

  /** The store write just before position `i` records `url` for the asset. */
  ghost predicate SavedJustBefore(trace: seq<Action>, i: nat, assetId: string, url: Option<string>)
    requires i < |trace|
  {
    0 < i && trace[i - 1].Save? && trace[i - 1].assetId == assetId && trace[i - 1].url == url
  }

  /** The event at position `i` is in its place: one that reports a location
      is preceded by the store write of that location (a completed event of
      an asset found complete in the store follows its entitlement response
      instead), and `onEntitlementRequestStarted` is never published. */
  ghost predicate OrderlyAt(trace: seq<Action>, i: nat, assetId: string)
    requires i < |trace|
  {
    match trace[i]
    case Publish(_, OnCanceled(url)) => SavedJustBefore(trace, i, assetId, Some(url))
    case Publish(_, OnError(Some(url), _)) => SavedJustBefore(trace, i, assetId, Some(url))
    case Publish(_, OnCompleted(url)) =>
      SavedJustBefore(trace, i, assetId, Some(url))
      || (0 < i && trace[i - 1].Publish? && trace[i - 1].event.OnEntitlementResponse?)
    case Publish(_, OnEntitlementRequestStarted) => false
    case _ => true
  }

  /** Every event of the trace is in its place: observers of a canceled,
      completed or error event see durable state. */
  ghost predicate Orderly(trace: seq<Action>, assetId: string) {
    forall i :: 0 <= i < |trace| ==> OrderlyAt(trace, i, assetId)
  }

  /** No orderly trace, hence no trace of a valid controller, publishes
      `onEntitlementRequestStarted`: the controller never fires it. */
  lemma EntitlementRequestStartedNeverFires(trace: seq<Action>, assetId: string)
    requires Orderly(trace, assetId)
    ensures forall i :: 0 <= i < |trace| ==> !(trace[i].Publish? && trace[i].event.OnEntitlementRequestStarted?)
  {
    forall i | 0 <= i < |trace| ensures !(trace[i].Publish? && trace[i].event.OnEntitlementRequestStarted?) {
      assert OrderlyAt(trace, i, assetId);
    }
  }

  /** Appending steps that are in their place keeps the trace orderly. */
  lemma {:induction false} OrderlyExtend(t: seq<Action>, a: seq<Action>, assetId: string)
    requires Orderly(t, assetId)
    requires forall i :: |t| <= i < |t + a| ==> OrderlyAt(t + a, i, assetId)
    ensures Orderly(t + a, assetId)
  {
    forall i | 0 <= i < |t + a| ensures OrderlyAt(t + a, i, assetId) {
      if i < |t| {
        assert (t + a)[i] == t[i];
        assert OrderlyAt(t, i, assetId);
        if 0 < i {
          assert (t + a)[i - 1] == t[i - 1];
        }
      }
    }
  }

  /** A step that publishes nothing with a location, and not the started
      event, is in its place anywhere. */
  lemma SilentStepIsOrderly(t: seq<Action>, a: seq<Action>, j: nat, assetId: string)
    requires j < |a|
    requires !a[j].Publish? || a[j].event.OnPrepared? || a[j].event.OnSuspended? || a[j].event.OnResumed?
             || a[j].event.OnProgress? || (a[j].event.OnError? && a[j].event.location.None?)
             || a[j].event.OnPlaybackReady? || a[j].event.OnDownloadingMediaOption?
             || a[j].event.OnEntitlementResponse? || a[j].event.OnEntitlementRequestCancelled?
    ensures OrderlyAt(t + a, |t| + j, assetId)
  {
    assert (t + a)[|t| + j] == a[j];
  }

  /** Every relayed event is in its place where it lands. */
  lemma RelayIsOrderly(t: seq<Action>, assetId: string, entitlement: PlaybackEntitlement,
                       handlers: map<EventKind, Handler>, ev: TaskEvent)
    requires Orderly(t, assetId)
    ensures Orderly(t + Relay(assetId, entitlement, handlers, ev), assetId)
  {
    var a := Relay(assetId, entitlement, handlers, ev);
    forall i | |t| <= i < |t + a| ensures OrderlyAt(t + a, i, assetId) {
      if ev.DidCancel? || ev.DidComplete? || ev.DidFail? {
        if i == |t| {
          SilentStepIsOrderly(t, a, 0, assetId);
        } else {
          assert (t + a)[|t| + 1] == a[1] && (t + a)[|t|] == a[0];
        }
      } else {
        SilentStepIsOrderly(t, a, i - |t|, assetId);
      }
    }
    OrderlyExtend(t, a, assetId);
  }

  /** The download framework's `SessionManager`, as far as the controller
      uses it: the records of the session store. */
  class SessionManager {
    var records: map<string, Record>

    constructor (records: map<string, Record>)
      ensures this.records == records
    {
      this.records := records;
    }

    /** `save(assetId:entitlement:url:)` replaces the asset's whole record. */
    method Save(assetId: string, entitlement: PlaybackEntitlement, url: Option<string>)
      modifies this
      ensures records == old(records)[assetId := Record(entitlement, url)]
    {
      records := records[assetId := Record(entitlement, url)];
    }

    /** `download(mediaLocator:assetId:artwork:using:)`: a new task. */
    method Download(mediaUrl: string, assetId: string) returns (task: Task)
      ensures fresh(task) && task.state == TaskNotStarted && task.bitrate == None && task.hookedWith == None
    {
      task := new Task();
    }
  }

  /** `ExposureDownloadTask`. */
  class ExposureDownloadTask {
    const assetId: string
    /** `URL(string:)`. */
    const parseUrl: string -> Option<string>
    const sessionManager: SessionManager

    var downloadTask: Task?
    var entitlementRequest: EntitlementRequest?
    var entitlement: Option<PlaybackEntitlement>
    var requiredBitrate: Option<Int64>
    /** The callback properties; a missing kind holds the default closure. */
    var handlers: map<EventKind, Handler>
    /** Everything the controller has done to the outside, in order. */
    ghost var trace: seq<Action>

    /** A present download task has the controller's closures hooked onto
        it, and the trace is orderly. */
    ghost predicate Valid()
      reads this, downloadTask
    {
      (downloadTask != null ==> downloadTask.hookedWith.Some?) && Orderly(trace, assetId)
    }

    /** `init(assetId:environment:sessionToken:sessionManager:)`. */
    constructor (assetId: string, parseUrl: string -> Option<string>, sessionManager: SessionManager)
      ensures this.assetId == assetId && this.parseUrl == parseUrl && this.sessionManager == sessionManager
      ensures downloadTask == null && entitlementRequest == null && entitlement == None
      ensures requiredBitrate == None && handlers == map[] && trace == []
      ensures Valid()
    {
      this.assetId := assetId;
      this.parseUrl := parseUrl;
      this.sessionManager := sessionManager;
      downloadTask := null;
      entitlementRequest := null;
      entitlement := None;
      requiredBitrate := None;
      handlers := map[];
      trace := [];
    }

    /** The closure installed for `kind`. */
    function Installed(kind: EventKind): (h: Handler)
      reads this
      ensures kind in handlers ==> h == handlers[kind]
      ensures kind !in handlers ==> h == NoOp
    {
      HandlerIn(handlers, kind)
    }

    /** A fresh entitlement request was started and is now the one held. */
    twostate predicate StartedRequest(lazily: bool)
      reads this
    {
      && entitlementRequest != null && fresh(entitlementRequest) && entitlementRequest.lazily == lazily
      && trace == old(trace) + [RequestEntitlement(entitlementRequest)]
    }

    /** The outcome of `configureDownloadTask` followed by the callback both
        callers pass it (`downloadTask = task; downloadTask?.prepare(lazily:)`),
        after the steps `before`. */
    twostate predicate Configured(before: seq<Action>, ent: PlaybackEntitlement, lazily: bool, restored: Task?)
      reads this, sessionManager, downloadTask, restored
    {
      match parseUrl(ent.mediaLocator)
      case None =>
        && downloadTask == null
        && (restored != null ==> unchanged(restored))
        && sessionManager.records == old(sessionManager.records)
        && trace == before + [Fire(handlers, OnError(None, Download(InvalidMediaUrl(ent.mediaLocator))))]
      case Some(url) =>
        && downloadTask != null
        && downloadTask.hookedWith == Some(ent) && downloadTask.bitrate == Bps(requiredBitrate)
        && sessionManager.records == old(sessionManager.records)[assetId := Record(ent, None)]
        && if restored != null then
             && downloadTask == restored && restored.state == old(restored.state)
             && trace == before + [Save(assetId, ent, None), Restore(assetId), Action.Send(TaskTarget(restored), Command.Prepare(lazily))]
           else
             && fresh(downloadTask) && downloadTask.state == TaskNotStarted
             && trace == before + [Save(assetId, ent, None), Restore(assetId), CreateTask(downloadTask, url),
                                   Action.Send(TaskTarget(downloadTask), Command.Prepare(lazily))]
    }

    /** `hookCallbacks(to:entitlement:)`: hands the task the bitrate and
        hooks closures capturing `ent` onto it. */
    method HookCallbacks(task: Task, ent: PlaybackEntitlement)
      modifies task
      ensures task.hookedWith == Some(ent) && task.bitrate == Bps(requiredBitrate) && task.state == old(task.state)
    {
      task.bitrate := Bps(requiredBitrate);
      task.hookedWith := Some(ent);
    }

    /** `configureDownloadTask(entitlement:assetId:callback:)` with the
        callback that adopts and prepares the task; `restored` is what
        `restoreTask(with:)` finds. */
    method ConfigureDownloadTask(ent: PlaybackEntitlement, lazily: bool, restored: Task?)
      requires Valid()
      modifies this`downloadTask, this`trace, sessionManager, restored
      ensures Valid()
      ensures Configured(old(trace), ent, lazily, restored)
    {
      var url := parseUrl(ent.mediaLocator);
      if url.None? {
        var step := Fire(handlers, OnError(None, Download(InvalidMediaUrl(ent.mediaLocator))));
        SilentStepIsOrderly(trace, [step], 0, assetId);
        OrderlyExtend(trace, [step], assetId);
        trace := trace + [step];
        downloadTask := null;
        return;
      }
      sessionManager.Save(assetId, ent, None);
      var task: Task;
      var steps: seq<Action>;
      if restored != null {
        HookCallbacks(restored, ent);
        task := restored;
        steps := [Save(assetId, ent, None), Restore(assetId), Action.Send(TaskTarget(task), Command.Prepare(lazily))];
      } else {
        task := sessionManager.Download(url.value, assetId);
        HookCallbacks(task, ent);
        steps := [Save(assetId, ent, None), Restore(assetId), CreateTask(task, url.value), Action.Send(TaskTarget(task), Command.Prepare(lazily))];
      }
      forall i | |trace| <= i < |trace + steps| ensures OrderlyAt(trace + steps, i, assetId) {
        SilentStepIsOrderly(trace, steps, i - |trace|, assetId);
      }
      OrderlyExtend(trace, steps, assetId);
      trace := trace + steps;
      downloadTask := task;
    }

    /** `startEntitlementRequest(assetId:lazily:)`. */
    method StartEntitlementRequest(lazily: bool)
      requires Valid()
      modifies this`entitlementRequest, this`trace
      ensures Valid()
      ensures StartedRequest(lazily)
    {
      var request := new EntitlementRequest(lazily);
      SilentStepIsOrderly(trace, [RequestEntitlement(request)], 0, assetId);
      OrderlyExtend(trace, [RequestEntitlement(request)], assetId);
      entitlementRequest := request;
      trace := trace + [RequestEntitlement(request)];
    }

    /** The completion handler of an entitlement request, with the response
        and what `restoreTask(with:)` then finds.  A failure is reported and
        keeps the request; a success drops the request, stores the
        entitlement and announces it before configuring the task. */
    method HandleEntitlementResponse(request: EntitlementRequest, response: Result<PlaybackEntitlement, ExposureError>,
                                 restored: Task?)
      requires Valid()
      modifies this`downloadTask, this`entitlementRequest, this`entitlement, this`trace, sessionManager, restored
      ensures Valid()
      ensures response.Failure? ==>
        && trace == old(trace) + [Fire(handlers, OnError(None, response.error))]
        && entitlementRequest == old(entitlementRequest) && entitlement == old(entitlement)
        && downloadTask == old(downloadTask) && sessionManager.records == old(sessionManager.records)
        && (restored != null ==> unchanged(restored))
      ensures response.Success? ==>
        && entitlementRequest == null && entitlement == Some(response.value)
        && Configured(old(trace) + [Fire(handlers, Event.OnEntitlementResponse(response.value))],
                      response.value, request.lazily, restored)
    {
      if response.Failure? {
        var step := Fire(handlers, OnError(None, response.error));
        SilentStepIsOrderly(trace, [step], 0, assetId);
        OrderlyExtend(trace, [step], assetId);
        trace := trace + [step];
        return;
      }
      var ent := response.value;
      entitlementRequest := null;
      entitlement := Some(ent);
      var step := Fire(handlers, Event.OnEntitlementResponse(ent));
      SilentStepIsOrderly(trace, [step], 0, assetId);
      OrderlyExtend(trace, [step], assetId);
      trace := trace + [step];
      ConfigureDownloadTask(ent, request.lazily, restored);
    }

    /** `prepare(lazily:)`.  With a record for the asset the offline asset is
        used, in the state the framework reports: a completed one announces
        its entitlement and then completion, an unplayable one configures a
        task from the stored entitlement.  Without a record an entitlement
        request is started. */
    method Prepare(assetState: AssetState, restored: Task?, lazily: bool := true) returns (self: ExposureDownloadTask)
      requires Valid()
      modifies this`downloadTask, this`entitlementRequest, this`trace, sessionManager, restored
      ensures Valid() && self == this
      ensures assetId in old(sessionManager.records) && assetState.AssetCompleted? ==>
        && trace == old(trace) + [Fire(handlers, Event.OnEntitlementResponse(old(sessionManager.records)[assetId].entitlement)),
                                  Fire(handlers, OnCompleted(assetState.url))]
        && downloadTask == old(downloadTask) && entitlementRequest == old(entitlementRequest)
        && sessionManager.records == old(sessionManager.records)
        && (restored != null ==> unchanged(restored))
      ensures assetId in old(sessionManager.records) && assetState.AssetNotPlayable? ==>
        && entitlementRequest == old(entitlementRequest)
        && Configured(old(trace), old(sessionManager.records)[assetId].entitlement, lazily, restored)
      ensures assetId !in old(sessionManager.records) ==>
        && StartedRequest(lazily)
        && downloadTask == old(downloadTask) && sessionManager.records == old(sessionManager.records)
        && (restored != null ==> unchanged(restored))
    {
      self := this;
      if assetId in sessionManager.records {
        var record := sessionManager.records[assetId];
        match assetState
        case AssetCompleted(url) =>
          var steps := [Fire(handlers, Event.OnEntitlementResponse(record.entitlement)), Fire(handlers, OnCompleted(url))];
          SilentStepIsOrderly(trace, steps, 0, assetId);
          assert OrderlyAt(trace + steps, |trace| + 1, assetId) by {
            assert (trace + steps)[|trace| + 1] == steps[1] && (trace + steps)[|trace|] == steps[0];
          }
          OrderlyExtend(trace, steps, assetId);
          trace := trace + steps;
        case AssetNotPlayable =>
          ConfigureDownloadTask(record.entitlement, lazily, restored);
      } else {
        StartEntitlementRequest(lazily);
      }
    }

    /** `resume()`: the download task if there is one, else the entitlement
        request if there is one, else a new, eager entitlement request. */
    method Resume()
      requires Valid()
      modifies this`entitlementRequest, this`trace
      ensures Valid()
      ensures downloadTask != null ==>
        trace == old(trace) + [Action.Send(TaskTarget(downloadTask), Command.Resume)] && entitlementRequest == old(entitlementRequest)
      ensures downloadTask == null && old(entitlementRequest) != null ==>
        trace == old(trace) + [Action.Send(RequestTarget(old(entitlementRequest)), Command.Resume)] && entitlementRequest == old(entitlementRequest)
      ensures downloadTask == null && old(entitlementRequest) == null ==> StartedRequest(false)
    {
      if downloadTask == null {
        if entitlementRequest == null {
          StartEntitlementRequest(false);
          return;
        }
        SendCommand(RequestTarget(entitlementRequest), Command.Resume);
        return;
      }
      SendCommand(TaskTarget(downloadTask), Command.Resume);
    }

    /** `suspend()`: the download task if there is one, else the entitlement
        request if there is one, else nothing. */
    method Suspend()
      requires Valid()
      modifies this`trace
      ensures Valid()
      ensures downloadTask != null ==> trace == old(trace) + [Action.Send(TaskTarget(downloadTask), Command.Suspend)]
      ensures downloadTask == null && entitlementRequest != null ==>
        trace == old(trace) + [Action.Send(RequestTarget(entitlementRequest), Command.Suspend)]
      ensures downloadTask == null && entitlementRequest == null ==> trace == old(trace)
    {
      if downloadTask != null {
        SendCommand(TaskTarget(downloadTask), Command.Suspend);
      } else if entitlementRequest != null {
        SendCommand(RequestTarget(entitlementRequest), Command.Suspend);
      }
    }

    /** `cancel()`: the download task if there is one, else the entitlement
        request, which is cancelled and announced but kept, so cancelling
        again announces it again; else nothing. */
    method Cancel()
      requires Valid()
      modifies this`trace
      ensures Valid()
      ensures entitlementRequest == old(entitlementRequest)
      ensures downloadTask != null ==> trace == old(trace) + [Action.Send(TaskTarget(downloadTask), Command.Cancel)]
      ensures downloadTask == null && entitlementRequest != null ==>
        trace == old(trace) + [Action.Send(RequestTarget(entitlementRequest), Command.Cancel),
                               Fire(handlers, OnEntitlementRequestCancelled)]
      ensures downloadTask == null && entitlementRequest == null ==> trace == old(trace)
    {
      if downloadTask != null {
        SendCommand(TaskTarget(downloadTask), Command.Cancel);
      } else if entitlementRequest != null {
        SendCommand(RequestTarget(entitlementRequest), Command.Cancel);
        var step := Fire(handlers, OnEntitlementRequestCancelled);
        SilentStepIsOrderly(trace, [step], 0, assetId);
        OrderlyExtend(trace, [step], assetId);
        trace := trace + [step];
      }
    }

    /** Sending a command to the task or the request. */
    method SendCommand(target: Target, command: Command)
      requires Valid()
      modifies this`trace
      ensures Valid()
      ensures trace == old(trace) + [Action.Send(target, command)]
    {
      SilentStepIsOrderly(trace, [Action.Send(target, command)], 0, assetId);
      OrderlyExtend(trace, [Action.Send(target, command)], assetId);
      trace := trace + [Action.Send(target, command)];
    }

    /** `use(bitrate:)`: only tasks hooked from now on get the new bitrate. */
    method Use(bitrate: Option<Int64>) returns (self: ExposureDownloadTask)
      modifies this`requiredBitrate
      ensures requiredBitrate == bitrate && self == this
    {
      requiredBitrate := bitrate;
      self := this;
    }

    /** The closures hooked onto a task receive one of its events. */
    method OnTaskEvent(task: Task, ev: TaskEvent)
      requires Valid() && task.hookedWith.Some?
      modifies this`trace, sessionManager
      ensures Valid()
      ensures trace == old(trace) + Relay(assetId, task.hookedWith.value, handlers, ev)
      ensures sessionManager.records == match ev
        case DidCancel(url) => old(sessionManager.records)[assetId := Record(task.hookedWith.value, Some(url))]
        case DidComplete(url) => old(sessionManager.records)[assetId := Record(task.hookedWith.value, Some(url))]
        case DidFail(location, _) => old(sessionManager.records)[assetId := Record(task.hookedWith.value, location)]
        case _ => old(sessionManager.records)
    {
      var ent := task.hookedWith.value;
      match ev {
        case DidCancel(url) => sessionManager.Save(assetId, ent, Some(url));
        case DidComplete(url) => sessionManager.Save(assetId, ent, Some(url));
        case DidFail(location, _) => sessionManager.Save(assetId, ent, location);
        case _ =>
      }
      RelayIsOrderly(trace, assetId, ent, handlers, ev);
      trace := trace + Relay(assetId, ent, handlers, ev);
    }

    /** The `on…(callback:)` setters: install a closure for one kind. */
    method SetHandler(kind: EventKind, handler: Handler) returns (self: ExposureDownloadTask)
      modifies this`handlers
      ensures handlers == old(handlers)[kind := handler] && self == this
    {
      handlers := handlers[kind := handler];
      self := this;
    }

    /** `state`. */
    function State(): (s: State)
      reads this, downloadTask
      ensures downloadTask == null ==> s == NotStarted
      ensures downloadTask != null ==> s == Mirror(downloadTask.state)
    {
      if downloadTask == null then NotStarted else Mirror(downloadTask.state)
    }
  }
}
