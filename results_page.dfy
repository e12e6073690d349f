/** The job-result page: a React component that polls the job service for the
    status of a search, loads the result once the job is complete, lets the
    user retry after an error, and renders one of four screens. Each event
    (the effect running, a timer tick, an awaited reply, a click, unmounting)
    is a method; what the job service answers is a parameter. */
module ResultsPage {
  import opened Base
  import Js

  // The `JobStatus` enum: the status strings the job service reports.
  const Started := "STARTED"
  const Running := "RUNNING"
  const Completed := "COMPLETED"
  const Error := "ERROR"

  // The error messages the page can show.
  const MissingJobId := "ID processo di ricerca mancante"
  const ProcessingFailed := "Si è verificato un errore durante l'elaborazione della richiesta."
  const StatusCheckFailed := "Impossibile controllare lo stato della richiesta. Riprova più tardi."
  const LoadFailed := "Si è verificato un errore durante il caricamento dei risultati. Riprova più tardi."
  const RefreshFailed := "Si è verificato un errore durante l'aggiornamento dei risultati."

  /** A notification raised through `useToast`. */
  datatype Toast = Toast(title: string, description: string, destructive: bool)

  const LoadFailedToast := Toast("Errore", "Impossibile caricare i risultati della ricerca", true)

  /** How an awaited call to the job service settled. */
  datatype Reply<+T> = Resolved(value: T) | Rejected

  /** The five `useState` values of the component. */
  datatype PageState = PageState(
    loading: bool,
    currentStatus: Option<string>,
    results: Js.Value,
    error: Option<string>,
    pollingInterval: Option<int>)

  /** The state of the first render. */
  const Initial := PageState(true, None, Js.Null, None, None)

  // ---------------------------------------------------------------------
  // Rendering

  /** The screen the component renders. `Content` records which of its three
      sections appear. `RenderFails` is a `TypeError` thrown while the
      content is rendered; the page has no error boundary to catch it. */
  datatype Screen =
    | Spinner(message: string)
    | ErrorView(message: string)
    | NoResults
    | Content(accommodation: bool, experiences: bool, packages: bool)
    | RenderFails

  /** `error` as a condition: a non-empty message. */
  predicate HasError(error: Option<string>)
  {
    error.Some? && error.value != ""
  }

  /** `x.length > 0`: a string or an array by its length, an object by its
      own `length` key (a number, or `true`, which compares as 1); any other
      value has no `length`, which does not compare above 0. */
  predicate LengthPositive(v: Js.Value)
  {
    match v
    case Str(s) => |s| > 0
    case Arr(items) => |items| > 0
    case Obj(_) =>
      var n := Js.Member(v, "length");
      (n.Num? && n.n > 0) || (n.Bool? && n.b)
    case _ => false
  }

  /** `x && x.length > 0`, the guard of a list section. */
  predicate Listed(v: Js.Value)
  {
    Js.Truthy(v) && LengthPositive(v)
  }

  /** What a listed section's `x.map(e => ... e.name ...)` needs: a `map`
      method, which among these values only an array has, and elements
      whose properties can be read, which excludes `null` and `undefined`. */
  predicate Mappable(v: Js.Value)
  {
    v.Arr? && forall i :: 0 <= i < |v.items| ==> !v.items[i].Undefined? && !v.items[i].Null?
  }

  /** A listed section that cannot be mapped throws during the render. */
  predicate Throws(v: Js.Value)
  {
    Listed(v) && !Mappable(v)
  }

  /** The guard of the "no results" screen:
      `!results || (!results.accomodation && !results.packages)`. */
  predicate Empty(results: Js.Value)
  {
    !Js.Truthy(results) ||
    (!Js.Truthy(Js.Member(results, "accomodation")) && !Js.Truthy(Js.Member(results, "packages")))
  }

  /** The line under the spinner: one message per `currentStatus` test, each
      rendering nothing when its test fails. */
  function SpinnerMessage(status: Option<string>): (m: string)
    ensures status == Some(Started) ==> m == "Stiamo avviando la ricerca..."
    ensures status == Some(Running) ==> m == "Stiamo analizzando le tue preferenze per trovare il viaggio perfetto."
    ensures status.None? ==> m == "Connessione al server in corso..."
    ensures status == Some(Completed) || status == Some(Error) ==> m == ""
  {
    (if status == Some(Started) then "Stiamo avviando la ricerca..." else "")
    + (if status == Some(Running) then "Stiamo analizzando le tue preferenze per trovare il viaggio perfetto." else "")
    + (if status.None? || status.value == "" then "Connessione al server in corso..." else "")
  }

  /** The render decision. The `packages` and `esperienze` defaults `|| []`
      are falsy-safe and do not change which sections are listed. A
      section that is listed is an array whose elements can be read;
      any other listed value makes the render throw. */
  function View(st: PageState): (v: Screen)
    ensures v.Content? && v.experiences ==> Mappable(Js.Member(st.results, "esperienze"))
    ensures v.Content? && v.packages ==> Mappable(Js.Member(st.results, "packages"))
    ensures v.Content? ==> !Throws(Js.Member(st.results, "esperienze")) && !Throws(Js.Member(st.results, "packages"))
  {
    if st.loading then Spinner(SpinnerMessage(st.currentStatus))
    else if HasError(st.error) then ErrorView(st.error.value)
    else if Empty(st.results) then NoResults
    else
      var experiences := Js.Member(st.results, "esperienze");
      var packages := Js.Member(st.results, "packages");
      if Throws(experiences) || Throws(packages) then RenderFails
      else Content(Js.Truthy(Js.Member(st.results, "accomodation")), Listed(experiences), Listed(packages))
  }

  /** The five screens are chosen in priority order: loading over an error,
      an error over any result, and for a result that carries an
      accommodation or packages, content unless a listed section throws. */
  lemma ViewDecision(st: PageState)
    ensures View(st).Spinner? <==> st.loading
    ensures View(st).ErrorView? <==> !st.loading && HasError(st.error)
    ensures View(st).ErrorView? ==> View(st).message == st.error.value
    ensures View(st).NoResults? <==> !st.loading && !HasError(st.error) && Empty(st.results)
    ensures View(st).RenderFails? <==>
      !st.loading && !HasError(st.error) && !Empty(st.results) &&
      (Throws(Js.Member(st.results, "esperienze")) || Throws(Js.Member(st.results, "packages")))
    ensures View(st).Content? ==>
      Js.Truthy(st.results) &&
      (Js.Truthy(Js.Member(st.results, "accomodation")) || Js.Truthy(Js.Member(st.results, "packages")))
  {
  }

  /** A non-empty string under `packages` passes the section's guard, and
      its `.map` is not a function. */
  lemma StringPackagesThrow(st: PageState, text: string)
    requires !st.loading && !HasError(st.error) && text != ""
    requires st.results == Js.Obj(map["packages" := Js.Str(text)])
    ensures View(st) == RenderFails
  {
    assert Js.Member(st.results, "packages") == Js.Str(text);
  }

  /** An object with a positive numeric `length` key passes the guard of the
      experiences section too, and throws at its `.map`. */
  lemma LengthKeyObjectThrows(st: PageState, accommodation: Js.Value, n: int)
    requires !st.loading && !HasError(st.error) && Js.Truthy(accommodation) && n > 0
    requires st.results == Js.Obj(map["accomodation" := accommodation,
                                      "esperienze" := Js.Obj(map["length" := Js.Num(n)])])
    ensures View(st) == RenderFails
  {
    var e := Js.Obj(map["length" := Js.Num(n)]);
    assert Js.Member(st.results, "accomodation") == accommodation;
    assert Js.Member(st.results, "esperienze") == e;
    assert Js.Member(e, "length") == Js.Num(n);
  }

  /** A list with a `null` entry fails at the entry's first property read. */
  lemma NullPackageThrows(st: PageState, before: seq<Js.Value>)
    requires !st.loading && !HasError(st.error)
    requires st.results == Js.Obj(map["packages" := Js.Arr(before + [Js.Null])])
    ensures View(st) == RenderFails
  {
    var items := before + [Js.Null];
    assert Js.Member(st.results, "packages") == Js.Arr(items);
    assert items[|before|] == Js.Null;
  }

  /** A result made only of experiences counts as empty: the "no results"
      screen is shown although there is something to list. */
  lemma ExperiencesOnlyIsEmpty(st: PageState, experiences: Js.Value)
    requires !st.loading && !HasError(st.error)
    requires st.results == Js.Obj(map["esperienze" := experiences])
    ensures View(st) == NoResults
  {
    assert Js.Member(st.results, "accomodation") == Js.Undefined;
    assert Js.Member(st.results, "packages") == Js.Undefined;
  }

  /** An empty `packages` array is truthy, so a result `{packages: []}`
      shows the content screen with none of its sections. */
  lemma EmptyPackagesShowsBlankContent(st: PageState)
    requires !st.loading && !HasError(st.error)
    requires st.results == Js.Obj(map["packages" := Js.Arr([])])
    ensures View(st) == Content(false, false, false)
  {
    assert Js.Member(st.results, "accomodation") == Js.Undefined;
    assert Js.Member(st.results, "esperienze") == Js.Undefined;
    assert Js.Member(st.results, "packages") == Js.Arr([]);
  }

  /** `clearInterval(id)`: `null` and `undefined` name no timer. */
  function ClearInterval(timers: set<int>, id: Option<int>): set<int>
  {
    if id.Some? then timers - {id.value} else timers
  }

  /** The effect's cleanup: `if (pollingInterval) clearInterval(pollingInterval)`. */
  function Cleanup(timers: set<int>, pollingInterval: Option<int>): set<int>
  {
    if pollingInterval.Some? && pollingInterval.value != 0 then timers - {pollingInterval.value} else timers
  }

  // ---------------------------------------------------------------------
  // The component

  class Page {
    // The component's state.
    var loading: bool
    var currentStatus: Option<string>
    var results: Js.Value
    var error: Option<string>
    var pollingInterval: Option<int>

    // What happens around it: whether it is mounted, whether its effect
    // ran and left a cleanup, the `pollingInterval` value the effect's
    // closures captured, the window's active interval timers, the calls
    // to the job service still awaiting a reply, and the toasts raised.
    var mounted: bool
    var effectRan: bool
    var hasCleanup: bool
    var captured: Option<int>
    var timers: set<int>
    var pendingStatus: nat
    var pendingResults: nat
    var pendingRefreshes: nat
    var toasts: seq<Toast>

    function Snapshot(): PageState
      reads this
    {
      PageState(loading, currentStatus, results, error, pollingInterval)
    }

    /** Before the effect runs nothing has happened; its closures captured
        the `pollingInterval` of the first render, which is `null`; a stored
        interval is one of the window's timers. */
    ghost predicate Valid()
      reads this
    {
      captured.None? &&
      (!effectRan ==>
        Snapshot() == Initial && mounted && !hasCleanup && timers == {} &&
        pendingStatus == 0 && pendingResults == 0 && pendingRefreshes == 0 && toasts == []) &&
      (pollingInterval.Some? ==> pollingInterval.value in timers)
    }

    /** The first render: the `useState` initial values. */
    constructor()
      ensures Valid() && !effectRan
      ensures Snapshot() == Initial
    {
      loading := true;
      currentStatus := None;
      results := Js.Null;
      error := None;
      pollingInterval := None;
      mounted := true;
      effectRan := false;
      hasCleanup := false;
      captured := None;
      timers := {};
      pendingStatus := 0;
      pendingResults := 0;
      pendingRefreshes := 0;
      toasts := [];
    }

    /** The polling effect. Its dependencies never change, so it runs once.
        Without a job id it reports the error and starts nothing; otherwise
        it checks the status at once and every 5 seconds through the timer
        `handle` the browser assigns. */
    method RunEffect(jobId: Option<string>, handle: int)
      requires Valid() && !effectRan
      modifies this
      ensures Valid() && effectRan && mounted
      ensures captured == None
      ensures jobId.None? || jobId.value == "" ==>
        Snapshot() == Initial.(error := Some(MissingJobId), loading := false) &&
        pendingStatus == 0 && timers == {} && !hasCleanup
      ensures jobId.Some? && jobId.value != "" ==>
        Snapshot() == Initial.(pollingInterval := Some(handle)) &&
        pendingStatus == 1 && timers == {handle} && hasCleanup
      ensures pendingResults == 0 && pendingRefreshes == 0 && toasts == []
    {
      effectRan := true;
      captured := pollingInterval;
      if jobId.None? || jobId.value == "" {
        error := Some(MissingJobId);
        loading := false;
      } else {
        pendingStatus := pendingStatus + 1;
        timers := timers + {handle};
        pollingInterval := Some(handle);
        hasCleanup := true;
      }
    }

    /** The interval timer `handle` fires and checks the status again. It
        keeps firing after the component is gone. */
    method Tick(handle: int)
      requires Valid() && handle in timers
      modifies this
      ensures Valid()
      ensures pendingStatus == old(pendingStatus) + 1
      ensures Snapshot() == old(Snapshot()) && timers == old(timers)
      ensures mounted == old(mounted) && effectRan == old(effectRan) && hasCleanup == old(hasCleanup)
      ensures pendingResults == old(pendingResults) && pendingRefreshes == old(pendingRefreshes)
      ensures toasts == old(toasts)
    {
      pendingStatus := pendingStatus + 1;
    }

    /** `checkJobStatus` resumes with the job service's answer. React drops
        the state updates of an unmounted component, but `clearInterval`
        and the call to `loadResults` still happen. */
    method OnStatusReply(reply: Reply<string>)
      requires Valid() && pendingStatus > 0
      modifies this
      ensures Valid()
      ensures pendingStatus == old(pendingStatus) - 1
      ensures pendingResults == old(pendingResults) + (if reply == Resolved(Completed) then 1 else 0)
      // the captured handle is null, so no timer is ever stopped
      ensures timers == old(timers)
      ensures !old(mounted) ==> Snapshot() == old(Snapshot())
      ensures old(mounted) && reply.Resolved? && reply.value != Completed && reply.value != Error ==>
        Snapshot() == old(Snapshot()).(currentStatus := Some(reply.value))
      ensures old(mounted) && reply == Resolved(Completed) ==>
        Snapshot() == old(Snapshot()).(currentStatus := Some(Completed), pollingInterval := None)
      ensures old(mounted) && reply == Resolved(Error) ==>
        Snapshot() == old(Snapshot()).(currentStatus := Some(Error), pollingInterval := None,
                                       error := Some(ProcessingFailed), loading := false)
      ensures old(mounted) && reply.Rejected? ==>
        Snapshot() == old(Snapshot()).(pollingInterval := None,
                                       error := Some(StatusCheckFailed), loading := false)
      ensures mounted == old(mounted) && effectRan == old(effectRan) && hasCleanup == old(hasCleanup)
      ensures pendingRefreshes == old(pendingRefreshes) && toasts == old(toasts)
    {
      pendingStatus := pendingStatus - 1;
      match reply
      case Resolved(status) =>
        if mounted {
          currentStatus := Some(status);
        }
        if status == Completed {
          timers := ClearInterval(timers, captured);
          if mounted {
            pollingInterval := None;
          }
          pendingResults := pendingResults + 1;
        } else if status == Error {
          timers := ClearInterval(timers, captured);
          if mounted {
            pollingInterval := None;
            error := Some(ProcessingFailed);
            loading := false;
          }
        }
      case Rejected =>
        timers := ClearInterval(timers, captured);
        if mounted {
          pollingInterval := None;
          error := Some(StatusCheckFailed);
          loading := false;
        }
    }

    /** `loadResults` resumes with the job result. A failure also raises a
        toast, which lives outside the component. */
    method OnResultReply(reply: Reply<Js.Value>)
      requires Valid() && pendingResults > 0
      modifies this
      ensures Valid()
      ensures pendingResults == old(pendingResults) - 1
      ensures !old(mounted) ==> Snapshot() == old(Snapshot())
      ensures old(mounted) && reply.Resolved? ==>
        Snapshot() == old(Snapshot()).(results := reply.value, loading := false)
      ensures old(mounted) && reply.Rejected? ==>
        Snapshot() == old(Snapshot()).(error := Some(LoadFailed), loading := false)
      ensures toasts == old(toasts) + (if reply.Rejected? then [LoadFailedToast] else [])
      ensures timers == old(timers) && pendingStatus == old(pendingStatus)
      ensures mounted == old(mounted) && effectRan == old(effectRan) && hasCleanup == old(hasCleanup)
      ensures pendingRefreshes == old(pendingRefreshes)
    {
      pendingResults := pendingResults - 1;
      match reply
      case Resolved(data) =>
        if mounted {
          results := data;
          loading := false;
        }
      case Rejected =>
        if mounted {
          error := Some(LoadFailed);
          loading := false;
        }
        toasts := toasts + [LoadFailedToast];
    }

    /** The "Riprova" button: `handleRefresh` up to its `await`. */
    method StartRefresh()
      requires Valid() && effectRan && mounted
      modifies this
      ensures Valid()
      ensures Snapshot() == old(Snapshot()).(loading := true, error := None)
      ensures pendingRefreshes == old(pendingRefreshes) + 1
      ensures timers == old(timers) && pendingStatus == old(pendingStatus) && pendingResults == old(pendingResults)
      ensures mounted == old(mounted) && effectRan == old(effectRan) && hasCleanup == old(hasCleanup)
      ensures toasts == old(toasts)
    {
      loading := true;
      error := None;
      pendingRefreshes := pendingRefreshes + 1;
    }

    /** `handleRefresh` resumes with the job result. It never touches the
        status or the polling interval. */
    method FinishRefresh(reply: Reply<Js.Value>)
      requires Valid() && pendingRefreshes > 0
      modifies this
      ensures Valid()
      ensures pendingRefreshes == old(pendingRefreshes) - 1
      ensures !old(mounted) ==> Snapshot() == old(Snapshot())
      ensures old(mounted) && reply.Resolved? ==>
        Snapshot() == old(Snapshot()).(results := reply.value, loading := false)
      ensures old(mounted) && reply.Rejected? ==>
        Snapshot() == old(Snapshot()).(error := Some(RefreshFailed), loading := false)
      ensures currentStatus == old(currentStatus) && pollingInterval == old(pollingInterval)
      ensures timers == old(timers) && pendingStatus == old(pendingStatus) && pendingResults == old(pendingResults)
      ensures mounted == old(mounted) && effectRan == old(effectRan) && hasCleanup == old(hasCleanup)
      ensures toasts == old(toasts)
    {
      pendingRefreshes := pendingRefreshes - 1;
      match reply
      case Resolved(data) =>
        if mounted {
          results := data;
          loading := false;
        }
      case Rejected =>
        if mounted {
          error := Some(RefreshFailed);
          loading := false;
        }
    }

    /** Unmounting runs the effect's cleanup, which tests the captured
        `pollingInterval`; being `null`, it stops no timer. */
    method Unmount()
      requires Valid() && effectRan && mounted
      modifies this
      ensures Valid() && !mounted
      ensures timers == old(timers)
      ensures Snapshot() == old(Snapshot())
      ensures effectRan == old(effectRan) && hasCleanup == old(hasCleanup)
      ensures pendingStatus == old(pendingStatus) && pendingResults == old(pendingResults)
      ensures pendingRefreshes == old(pendingRefreshes) && toasts == old(toasts)
    {
      if hasCleanup {
        timers := Cleanup(timers, captured);
      }
      mounted := false;
    }
  }

  /** A whole successful run: the status check reports completion, the result
      loads and the page shows it, while the interval timer is still active and
      its next tick queries the job status again. */
  method CompletedRun(jobId: string, handle: int, data: Js.Value)
    returns (screen: Screen, stillPolling: bool, statusQueries: nat)
    requires jobId != ""
    ensures screen == View(Initial.(currentStatus := Some(Completed), results := data, loading := false))
    ensures stillPolling
    ensures statusQueries == 1
  {
    var page := new Page();
    page.RunEffect(Some(jobId), handle);
    page.OnStatusReply(Resolved(Completed));
    page.OnResultReply(Resolved(data));
    screen := View(page.Snapshot());
    stillPolling := handle in page.timers;
    page.Tick(handle);
    statusQueries := page.pendingStatus;
  }

  /** The timer survives completion, so every later tick that is answered
      COMPLETED loads the result once more: two answers, two loads. */
  method CompletionReloads(jobId: string, handle: int) returns (resultLoads: nat)
    requires jobId != ""
    ensures resultLoads == 2
  {
    var page := new Page();
    page.RunEffect(Some(jobId), handle);
    page.OnStatusReply(Resolved(Completed));
    page.Tick(handle);
    page.OnStatusReply(Resolved(Completed));
    resultLoads := page.pendingResults;
  }
}
