/** The poller: the process-wide distribution counter, the pool of upload
    targets, the nested loops of one cycle, and the endless loop that runs a
    cycle, sleeps and runs the next (main.py:33-59, 68-120). */
module Poller {
  import opened Store
  import opened Distribution

  /** Seconds slept after a cycle that completed, and after one that an
      exception abandoned (main.py:116, 120). */
  const PollInterval: nat := 300
  const BackoffInterval: nat := 60

  /** The sleep that follows a cycle: the shorter back-off exactly when an
      exception abandoned it. Either way, once every call of the cycle has
      returned or raised, another cycle follows. */
  function NextDelay(aborted: bool): (d: nat)
    ensures d == BackoffInterval <==> aborted
    ensures d == PollInterval <==> !aborted
    ensures 0 < d
  {
    if aborted then BackoffInterval else PollInterval
  }

  /** What the outside world holds for one cycle: the store snapshot and the
      outcomes of downloads and uploads. */
  datatype Cycle = Cycle(store: Snapshot, fetch: string -> Fetch, upload: (nat, string) -> UploadResult)

  /** What one cycle did: its uploads, whether an exception ended it, and
      the sleep that followed. */
  datatype CycleReport = CycleReport(calls: seq<UploadCall>, aborted: bool, delay: nat)

  /** The uploads of some cycles that returned normally. */
  function TotalCompleted(reports: seq<CycleReport>): nat {
    if reports == [] then 0
    else TotalCompleted(reports[..|reports| - 1]) + Completed(reports[|reports| - 1].calls)
  }

  /** A cycle run from `before` ends in `after` and is reported by `report`. */
  ghost predicate CycleStep(cy: Cycle, targets: nat, before: State, report: CycleReport, after: State) {
    var r := Run(Discover(cy.store), before, Services(targets, cy.fetch, cy.upload));
    report == CycleReport(r.calls, r.aborted, NextDelay(r.aborted)) && after == r.state
  }

  lemma StepOfCycle(cy: Cycle, targets: nat, before: State, report: CycleReport, after: State)
    requires Outcome(after, report.calls, report.aborted) ==
             Run(Discover(cy.store), before, Services(targets, cy.fetch, cy.upload))
    requires report.delay == NextDelay(report.aborted)
    ensures CycleStep(cy, targets, before, report, after)
    ensures after.counter == before.counter + Completed(report.calls)
  {
    CounterLaw(Discover(cy.store), before, Services(targets, cy.fetch, cy.upload));
  }

  /** An exception raised by the store or by a record (an officer or
      animal stream that fails, a null `imagePaths`) abandons the cycle,
      which is followed by the back-off (main.py:74-87, 117-120). */
  lemma StoreExceptionBacksOff(cy: Cycle, targets: nat, before: State, report: CycleReport, after: State)
    requires CycleStep(cy, targets, before, report, after)
    requires cy.store.fails ||
      exists o :: o in cy.store.items &&
        (o.animals.fails || exists a :: a in o.animals.items && a.imagePaths.Null?)
    ensures report.aborted && report.delay == BackoffInterval
  {
    DiscoverFaults(cy.store);
    ExceptionAborts(Discover(cy.store), Fault, before, Services(targets, cy.fetch, cy.upload));
  }

  /** A `requests.get` that raises on a recognised entry of the walk
      abandons the cycle, which is followed by the back-off (main.py:89,
      117-120). */
  lemma DownloadExceptionBacksOff(cy: Cycle, targets: nat, before: State, report: CycleReport, after: State, it: Item)
    requires CycleStep(cy, targets, before, report, after)
    requires Entry(it) in Discover(cy.store) && it.position in Folders && cy.fetch(it.url).FetchRaised?
    ensures report.aborted && report.delay == BackoffInterval
  {
    ExceptionAborts(Discover(cy.store), Entry(it), before, Services(targets, cy.fetch, cy.upload));
  }

  lemma TotalCompletedSnoc(reports: seq<CycleReport>, report: CycleReport)
    ensures TotalCompleted(reports + [report]) == TotalCompleted(reports) + Completed(report.calls)
  {
  }

  /** A completed cycle uploaded exactly the uploadable entries, in walk
      order, to consecutive targets, and left none of their files on disk. */
  ghost predicate FollowsPlan(events: seq<Event>, st: State, sv: Services, r: Outcome) {
    var items := Uploadable(events, sv.fetch);
    (sv.targets > 0 || items == []) &&
    r.calls == Planned(items, st.counter, sv) &&
    r.state.disk == st.disk - ImageNames(items)
  }

  /** Running the walk of the first i+1 elements of a level is running the
      first i, then the events of element i. */
  lemma RunPrefixStep<T>(s: seq<T>, i: nat, f: T -> seq<Event>, st: State, sv: Services)
    requires i < |s|
    ensures Run(Flatten(s[..i + 1], f), st, sv) == Then(Run(Flatten(s[..i], f), st, sv), f(s[i]), sv)
  {
    assert s[..i + 1][..i] == s[..i];
    RunAppend(Flatten(s[..i], f), f(s[i]), st, sv);
  }

  /** An exception among the events of element i abandons the rest of the
      level, including the exception its stream may raise at the end. */
  lemma RunAbortAt<T>(s: seq<T>, i: nat, f: T -> seq<Event>, tail: seq<Event>, st: State, sv: Services)
    requires i < |s|
    requires Run(Flatten(s[..i + 1], f), st, sv).aborted
    ensures Run(Flatten(s, f) + tail, st, sv) == Run(Flatten(s[..i + 1], f), st, sv)
  {
    var done := Flatten(s[..i + 1], f);
    FlattenAppend(s[..i + 1], s[i + 1..], f);
    assert s[..i + 1] + s[i + 1..] == s;
    assert Flatten(s, f) + tail == done + (Flatten(s[i + 1..], f) + tail);
    AbortSticks(done, Flatten(s[i + 1..], f) + tail, st, sv);
  }

  /** What a cycle that ended as `r` did to the counter, the targets and,
      when it completed, the disk. */
  lemma CycleLaws(events: seq<Event>, st: State, sv: Services, r: Outcome)
    requires r == Run(events, st, sv)
    ensures r.state.counter == st.counter + Completed(r.calls)
    ensures RotatesFrom(r.calls, st.counter, sv.targets)
    ensures !r.aborted ==> FollowsPlan(events, st, sv, r)
  {
    CounterLaw(events, st, sv);
    RoundRobin(events, st, sv);
    CompletedCycle(events, st, sv);
  }

  class Distributor {
    /** `len(projects)`: the pool is built once at start-up and never changes. */
    const targets: nat
    /** `project_counter` (main.py:59). */
    var projectCounter: nat
    /** The image files this process has written and not removed. */
    ghost var tempFiles: set<string>

    ghost function Current(): State
      reads this
    {
      State(projectCounter, tempFiles)
    }

    /** A fresh process starts distributing at the first target. */
    constructor (targets: nat)
      ensures this.targets == targets
      ensures Current() == State(0, {})
    {
      this.targets := targets;
      projectCounter := 0;
      tempFiles := {};
    }

    /** The body of the innermost loop for one (position, url) entry
      (main.py:88-114). */
    method ProcessEntry(it: Item, fetch: string -> Fetch, upload: (nat, string) -> UploadResult)
      returns (calls: seq<UploadCall>, aborted: bool)
      modifies this
      ensures Outcome(Current(), calls, aborted) == Handle(Entry(it), old(Current()), Services(targets, fetch, upload))
    {
      calls, aborted := [], false;
      if it.position in Folders {
        var response := fetch(it.url);
        match response
        case FetchRaised =>
          aborted := true;
        case Status(code) =>
          if code == StatusOk {
            var name := ImageName(it.report, it.position);
            tempFiles := tempFiles + {name};
            if targets == 0 {
              // `project_counter % len(projects)` raises ZeroDivisionError
              aborted := true;
              return;
            }
            var target := projectCounter % targets;
            var result := upload(target, name);
            calls := [UploadCall(name, target, it.position, Split, Retries, it.position, result)];
            if result == Raised {
              aborted := true;
              return;
            }
            tempFiles := tempFiles - {name};
            projectCounter := projectCounter + 1;
          }
      }
    }

    /** The loop over one record's `imagePaths` (main.py:82-87). */
    method ProcessAnimal(a: Animal, fetch: string -> Fetch, upload: (nat, string) -> UploadResult)
      returns (calls: seq<UploadCall>, aborted: bool)
      modifies this
      ensures Outcome(Current(), calls, aborted) == Run(AnimalEvents(a), old(Current()), Services(targets, fetch, upload))
    {
      ghost var sv := Services(targets, fetch, upload);
      ghost var st0 := Current();
      calls, aborted := [], false;
      match a.imagePaths
      case Missing =>
      case Null =>
        // `None.items()` raises
        aborted := true;
      case Present(entries) =>
        var report := ReportName(a.reportId);
        ghost var events := EntryEvents(report, entries);
        var i := 0;
        while i < |entries|
          invariant 0 <= i <= |entries|
          invariant Run(events[..i], st0, sv) == Outcome(Current(), calls, false)
        {
          var (position, url) := entries[i];
          assert events[i] == Entry(Item(report, position, url));
          RunSnoc(events[..i], events[i], st0, sv);
          assert events[..i + 1] == events[..i] + [events[i]];
          var c, ab := ProcessEntry(Item(report, position, url), fetch, upload);
          calls := calls + c;
          if ab {
            AbortSticks(events[..i + 1], events[i + 1..], st0, sv);
            assert events[..i + 1] + events[i + 1..] == events;
            aborted := true;
            return;
          }
          i := i + 1;
        }
        assert events[..i] == events;
    }

    /** The loop over one officer's animal records (main.py:78-81). */
    method ProcessOfficer(o: Officer, fetch: string -> Fetch, upload: (nat, string) -> UploadResult)
      returns (calls: seq<UploadCall>, aborted: bool)
      modifies this
      ensures Outcome(Current(), calls, aborted) == Run(OfficerEvents(o), old(Current()), Services(targets, fetch, upload))
    {
      ghost var sv := Services(targets, fetch, upload);
      ghost var st0 := Current();
      var animals := o.animals.items;
      calls, aborted := [], false;
      var i := 0;
      while i < |animals|
        invariant 0 <= i <= |animals|
        invariant Run(Flatten(animals[..i], AnimalEvents), st0, sv) == Outcome(Current(), calls, false)
      {
        RunPrefixStep(animals, i, AnimalEvents, st0, sv);
        var c, ab := ProcessAnimal(animals[i], fetch, upload);
        calls := calls + c;
        if ab {
          RunAbortAt(animals, i, AnimalEvents, Tail(o.animals), st0, sv);
          aborted := true;
          return;
        }
        i := i + 1;
      }
      assert animals[..i] == animals;
      ghost var all := Flatten(animals, AnimalEvents);
      if o.animals.fails {
        // the stream of animal records raises
        RunSnoc(all, Fault, st0, sv);
        aborted := true;
      } else {
        assert OfficerEvents(o) == all;
      }
    }

    /** The loop over all officers (main.py:74-114), abandoned at the first
      exception. */
    method ProcessOfficers(store: Snapshot, fetch: string -> Fetch, upload: (nat, string) -> UploadResult)
      returns (calls: seq<UploadCall>, aborted: bool)
      modifies this
      ensures Outcome(Current(), calls, aborted) == Run(Discover(store), old(Current()), Services(targets, fetch, upload))
    {
      ghost var sv := Services(targets, fetch, upload);
      ghost var st0 := Current();
      var officers := store.items;
      calls, aborted := [], false;
      var i := 0;
      while i < |officers|
        invariant 0 <= i <= |officers|
        invariant Run(Flatten(officers[..i], OfficerEvents), st0, sv) == Outcome(Current(), calls, false)
      {
        RunPrefixStep(officers, i, OfficerEvents, st0, sv);
        var c, ab := ProcessOfficer(officers[i], fetch, upload);
        calls := calls + c;
        if ab {
          RunAbortAt(officers, i, OfficerEvents, Tail(store), st0, sv);
          aborted := true;
          return;
        }
        i := i + 1;
      }
      assert officers[..i] == officers;
      ghost var all := Flatten(officers, OfficerEvents);
      if store.fails {
        // the stream of officer documents raises
        RunSnoc(all, Fault, st0, sv);
        aborted := true;
      } else {
        assert Discover(store) == all;
      }
    }

    /** One cycle, the body of the `try` (main.py:72-116): the counter
      advances by the uploads that returned, upload k goes to target
      `(counter + k) % targets`, and a cycle that completes uploads exactly
      the uploadable entries, in walk order, and leaves none of their image
      files on disk. */
    method ProcessCycle(store: Snapshot, fetch: string -> Fetch, upload: (nat, string) -> UploadResult)
      returns (calls: seq<UploadCall>, aborted: bool)
      modifies this
      ensures Outcome(Current(), calls, aborted) == Run(Discover(store), old(Current()), Services(targets, fetch, upload))
      ensures projectCounter == old(projectCounter) + Completed(calls)
      ensures RotatesFrom(calls, old(projectCounter), targets)
      ensures !aborted ==>
        FollowsPlan(Discover(store), old(Current()), Services(targets, fetch, upload), Outcome(Current(), calls, aborted))
    {
      ghost var st0 := Current();
      calls, aborted := ProcessOfficers(store, fetch, upload);
      CycleLaws(Discover(store), st0, Services(targets, fetch, upload), Outcome(Current(), calls, aborted));
    }

    /** The endless loop, for as many cycles as `cycles` lists (main.py:71-120):
      each cycle starts from the state the previous one left, an exception
      is followed by the back-off instead of the poll interval and never
      ends the loop, and the counter only grows, by the uploads that
      returned. */
    method Serve(cycles: seq<Cycle>) returns (reports: seq<CycleReport>, ghost states: seq<State>)
      modifies this
      ensures |reports| == |cycles| && |states| == |cycles| + 1
      ensures states[0] == old(Current()) && states[|cycles|] == Current()
      ensures forall i | 0 <= i < |cycles| :: CycleStep(cycles[i], targets, states[i], reports[i], states[i + 1])
      ensures projectCounter == old(projectCounter) + TotalCompleted(reports)
    {
      reports, states := [], [Current()];
      var i := 0;
      while i < |cycles|
        invariant 0 <= i <= |cycles|
        invariant |reports| == i && |states| == i + 1
        invariant states[0] == old(Current()) && states[i] == Current()
        invariant forall j | 0 <= j < i :: CycleStep(cycles[j], targets, states[j], reports[j], states[j + 1])
        invariant projectCounter == old(projectCounter) + TotalCompleted(reports)
      {
        var cy := cycles[i];
        ghost var before := Current();
        var calls, aborted := ProcessCycle(cy.store, cy.fetch, cy.upload);
        var report := CycleReport(calls, aborted, NextDelay(aborted));
        StepOfCycle(cy, targets, before, report, Current());
        TotalCompletedSnoc(reports, report);
        reports := reports + [report];
        states := states + [Current()];
        i := i + 1;
      }
    }
  }
}
