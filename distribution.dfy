/** What one polling cycle does with the entries the walk reaches: the
    recognised-label filter, the HTTP-200 check, the round-robin choice of
    target `counter % targets`, the upload with fixed metadata and the
    counter step after the upload returns (main.py:87-114), with every
    exception abandoning the rest of the cycle (main.py:117-120). */
module Distribution {
  import opened Store

  const StatusOk: int := 200
  const Split: string := "train"
  const Retries: nat := 3

  /** The number of configured API keys; one upload target is created for
      each (main.py:33-53). */
  const ApiKeys: nat := 6

  /** The result of `requests.get(url)`: a status code, or an exception. */
  datatype Fetch = Status(code: int) | FetchRaised

  /** Whether `project.upload(...)` returned or raised. */
  datatype UploadResult = Returned | Raised

  /** The outside world of one cycle: the number of upload targets, and the
      outcomes of downloads and uploads (an upload's outcome may depend on
      the target it goes to and on the file). */
  datatype Services = Services(targets: nat, fetch: string -> Fetch, upload: (nat, string) -> UploadResult)

  /** One call of `project.upload` on target number `target`. */
  datatype UploadCall = UploadCall(image: string, target: nat, batch: string, split: string,
                                   retries: nat, tag: string, result: UploadResult)

  /** The process state a cycle changes: the distribution counter and the
      set of image files on the local disk. */
  datatype State = State(counter: nat, disk: set<string>)

  /** The state after a run, the uploads it issued, and whether an exception
      ended it. */
  datatype Outcome = Outcome(state: State, calls: seq<UploadCall>, aborted: bool)

  /** The upload of an item to a target, with its fixed metadata
      (main.py:98-104). */
  function UploadFor(it: Item, target: nat, sv: Services): (c: UploadCall)
    ensures c.batch == c.tag == it.position
    ensures c.split == "train" && c.retries == 3
    ensures c.image == ImageName(it.report, it.position) && c.target == target
  {
    var name := ImageName(it.report, it.position);
    UploadCall(name, target, it.position, Split, Retries, it.position, sv.upload(target, name))
  }

  /** An event that raises whatever the counter and the upload outcome: an
      exception of the walk itself, a `requests.get` that raises on a
      recognised entry (main.py:89), or the modulo by an empty pool of
      targets on a recognised entry whose download answered 200
      (main.py:97). */
  predicate Raises(e: Event, sv: Services) {
    e.Fault? ||
    (e.item.position in Folders &&
     (sv.fetch(e.item.url).FetchRaised? || (sv.fetch(e.item.url) == Status(StatusOk) && sv.targets == 0)))
  }

  /** One pass of the innermost loop body (main.py:88-114). A `Fault` is an
      exception met by the walk itself. */
  function Handle(e: Event, st: State, sv: Services): (r: Outcome)
    // at most one upload per entry, on a valid target chosen by the counter
    ensures |r.calls| <= 1
    ensures r.calls != [] ==>
      e.Entry? && e.item.position in Folders && sv.fetch(e.item.url) == Status(StatusOk) &&
      sv.targets > 0 && r.calls[0] == UploadFor(e.item, st.counter % sv.targets, sv) &&
      r.calls[0].target < sv.targets
    // the counter moves by one exactly when the upload returns, and the
    // cycle is abandoned exactly when it raises
    ensures r.calls != [] ==>
      (r.calls[0].result == Returned <==> !r.aborted) &&
      r.state.counter == st.counter + (if r.aborted then 0 else 1)
    // an entry that issues no upload changes nothing but, perhaps, the disk
    ensures r.calls == [] ==> r.state.counter == st.counter
    ensures r.calls == [] && !r.aborted ==> r.state == st
    // the image file is written before the target is chosen and removed
    // only after the upload returns
    ensures r.calls != [] && r.aborted ==> r.state.disk == st.disk + {r.calls[0].image}
    ensures r.calls != [] && !r.aborted ==> r.state.disk == st.disk - {r.calls[0].image}
    // with no target at all, the modulo raises after the file was written
    ensures r.calls == [] && r.state != st ==>
      r.aborted && sv.targets == 0 && e.Entry? &&
      r.state.disk == st.disk + {ImageName(e.item.report, e.item.position)}
    // labels outside the recognised set and failed downloads are skipped
    ensures e.Entry? && e.item.position !in Folders ==> r == Outcome(st, [], false)
    ensures (e.Entry? && e.item.position in Folders && sv.fetch(e.item.url).Status? &&
             sv.fetch(e.item.url).code != StatusOk) ==> r == Outcome(st, [], false)
    // an exception of the walk, or a download that raises, abandons the
    // cycle and changes nothing
    ensures e.Fault? ==> r == Outcome(st, [], true)
    ensures (e.Entry? && e.item.position in Folders && sv.fetch(e.item.url).FetchRaised?) ==>
      r == Outcome(st, [], true)
    // a recognised entry whose download answered 200 is uploaded exactly
    // when there is a target; with none, the modulo raises after the file
    // was written
    ensures (e.Entry? && e.item.position in Folders && sv.fetch(e.item.url) == Status(StatusOk)) ==>
      (sv.targets > 0 <==> r.calls != []) &&
      (sv.targets == 0 ==>
        r == Outcome(State(st.counter, st.disk + {ImageName(e.item.report, e.item.position)}), [], true))
    // the cycle is abandoned exactly when the event raises on its own or
    // its upload raises
    ensures r.aborted <==> Raises(e, sv) || (r.calls != [] && r.calls[0].result == Raised)
  {
    match e
    case Fault => Outcome(st, [], true)
    case Entry(it) =>
      if it.position !in Folders then Outcome(st, [], false)
      else
        match sv.fetch(it.url)
        case FetchRaised => Outcome(st, [], true)
        case Status(code) =>
          if code != StatusOk then Outcome(st, [], false)
          else
            var name := ImageName(it.report, it.position);
            var written := st.disk + {name};
            // `project_counter % len(projects)` raises ZeroDivisionError
            // when there is no target
            if sv.targets == 0 then Outcome(State(st.counter, written), [], true)
            else
              var call := UploadFor(it, st.counter % sv.targets, sv);
              match call.result
              case Raised => Outcome(State(st.counter, written), [call], true)
              case Returned => Outcome(State(st.counter + 1, written - {name}), [call], false)
  }

  /** One cycle over the entries the walk reaches, abandoned at the first
      exception. */
  function Run(events: seq<Event>, st: State, sv: Services): Outcome
    decreases |events|
  {
    if events == [] then Outcome(st, [], false)
    else
      var h := Handle(events[0], st, sv);
      if h.aborted then h
      else
        var r := Run(events[1..], h.state, sv);
        Outcome(r.state, h.calls + r.calls, r.aborted)
  }

  /** Continues a run `r` with `rest`, unless `r` was abandoned. */
  function Then(r: Outcome, rest: seq<Event>, sv: Services): Outcome {
    if r.aborted then r
    else
      var r' := Run(rest, r.state, sv);
      Outcome(r'.state, r.calls + r'.calls, r'.aborted)
  }

  /** Running two stretches of entries one after the other is running their
      concatenation; this is what lets the nested loops of the walk be
      verified one level at a time. */
  lemma {:induction false} RunAppend(a: seq<Event>, b: seq<Event>, st: State, sv: Services)
    ensures Run(a + b, st, sv) == Then(Run(a, st, sv), b, sv)
    decreases |a|
  {
    if a == [] {
      assert a + b == b;
    } else {
      assert (a + b)[0] == a[0];
      assert (a + b)[1..] == a[1..] + b;
      var h := Handle(a[0], st, sv);
      if !h.aborted {
        RunAppend(a[1..], b, h.state, sv);
        var r1 := Run(a[1..], h.state, sv);
        if !r1.aborted {
          var r2 := Run(b, r1.state, sv);
          assert h.calls + (r1.calls + r2.calls) == (h.calls + r1.calls) + r2.calls;
        }
      }
    }
  }

  /** A run that was not abandoned, extended by one entry. */
  lemma RunSnoc(pre: seq<Event>, e: Event, st: State, sv: Services)
    requires !Run(pre, st, sv).aborted
    ensures var r := Run(pre, st, sv);
            var h := Handle(e, r.state, sv);
            Run(pre + [e], st, sv) == Outcome(h.state, r.calls + h.calls, h.aborted)
  {
    RunAppend(pre, [e], st, sv);
    var r := Run(pre, st, sv);
    var h := Handle(e, r.state, sv);
    assert [e][0] == e && [e][1..] == [];
    assert h.calls + [] == h.calls;
    assert Run([e], r.state, sv) == h;
  }

  /** Once an exception has abandoned a run, nothing after it is reached. */
  lemma AbortSticks(pre: seq<Event>, post: seq<Event>, st: State, sv: Services)
    requires Run(pre, st, sv).aborted
    ensures Run(pre + post, st, sv) == Run(pre, st, sv)
  {
    RunAppend(pre, post, st, sv);
  }

  /** Whether the last upload of some calls raised. */
  predicate LastRaised(calls: seq<UploadCall>) {
    calls != [] && calls[|calls| - 1].result == Raised
  }

  /** A cycle is abandoned exactly when one of its events raises on its own
      (an exception of the walk, a download that raises, an empty pool of
      targets) or an upload raises, which is then the last upload
      (main.py:74-114, 117-120). */
  lemma AbortedIff(events: seq<Event>, st: State, sv: Services)
    ensures Run(events, st, sv).aborted <==>
      (exists e :: e in events && Raises(e, sv)) || LastRaised(Run(events, st, sv).calls)
  {
    var r := Run(events, st, sv);
    if exists e :: e in events && Raises(e, sv) {
      var e :| e in events && Raises(e, sv);
      ExceptionAborts(events, e, st, sv);
    }
    if LastRaised(r.calls) {
      RaisedOnlyLast(events, st, sv);
      assert OnlyLastMayRaise(r);
    }
    if r.aborted {
      AbortCause(events, st, sv);
    }
  }

  /** An event that raises on its own abandons the cycle that reaches it
      or, if an earlier event abandoned it, that one did. */
  lemma {:induction false} ExceptionAborts(events: seq<Event>, e: Event, st: State, sv: Services)
    requires e in events && Raises(e, sv)
    ensures Run(events, st, sv).aborted
    decreases |events|
  {
    var h := Handle(events[0], st, sv);
    if !h.aborted {
      assert events[0] != e;
      assert e in events[1..];
      ExceptionAborts(events[1..], e, h.state, sv);
    }
  }

  /** An abandoned cycle met an event that raises on its own, or its last
      upload raised. */
  lemma {:induction false} AbortCause(events: seq<Event>, st: State, sv: Services)
    requires Run(events, st, sv).aborted
    ensures (exists e :: e in events && Raises(e, sv)) || LastRaised(Run(events, st, sv).calls)
    decreases |events|
  {
    var h := Handle(events[0], st, sv);
    var r := Run(events, st, sv);
    if h.aborted {
      if !Raises(events[0], sv) {
        assert r.calls == h.calls;
      }
    } else {
      AbortCause(events[1..], h.state, sv);
      var t := Run(events[1..], h.state, sv);
      assert r.calls == h.calls + t.calls;
      if LastRaised(t.calls) {
        assert r.calls[|r.calls| - 1] == t.calls[|t.calls| - 1];
      } else {
        var e :| e in events[1..] && Raises(e, sv);
        assert e in events;
      }
    }
  }

  /** The number of upload calls that returned normally. */
  function Completed(calls: seq<UploadCall>): nat {
    if calls == [] then 0
    else (if calls[0].result == Returned then 1 else 0) + Completed(calls[1..])
  }

  /** The counter law of one cycle, abandoned or not (main.py:97-112): only
      the last upload can have raised, and then the cycle was abandoned; the
      counter ends up advanced by exactly the number of uploads that
      returned, so it never decreases and increments made before an
      exception are kept. */
  lemma CounterLaw(events: seq<Event>, st: State, sv: Services)
    ensures var r := Run(events, st, sv);
      && r.state.counter == st.counter + Completed(r.calls)
      && (forall k | 0 <= k < |r.calls| - 1 :: r.calls[k].result == Returned)
      && (r.calls != [] && r.calls[|r.calls| - 1].result == Raised ==> r.aborted)
      && (!r.aborted ==> Completed(r.calls) == |r.calls|)
  {
    CounterAdvance(events, st, sv);
    OnlyLastRaises(events, st, sv);
  }

  /** The counter advances by the uploads that returned. */
  lemma {:induction false} CounterAdvance(events: seq<Event>, st: State, sv: Services)
    ensures Run(events, st, sv).state.counter == st.counter + Completed(Run(events, st, sv).calls)
    decreases |events|
  {
    if events != [] {
      var h := Handle(events[0], st, sv);
      if !h.aborted {
        CounterAdvance(events[1..], h.state, sv);
        var t := Run(events[1..], h.state, sv);
        if h.calls != [] {
          assert (h.calls + t.calls)[1..] == t.calls;
        } else {
          assert h.calls + t.calls == t.calls;
        }
      }
    }
  }

  /** Every upload of a cycle but the last returned; a last upload that
      raised abandoned the cycle, and a cycle that completed saw all its
      uploads return. */
  lemma OnlyLastRaises(events: seq<Event>, st: State, sv: Services)
    ensures var r := Run(events, st, sv);
      && (forall k | 0 <= k < |r.calls| - 1 :: r.calls[k].result == Returned)
      && (r.calls != [] && r.calls[|r.calls| - 1].result == Raised ==> r.aborted)
      && (!r.aborted ==> Completed(r.calls) == |r.calls|)
  {
    var r := Run(events, st, sv);
    RaisedOnlyLast(events, st, sv);
    assert OnlyLastMayRaise(r);
    if !r.aborted {
      AllReturned(r.calls);
    }
  }

  /** Every upload returned, except perhaps the last of an abandoned run. */
  ghost predicate OnlyLastMayRaise(r: Outcome) {
    forall k | 0 <= k < |r.calls| :: r.calls[k].result == Returned || (k == |r.calls| - 1 && r.aborted)
  }

  /** An upload that raised is the last one, and it abandoned the cycle. */
  lemma {:induction false} RaisedOnlyLast(events: seq<Event>, st: State, sv: Services)
    ensures OnlyLastMayRaise(Run(events, st, sv))
    decreases |events|
  {
    if events != [] {
      var h := Handle(events[0], st, sv);
      if !h.aborted {
        RaisedOnlyLast(events[1..], h.state, sv);
        var t := Run(events[1..], h.state, sv);
        var r := Run(events, st, sv);
        assert r.calls == h.calls + t.calls && r.aborted == t.aborted;
        assert OnlyLastMayRaise(t);
        forall k | 0 <= k < |r.calls|
          ensures r.calls[k].result == Returned || (k == |r.calls| - 1 && r.aborted)
        {
          if k >= |h.calls| {
            assert r.calls[k] == t.calls[k - |h.calls|];
          } else {
            assert r.calls[k] == h.calls[0];
          }
        }
      }
    }
  }

  lemma {:induction false} AllReturned(calls: seq<UploadCall>)
    requires forall k | 0 <= k < |calls| :: calls[k].result == Returned
    ensures Completed(calls) == |calls|
    decreases |calls|
  {
    if calls != [] {
      AllReturned(calls[1..]);
    }
  }

  /** Upload k goes to target `(c0 + k) % targets`, a valid index. */
  ghost predicate RotatesFrom(calls: seq<UploadCall>, c0: nat, targets: nat) {
    forall k | 0 <= k < |calls| ::
      targets > 0 && calls[k].target == (c0 + k) % targets && calls[k].target < targets
  }

  /** The round-robin law of one cycle, abandoned or not (main.py:97): the
      k-th upload goes to target `(counter + k) % targets`, always a valid
      index. */
  lemma {:induction false} RoundRobin(events: seq<Event>, st: State, sv: Services)
    ensures RotatesFrom(Run(events, st, sv).calls, st.counter, sv.targets)
    decreases |events|
  {
    var r := Run(events, st, sv);
    if events != [] {
      var h := Handle(events[0], st, sv);
      if !h.aborted {
        var t := Run(events[1..], h.state, sv);
        assert r.calls == h.calls + t.calls;
        assert h.state.counter == st.counter + |h.calls|;
        RoundRobin(events[1..], h.state, sv);
        forall k | 0 <= k < |r.calls|
          ensures sv.targets > 0 && r.calls[k].target == (st.counter + k) % sv.targets
          ensures r.calls[k].target < sv.targets
        {
          if k < |h.calls| {
            assert r.calls[k] == h.calls[0];
          } else {
            var j := k - |h.calls|;
            assert r.calls[k] == t.calls[j];
            assert h.state.counter + j == st.counter + k;
          }
        }
        assert RotatesFrom(r.calls, st.counter, sv.targets);
      }
    }
  }

  /** Every upload a cycle issues carries the fixed metadata: batch and tag
      are the item's recognised position, the split is "train" and three
      retries are asked for (main.py:98-104). */
  lemma {:induction false} FixedMetadata(events: seq<Event>, st: State, sv: Services)
    ensures forall c | c in Run(events, st, sv).calls ::
      c.batch == c.tag && c.tag in Folders && c.split == "train" && c.retries == 3
    decreases |events|
  {
    if events != [] {
      var h := Handle(events[0], st, sv);
      if !h.aborted {
        FixedMetadata(events[1..], h.state, sv);
      }
    }
  }

  /** The image, if any, that an upload which raised left on disk: the
      `os.remove` after the upload is not reached (main.py:98-107). */
  lemma {:induction false} RaisedUploadLeavesFile(events: seq<Event>, st: State, sv: Services)
    ensures var r := Run(events, st, sv);
      r.calls != [] && r.calls[|r.calls| - 1].result == Raised ==>
        r.aborted && r.calls[|r.calls| - 1].image in r.state.disk
    decreases |events|
  {
    if events != [] {
      var h := Handle(events[0], st, sv);
      if !h.aborted {
        RaisedUploadLeavesFile(events[1..], h.state, sv);
        var t := Run(events[1..], h.state, sv);
        if t.calls == [] {
          assert h.calls + t.calls == h.calls;
        } else {
          assert (h.calls + t.calls)[|h.calls + t.calls| - 1] == t.calls[|t.calls| - 1];
        }
      }
    }
  }

  /** The entries that reach the upload stage when nothing raises: a
      recognised position whose download answered 200. */
  function Uploadable(events: seq<Event>, fetch: string -> Fetch): seq<Item> {
    if events == [] then []
    else
      var e := events[0];
      var head := if e.Entry? && e.item.position in Folders && fetch(e.item.url) == Status(StatusOk)
                  then [e.item] else [];
      head + Uploadable(events[1..], fetch)
  }

  /** The reference assignment: item k goes to target `(c0 + k) % targets`,
      with the fixed metadata. */
  function Planned(items: seq<Item>, c0: nat, sv: Services): seq<UploadCall>
    requires sv.targets > 0 || items == []
    decreases |items|
  {
    if items == [] then []
    else [UploadFor(items[0], c0 % sv.targets, sv)] + Planned(items[1..], c0 + 1, sv)
  }

  /** The local file names of some items. */
  function ImageNames(items: seq<Item>): set<string> {
    set it | it in items :: ImageName(it.report, it.position)
  }

  /** The k-th planned upload is item k, sent to `(c0 + k) % targets`. */
  lemma {:induction false} PlannedAt(items: seq<Item>, c0: nat, sv: Services)
    requires sv.targets > 0
    ensures |Planned(items, c0, sv)| == |items|
    ensures forall k | 0 <= k < |items| ::
      Planned(items, c0, sv)[k] == UploadFor(items[k], (c0 + k) % sv.targets, sv)
    decreases |items|
  {
    if items != [] {
      PlannedAt(items[1..], c0 + 1, sv);
      var p := Planned(items, c0, sv);
      forall k | 0 <= k < |items|
        ensures p[k] == UploadFor(items[k], (c0 + k) % sv.targets, sv)
      {
        if k > 0 {
          assert p[k] == Planned(items[1..], c0 + 1, sv)[k - 1];
          assert c0 + 1 + (k - 1) == c0 + k;
        }
      }
    }
  }

  /** A cycle that no exception interrupted uploads exactly the uploadable
      items, in walk order, to consecutive targets from the counter's value;
      advances the counter by their number; and leaves none of their image
      files on disk (main.py:87-116). */
  lemma {:induction false} CompletedCycle(events: seq<Event>, st: State, sv: Services)
    ensures var r := Run(events, st, sv);
      var items := Uploadable(events, sv.fetch);
      !r.aborted ==>
        && (sv.targets > 0 || items == [])
        && r.calls == Planned(items, st.counter, sv)
        && r.state.counter == st.counter + |items|
        && r.state.disk == st.disk - ImageNames(items)
    decreases |events|
  {
    var r := Run(events, st, sv);
    if events != [] && !r.aborted {
      var e := events[0];
      var h := Handle(e, st, sv);
      var items := Uploadable(events, sv.fetch);
      var rest := Uploadable(events[1..], sv.fetch);
      CompletedCycle(events[1..], h.state, sv);
      var t := Run(events[1..], h.state, sv);
      if h.calls == [] {
        assert items == rest;
        assert h.calls + t.calls == t.calls;
      } else {
        assert items == [e.item] + rest;
        assert items[1..] == rest;
        var name := ImageName(e.item.report, e.item.position);
        assert ImageNames(items) == {name} + ImageNames(rest);
      }
    }
  }

  /** The image files that some uploads sent, in order. */
  function Images(calls: seq<UploadCall>): seq<string> {
    seq(|calls|, k requires 0 <= k < |calls| => calls[k].image)
  }

  /** Where the rotation starts changes the targets of a plan, not its images. */
  lemma {:induction false} PlannedImages(items: seq<Item>, c0: nat, c1: nat, sv: Services)
    requires sv.targets > 0 || items == []
    ensures Images(Planned(items, c0, sv)) == Images(Planned(items, c1, sv))
    decreases |items|
  {
    if items != [] {
      PlannedImages(items[1..], c0 + 1, c1 + 1, sv);
      var p0, p1 := Planned(items, c0, sv), Planned(items, c1, sv);
      assert p0[1..] == Planned(items[1..], c0 + 1, sv);
      assert p1[1..] == Planned(items[1..], c1 + 1, sv);
      assert Images(p0) == [p0[0].image] + Images(p0[1..]);
      assert Images(p1) == [p1[0].image] + Images(p1[1..]);
    }
  }

  /** Nothing remembers what was uploaded: a second cycle over the same
      snapshot uploads the same images again, in the same order, continuing
      the rotation where the first cycle left it. */
  lemma NoDeduplication(events: seq<Event>, st: State, sv: Services)
    requires !Run(events, st, sv).aborted
    requires !Run(events, Run(events, st, sv).state, sv).aborted
    ensures var r1 := Run(events, st, sv);
      var r2 := Run(events, r1.state, sv);
      Images(r2.calls) == Images(r1.calls) &&
      RotatesFrom(r2.calls, st.counter + |r1.calls|, sv.targets)
  {
    var r1 := Run(events, st, sv);
    var r2 := Run(events, r1.state, sv);
    var items := Uploadable(events, sv.fetch);
    assert sv.targets > 0 || items == [] by { CompletedCycle(events, st, sv); }
    assert r1.calls == Planned(items, st.counter, sv) by { CompletedCycle(events, st, sv); }
    assert r2.calls == Planned(items, r1.state.counter, sv) by { CompletedCycle(events, r1.state, sv); }
    assert r1.state.counter == st.counter + |r1.calls| by { CounterLaw(events, st, sv); }
    assert RotatesFrom(r2.calls, r1.state.counter, sv.targets) by { RoundRobin(events, r1.state, sv); }
    PlannedImages(items, st.counter, r1.state.counter, sv);
  }

  /** Skipping an entry whose label is not recognised ("Top", say) is the
      same as the entry not being there: no download, no upload, no counter
      step, and the cycle goes on (main.py:88). */
  lemma UnrecognisedLabelIgnored(pre: seq<Event>, it: Item, post: seq<Event>, st: State, sv: Services)
    requires it.position !in Folders
    ensures Run(pre + [Entry(it)] + post, st, sv) == Run(pre + post, st, sv)
  {
    NoOpRemovable(pre, Entry(it), post, st, sv);
  }

  /** A download that does not answer 200 is the same as the entry not being
      there: no upload, no counter step, and the cycle goes on with the next
      entry (main.py:89-90, 113-114). */
  lemma FailedDownloadSkipped(pre: seq<Event>, it: Item, post: seq<Event>, st: State, sv: Services)
    requires sv.fetch(it.url).Status? && sv.fetch(it.url).code != StatusOk
    ensures Run(pre + [Entry(it)] + post, st, sv) == Run(pre + post, st, sv)
  {
    NoOpRemovable(pre, Entry(it), post, st, sv);
  }

  lemma NoOpRemovable(pre: seq<Event>, e: Event, post: seq<Event>, st: State, sv: Services)
    requires forall s: State :: Handle(e, s, sv) == Outcome(s, [], false)
    ensures Run(pre + [e] + post, st, sv) == Run(pre + post, st, sv)
  {
    RunAppend(pre + [e], post, st, sv);
    RunAppend(pre, post, st, sv);
    RunAppend(pre, [e], st, sv);
    var r := Run(pre, st, sv);
    if !r.aborted {
      RunSnoc(pre, e, st, sv);
      assert r.calls + [] == r.calls;
    }
    assert Run(pre + [e], st, sv) == r;
  }

  /** With one target per configured API key and fourteen uploads from
      counter 0, the targets are 0..5, 0..5, 0, 1. */
  lemma SixTargetsRotation(items: seq<Item>, sv: Services)
    requires sv.targets == ApiKeys && |items| == 14
    ensures var p := Planned(items, 0, sv);
      |p| == 14 &&
      seq(14, k requires 0 <= k < 14 => p[k].target) == [0, 1, 2, 3, 4, 5, 0, 1, 2, 3, 4, 5, 0, 1]
  {
    PlannedAt(items, 0, sv);
  }
}
