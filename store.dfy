/** The document store as one polling cycle sees it, and the order in which
    the poller walks it: officers, then each officer's animal records, then
    each record's `imagePaths` map (main.py:74-88). */
module Store {

  /** A value read with `dict.get(key, default)`: the default is used only
      when the key is absent; a key that is present with a null value yields
      `None`. */
  datatype Field<T> = Missing | Null | Present(value: T)

  /** One document of an officer's `animals` sub-collection. `imagePaths` is
      the position -> url map, in its iteration order. */
  datatype Animal = Animal(reportId: Field<string>, imagePaths: Field<seq<(string, string)>>)

  /** A query stream: it yields `items` in order and then, if `fails`,
      raises instead of ending. */
  datatype Stream<T> = Stream(items: seq<T>, fails: bool)

  /** An `animal_officer` document; only its `animals` sub-collection is read. */
  datatype Officer = Officer(animals: Stream<Animal>)

  /** The stream of all `animal_officer` documents. */
  type Snapshot = Stream<Officer>

  /** One image reference reached by the walk. */
  datatype Item = Item(report: string, position: string, url: string)

  /** What the walk produces, in order: an image reference, or an exception
      raised by the store or by a malformed record. */
  datatype Event = Entry(item: Item) | Fault

  /** The recognised position labels (main.py:56). */
  const Folders: seq<string> := ["Front", "Left", "Rear", "Right"]

  /** The report id as it is formatted into the file name (main.py:83). */
  function ReportName(id: Field<string>): string {
    match id
    case Missing => "unknown"
    case Null => "None"
    case Present(s) => s
  }

  /** The local file name of an image (main.py:92). */
  function ImageName(report: string, position: string): string {
    report + "_" + position + ".jpg"
  }

  /** Two recognised images get the same local file name only when they
      belong to the same report and the same position. */
  lemma ImageNameInjective(r1: string, p1: string, r2: string, p2: string)
    requires p1 in Folders && p2 in Folders
    requires ImageName(r1, p1) == ImageName(r2, p2)
    ensures r1 == r2 && p1 == p2
  {
    var s1, s2 := r1 + "_" + p1, r2 + "_" + p2;
    assert s1 == s2 by { SplitSuffix(s1, ".jpg", s2, ".jpg"); }
    assert p1[|p1| - 4] == p2[|p2| - 4] by {
      LabelLength(p1);
      LabelLength(p2);
      assert s1[|s1| - 4] == p1[|p1| - 4];
      assert s2[|s2| - 4] == p2[|p2| - 4];
    }
    LabelByFourthLast(p1, p2);
    SplitSuffix(r1 + "_", p1, r2 + "_", p2);
    SplitSuffix(r1, "_", r2, "_");
  }

  lemma LabelLength(p: string)
    requires p in Folders
    ensures 4 <= |p| <= 5
  {
  }

  /** The fourth letter from the end tells the recognised labels apart. */
  lemma LabelByFourthLast(p1: string, p2: string)
    requires p1 in Folders && p2 in Folders
    requires p1[|p1| - 4] == p2[|p2| - 4]
    ensures p1 == p2
  {
  }

  lemma SplitSuffix(x: string, a: string, y: string, b: string)
    requires x + a == y + b && |a| == |b|
    ensures x == y && a == b
  {
    assert x == (x + a)[..|x|];
    assert y == (y + b)[..|y|];
    assert a == (x + a)[|x|..];
    assert b == (y + b)[|y|..];
  }

  /** The concatenation, in order, of `f` applied to each element of `s`. */
  function Flatten<T>(s: seq<T>, f: T -> seq<Event>): seq<Event> {
    if s == [] then [] else Flatten(s[..|s| - 1], f) + f(s[|s| - 1])
  }

  lemma {:induction false} FlattenAppend<T>(a: seq<T>, b: seq<T>, f: T -> seq<Event>)
    ensures Flatten(a + b, f) == Flatten(a, f) + Flatten(b, f)
    decreases |b|
  {
    if b == [] {
      assert a + b == a;
    } else {
      var b' := b[..|b| - 1];
      assert (a + b)[..|a + b| - 1] == a + b';
      assert (a + b)[|a + b| - 1] == b[|b| - 1];
      FlattenAppend(a, b', f);
    }
  }

  lemma {:induction false} FlattenMember<T>(s: seq<T>, f: T -> seq<Event>, e: Event)
    ensures e in Flatten(s, f) <==> exists x :: x in s && e in f(x)
    decreases |s|
  {
    if s != [] {
      var s' := s[..|s| - 1];
      FlattenMember(s', f, e);
      assert s == s' + [s[|s| - 1]];
      assert forall x :: x in s <==> x in s' || x == s[|s| - 1];
    }
  }

  /** The exception a stream raises after its items, if any. */
  function Tail<T>(s: Stream<T>): seq<Event> {
    if s.fails then [Fault] else []
  }

  /** The entries of one `imagePaths` map, all labelled with the report id. */
  function EntryEvents(report: string, entries: seq<(string, string)>): seq<Event> {
    seq(|entries|, k requires 0 <= k < |entries| => Entry(Item(report, entries[k].0, entries[k].1)))
  }

  /** One animal record: a missing `imagePaths` is an empty map, a null one
      raises on `.items()` (main.py:82-87). */
  function AnimalEvents(a: Animal): seq<Event> {
    match a.imagePaths
    case Missing => []
    case Null => [Fault]
    case Present(entries) => EntryEvents(ReportName(a.reportId), entries)
  }

  function OfficerEvents(o: Officer): seq<Event> {
    Flatten(o.animals.items, AnimalEvents) + Tail(o.animals)
  }

  /** The event list of one cycle's walk, in order (main.py:74-87): every
      entry and exception the walk would meet if it went on past an
      exception. A cycle processes it only up to the first `Fault`; what
      follows is never reached. */
  function Discover(store: Snapshot): seq<Event> {
    Flatten(store.items, OfficerEvents) + Tail(store)
  }

  /** The event list of the walk holds exactly the (position, url) pairs of
      the records whose `imagePaths` is present, each tagged with its
      record's report id. A cycle processes this list only up to the first
      exception. */
  lemma DiscoverEntries(store: Snapshot, it: Item)
    ensures Entry(it) in Discover(store) <==>
      exists o, a :: o in store.items && a in o.animals.items && a.imagePaths.Present? &&
        it.report == ReportName(a.reportId) && (it.position, it.url) in a.imagePaths.value
  {
    FlattenMember(store.items, OfficerEvents, Entry(it));
    forall o | o in store.items
      ensures Entry(it) in OfficerEvents(o) <==> exists a :: a in o.animals.items && Entry(it) in AnimalEvents(a)
    {
      FlattenMember(o.animals.items, AnimalEvents, Entry(it));
    }
    forall a: Animal
      ensures Entry(it) in AnimalEvents(a) <==>
        a.imagePaths.Present? && it.report == ReportName(a.reportId) && (it.position, it.url) in a.imagePaths.value
    {
      if a.imagePaths.Present? {
        var es := a.imagePaths.value;
        var evs := AnimalEvents(a);
        if Entry(it) in evs {
          var k :| 0 <= k < |evs| && evs[k] == Entry(it);
          assert es[k] == (it.position, it.url);
        }
        if it.report == ReportName(a.reportId) && (it.position, it.url) in es {
          var k :| 0 <= k < |es| && es[k] == (it.position, it.url);
          assert evs[k] == Entry(it);
        }
      }
    }
  }

  /** The event list of the walk holds an exception exactly when the officer
      stream fails, some officer's animal stream fails, or some record has a
      null `imagePaths`. */
  lemma DiscoverFaults(store: Snapshot)
    ensures Fault in Discover(store) <==>
      store.fails ||
      exists o :: o in store.items &&
        (o.animals.fails || exists a :: a in o.animals.items && a.imagePaths.Null?)
  {
    FlattenMember(store.items, OfficerEvents, Fault);
    forall o | o in store.items
      ensures Fault in OfficerEvents(o) <==>
        o.animals.fails || exists a :: a in o.animals.items && a.imagePaths.Null?
    {
      FlattenMember(o.animals.items, AnimalEvents, Fault);
    }
    forall a: Animal ensures Fault in AnimalEvents(a) <==> a.imagePaths.Null? {
      if a.imagePaths.Present? {
        assert forall e | e in AnimalEvents(a) :: e.Entry?;
      }
    }
  }
}
