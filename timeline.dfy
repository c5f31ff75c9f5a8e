/**
 * The timeline: a walk over a person tree that records a birth event for
 * every node visited, a death event when a death date is given and an
 * event for each dated media item, followed by an ordering of the events
 * by date. Dates are `day/month/year` strings; the walk rewrites each as
 * `year-month-day` before handing it to the date parser.
 */
module Timeline {
  import opened Optional
  import opened Strings
  import opened Sorting

  /** A media item of the person tree. */
  datatype MediaItem = MediaItem(id: string, kind: string, url: string, description: string, date: Option<string>)

  /** A person of the tree; absent `media`, `parents` and `children` lists
      are empty ones. */
  datatype Person = Person(
    id: string,
    name: string,
    birthDate: string,
    deathDate: Option<string>,
    media: seq<MediaItem>,
    parents: seq<Person>,
    children: seq<Person>)

  datatype EventKind = Birth | Death | MediaEvent

  /** A timeline event; `date` is the string given to the date parser. */
  datatype Event = Event(kind: EventKind, person: Person, date: string, description: string, media: Option<MediaItem>)

  /** `s.split('/').reverse().join('-')`. */
  function RewriteDate(s: string): string
  {
    Join(Reverse(Split(s, '/')), "-")
  }

  /** The rewrite only reorders the pieces between slashes and turns each
      slash into one dash, so the length is kept. */
  lemma RewriteDateLength(s: string)
    ensures |RewriteDate(s)| == |s|
  {
    var pieces := Split(s, '/');
    JoinSplit(s, '/');
    JoinLength(pieces, "/");
    JoinLength(Reverse(pieces), "-");
    TotalLengthReverse(pieces);
  }

  /** A `day/month/year` date becomes `year-month-day`. */
  lemma RewriteDayMonthYear(d: string, m: string, y: string)
    requires '/' !in d && '/' !in m && '/' !in y
    ensures RewriteDate(d + "/" + m + "/" + y) == y + "-" + m + "-" + d
  {
    var date := d + "/" + m + "/" + y;
    assert date == d + ['/'] + (m + ['/'] + y);
    SplitAt(d, '/', m + ['/'] + y);
    SplitAt(m, '/', y);
    SplitWhole(y, '/');
    assert Split(date, '/') == [d, m, y];
    var rev := Reverse([d, m, y]);
    assert rev == [y, m, d];
    assert rev[1..] == [m, d] && rev[1..][1..] == [d];
    assert Join([d], "-") == d;
    assert Join([m, d], "-") == m + "-" + d;
  }

  /** A date with no separator is left as it is. */
  lemma RewriteUndelimited(s: string)
    requires '/' !in s
    ensures RewriteDate(s) == s
  {
    SplitWhole(s, '/');
  }

  /** Marie's birth date in the sample family. */
  lemma SampleDate()
    ensures RewriteDate("15/03/1985") == "1985-03-15"
  {
    var d, m, y := "15", "03", "1985";
    assert '/' !in d && '/' !in m && '/' !in y;
    RewriteDayMonthYear(d, m, y);
    assert d + "/" + m + "/" + y == "15/03/1985";
    assert y + "-" + m + "-" + d == "1985-03-15";
  }

  function BirthEvent(p: Person): Event
  {
    Event(Birth, p, RewriteDate(p.birthDate), "Naissance de " + p.name, None)
  }

  function DeathEvent(p: Person): Event
    requires p.deathDate.Some?
  {
    Event(Death, p, RewriteDate(p.deathDate.value), "Décès de " + p.name, None)
  }

  /** The event of a dated media item `m` of `p`. */
  function MediaEventOf(p: Person, m: MediaItem): Event
    requires m.date.Some?
  {
    Event(MediaEvent, p, RewriteDate(m.date.value), m.description, Some(m))
  }

  /** The events of the dated items of `items`, in list order. */
  function MediaEvents(p: Person, items: seq<MediaItem>): seq<Event>
  {
    if items == [] then []
    else
      var m := items[|items| - 1];
      MediaEvents(p, items[..|items| - 1])
      + (if Truthy(m.date) then [MediaEventOf(p, m)] else [])
  }

  /** The events a node contributes itself: birth, death if dated, then media. */
  function OwnEvents(p: Person): seq<Event>
  {
    [BirthEvent(p)]
    + (if Truthy(p.deathDate) then [DeathEvent(p)] else [])
    + MediaEvents(p, p.media)
  }

  /** The events of the walk from `p`: its own, then those of each parent's
      walk, then those of each child's walk; every node reached adds at
      least its birth. */
  function Flatten(p: Person): (r: seq<Event>)
    ensures |r| >= 1 + |p.parents| + |p.children|
    decreases p
  {
    OwnEvents(p) + FlattenAll(p.parents) + FlattenAll(p.children)
  }

  function FlattenAll(ps: seq<Person>): (r: seq<Event>)
    ensures |r| >= |ps|
    decreases ps
  {
    if ps == [] then [] else FlattenAll(ps[..|ps| - 1]) + Flatten(ps[|ps| - 1])
  }

  /** The `forEach` over a node's media: appends an event per dated item. */
  method PushMediaEvents(node: Person, events: seq<Event>) returns (out: seq<Event>)
    ensures out == events + MediaEvents(node, node.media)
  {
    out := events;
    var i := 0;
    while i < |node.media|
      invariant 0 <= i <= |node.media|
      invariant out == events + MediaEvents(node, node.media[..i])
    {
      var m := node.media[i];
      if m.date.Some? && m.date.value != "" {
        out := out + [MediaEventOf(node, m)];
      }
      i := i + 1;
      assert node.media[..i][..i - 1] == node.media[..i - 1];
    }
    assert node.media[..|node.media|] == node.media;
  }

  /** The pushes for the node itself: birth, death if dated, then media. */
  method PushOwnEvents(node: Person, events: seq<Event>) returns (out: seq<Event>)
    ensures out == events + OwnEvents(node)
  {
    out := events + [BirthEvent(node)];
    if Truthy(node.deathDate) {
      out := out + [DeathEvent(node)];
    }
    ghost var own := out;
    out := PushMediaEvents(node, out);
    assert own + MediaEvents(node, node.media) == events + OwnEvents(node);
  }

  /** `flattenTree(node, events)`: appends the walk's events to `events`. */
  method FlattenTree(node: Person, events: seq<Event>) returns (out: seq<Event>)
    ensures out == events + Flatten(node)
    decreases node
  {
    out := PushOwnEvents(node, events);
    out := FlattenEach(node.parents, out);
    out := FlattenEach(node.children, out);
  }

  /** The `forEach` over a node's parents or children: walks each in turn. */
  method FlattenEach(ps: seq<Person>, events: seq<Event>) returns (out: seq<Event>)
    ensures out == events + FlattenAll(ps)
    decreases ps
  {
    out := events;
    var j := 0;
    while j < |ps|
      invariant 0 <= j <= |ps|
      invariant out == events + FlattenAll(ps[..j])
    {
      out := FlattenTree(ps[j], out);
      FlattenAllStep(ps, j);
      j := j + 1;
    }
    assert ps[..|ps|] == ps;
  }

  /** One more node of a list adds that node's walk to the list's walk. */
  lemma FlattenAllStep(ps: seq<Person>, j: nat)
    requires j < |ps|
    ensures FlattenAll(ps[..j + 1]) == FlattenAll(ps[..j]) + Flatten(ps[j])
  {
    assert ps[..j + 1][..j] == ps[..j];
  }

  /** The nodes the walk visits, in visiting order (a node reached twice
      is listed twice). */
  function Visited(p: Person): seq<Person>
    decreases p
  {
    [p] + VisitedAll(p.parents) + VisitedAll(p.children)
  }

  function VisitedAll(ps: seq<Person>): seq<Person>
    decreases ps
  {
    if ps == [] then [] else VisitedAll(ps[..|ps| - 1]) + Visited(ps[|ps| - 1])
  }

  /** `f` applied to each element of `xs`, the results one after the other. */
  function Collect<A, B>(f: A -> seq<B>, xs: seq<A>): seq<B>
  {
    if xs == [] then [] else Collect(f, xs[..|xs| - 1]) + f(xs[|xs| - 1])
  }

  lemma {:induction false} CollectAppend<A, B>(f: A -> seq<B>, a: seq<A>, b: seq<A>)
    ensures Collect(f, a + b) == Collect(f, a) + Collect(f, b)
    decreases |b|
  {
    if b == [] {
      assert a + b == a;
    } else {
      var init := b[..|b| - 1];
      CollectAppend(f, a, init);
      assert (a + b)[..|a + b| - 1] == a + init;
      assert (a + b)[|a + b| - 1] == b[|b| - 1];
    }
  }

  /** The own events of each node of `ps`, one node after the other. */
  function EventsOf(ps: seq<Person>): seq<Event>
  {
    Collect(OwnEvents, ps)
  }

  /** The walk yields, node after node in visiting order, exactly each
      node's own events. */
  lemma {:induction false} FlattenByNode(p: Person)
    ensures Flatten(p) == EventsOf(Visited(p))
    decreases p
  {
    FlattenAllByNode(p.parents);
    FlattenAllByNode(p.children);
    CollectAppend(OwnEvents, [p], VisitedAll(p.parents));
    CollectAppend(OwnEvents, [p] + VisitedAll(p.parents), VisitedAll(p.children));
    assert EventsOf([p]) == OwnEvents(p) by {
      assert [p][..0] == [];
    }
  }

  lemma {:induction false} FlattenAllByNode(ps: seq<Person>)
    ensures FlattenAll(ps) == EventsOf(VisitedAll(ps))
    decreases ps
  {
    if ps != [] {
      FlattenAllByNode(ps[..|ps| - 1]);
      FlattenByNode(ps[|ps| - 1]);
      CollectAppend(OwnEvents, VisitedAll(ps[..|ps| - 1]), Visited(ps[|ps| - 1]));
    }
  }

  /** The number of events of a kind. */
  function CountKind(es: seq<Event>, k: EventKind): nat
  {
    if es == [] then 0 else CountKind(es[..|es| - 1], k) + (if es[|es| - 1].kind == k then 1 else 0)
  }

  lemma {:induction false} CountKindAppend(a: seq<Event>, b: seq<Event>, k: EventKind)
    ensures CountKind(a + b, k) == CountKind(a, k) + CountKind(b, k)
    decreases |b|
  {
    if b == [] {
      assert a + b == a;
    } else {
      CountKindAppend(a, b[..|b| - 1], k);
      assert (a + b)[..|a + b| - 1] == a + b[..|b| - 1];
    }
  }

  /** The number of dated items of a media list. */
  function DatedCount(items: seq<MediaItem>): nat
  {
    if items == [] then 0 else DatedCount(items[..|items| - 1]) + (if Truthy(items[|items| - 1].date) then 1 else 0)
  }

  lemma {:induction false} MediaEventsCount(p: Person, items: seq<MediaItem>)
    ensures CountKind(MediaEvents(p, items), MediaEvent) == DatedCount(items)
    ensures CountKind(MediaEvents(p, items), Birth) == 0
    ensures CountKind(MediaEvents(p, items), Death) == 0
  {
    if items != [] {
      var init := items[..|items| - 1];
      MediaEventsCount(p, init);
      var m := items[|items| - 1];
      var tail := if Truthy(m.date) then [MediaEventOf(p, m)] else [];
      CountKindAppend(MediaEvents(p, init), tail, MediaEvent);
      CountKindAppend(MediaEvents(p, init), tail, Birth);
      CountKindAppend(MediaEvents(p, init), tail, Death);
      if tail != [] {
        assert tail[..0] == [];
      }
    }
  }

  /** A node contributes one birth, one death exactly when its death date is
      given, and one media event per dated item. */
  lemma OwnEventsCount(p: Person)
    ensures CountKind(OwnEvents(p), Birth) == 1
    ensures CountKind(OwnEvents(p), Death) == if Truthy(p.deathDate) then 1 else 0
    ensures CountKind(OwnEvents(p), MediaEvent) == DatedCount(p.media)
  {
    var birth := [BirthEvent(p)];
    var death := if Truthy(p.deathDate) then [DeathEvent(p)] else [];
    MediaEventsCount(p, p.media);
    assert OwnEvents(p) == birth + death + MediaEvents(p, p.media);
    assert birth[..0] == [];
    assert CountKind(birth, Death) == 0 && CountKind(birth, MediaEvent) == 0 && CountKind(birth, Birth) == 1;
    if death != [] {
      assert death[..0] == [];
      assert CountKind(death, Death) == 1 && CountKind(death, MediaEvent) == 0;
    }
    forall k: EventKind
      ensures CountKind(OwnEvents(p), k) == CountKind(birth, k) + CountKind(death, k) + CountKind(MediaEvents(p, p.media), k)
    {
      CountKindAppend(birth, death, k);
      CountKindAppend(birth + death, MediaEvents(p, p.media), k);
    }
  }

  /** The number of nodes of `ps` with a given death date, and their dated media. */
  function DeathCount(ps: seq<Person>): nat
  {
    if ps == [] then 0 else DeathCount(ps[..|ps| - 1]) + (if Truthy(ps[|ps| - 1].deathDate) then 1 else 0)
  }

  function MediaCount(ps: seq<Person>): nat
  {
    if ps == [] then 0 else MediaCount(ps[..|ps| - 1]) + DatedCount(ps[|ps| - 1].media)
  }

  lemma {:induction false} EventsOfCount(ps: seq<Person>)
    ensures CountKind(EventsOf(ps), Birth) == |ps|
    ensures CountKind(EventsOf(ps), Death) == DeathCount(ps)
    ensures CountKind(EventsOf(ps), MediaEvent) == MediaCount(ps)
  {
    if ps != [] {
      var init := ps[..|ps| - 1];
      EventsOfCount(init);
      OwnEventsCount(ps[|ps| - 1]);
      forall k: EventKind
        ensures CountKind(EventsOf(ps), k) == CountKind(EventsOf(init), k) + CountKind(OwnEvents(ps[|ps| - 1]), k)
      {
        CountKindAppend(EventsOf(init), OwnEvents(ps[|ps| - 1]), k);
      }
    }
  }

  /** The walk yields one birth per visited node, one death per visited node
      with a death date and one media event per dated item of a visited node. */
  lemma TimelineCounts(root: Person)
    ensures CountKind(Flatten(root), Birth) == |Visited(root)|
    ensures CountKind(Flatten(root), Death) == DeathCount(Visited(root))
    ensures CountKind(Flatten(root), MediaEvent) == MediaCount(Visited(root))
  {
    FlattenByNode(root);
    EventsOfCount(Visited(root));
  }

  /** The walk's events ordered by time, `time` standing for
      `new Date(date).getTime()`. */
  function TimelineEvents(root: Person, time: string -> int): (r: seq<Event>)
    ensures SortedBy(r, (e: Event) => time(e.date))
    ensures multiset(r) == multiset(Flatten(root))
  {
    SortBy(Flatten(root), (e: Event) => time(e.date))
  }

  /** The three kinds cover every event. */
  lemma {:induction false} KindsCover(es: seq<Event>)
    ensures CountKind(es, Birth) + CountKind(es, Death) + CountKind(es, MediaEvent) == |es|
  {
    if es != [] {
      KindsCover(es[..|es| - 1]);
    }
  }

  function Photo(id: string, url: string, description: string, date: string): MediaItem
  {
    MediaItem(id, "image", url, description, Some(date))
  }

  function Ancestor(id: string, name: string, birth: string, death: Option<string>): Person
  {
    Person(id, name, birth, death, [], [], [])
  }

  /** The sample family shipped with the application. */
  function SampleTree(): Person
  {
    Person("1", "Marie Dubois", "15/03/1985", None,
      [Photo("m1", "https://images.unsplash.com/photo-1469474968028-56623f02e42e?w=400&h=300&fit=crop",
             "Vacances en famille en Bretagne", "15/08/2023")],
      [Person("2", "Jean Dubois", "22/05/1955", None,
         [Photo("m2", "https://images.unsplash.com/photo-1511895426328-dc8714191300?w=400&h=300&fit=crop",
                "Diplôme de médecine en 1980", "10/06/1980")],
         [Ancestor("4", "Henri Dubois", "10/01/1930", Some("25/12/2010")),
          Ancestor("5", "Suzanne Martin", "18/07/1935", Some("03/04/2015"))],
         []),
       Person("3", "Claire Moreau", "08/09/1958", None, [],
         [Ancestor("6", "Paul Moreau", "05/03/1932", Some("15/08/2018")),
          Ancestor("7", "Yvette Leroy", "20/11/1938", None)],
         [])],
      [Person("8", "Lucas Dubois", "12/04/2010", None,
         [Photo("m3", "https://images.unsplash.com/photo-1551698618-1dfe5d97d256?w=400&h=300&fit=crop",
                "Match de football", "20/05/2023")],
         [], []),
       Ancestor("9", "Emma Dubois", "28/11/2013", None)])
  }

  /** The members of the sample family in visiting order. */
  function SampleOrder(): seq<Person>
  {
    var marie := SampleTree();
    var jean := marie.parents[0];
    var claire := marie.parents[1];
    [marie, jean, jean.parents[0], jean.parents[1], claire, claire.parents[0], claire.parents[1],
     marie.children[0], marie.children[1]]
  }

  /** The walk over the sample family visits Marie, her father's line, her
      mother's line, then her two children. */
  lemma SampleVisitingOrder()
    ensures Visited(SampleTree()) == SampleOrder()
  {
    var marie := SampleTree();
    var jean := marie.parents[0];
    var claire := marie.parents[1];
    VisitedPair(jean.parents);
    VisitedPair(claire.parents);
    VisitedPair(marie.parents);
    VisitedPair(marie.children);
  }

  /** A list of two nodes is walked one node after the other. */
  lemma VisitedPair(ps: seq<Person>)
    requires |ps| == 2
    ensures VisitedAll(ps) == Visited(ps[0]) + Visited(ps[1])
  {
    assert ps[..1][..0] == [];
    assert VisitedAll(ps[..1]) == Visited(ps[0]);
  }

  /** Three members of the sample family have a death date. */
  lemma SampleDeaths()
    ensures DeathCount(SampleOrder()) == 3
  {
    var order := SampleOrder();
    assert order[..1][..0] == order[..0];
    assert DeathCount(order[..1]) == 0;
    assert order[..2][..1] == order[..1];
    assert DeathCount(order[..2]) == 0;
    assert order[..3][..2] == order[..2];
    assert DeathCount(order[..3]) == 1;
    assert order[..4][..3] == order[..3];
    assert DeathCount(order[..4]) == 2;
    assert order[..5][..4] == order[..4];
    assert DeathCount(order[..5]) == 2;
    assert order[..6][..5] == order[..5];
    assert DeathCount(order[..6]) == 3;
    assert order[..7][..6] == order[..6];
    assert DeathCount(order[..7]) == 3;
    assert order[..8][..7] == order[..7];
    assert DeathCount(order[..8]) == 3;
    assert order[..9][..8] == order[..8];
    assert DeathCount(order[..9]) == 3;
    assert order[..9] == order;
  }

  /** Marie, Jean and Lucas each have one dated photo; the others none. */
  lemma SampleDatedPhotos()
    ensures DatedCount(SampleOrder()[0].media) == 1 && DatedCount(SampleOrder()[1].media) == 1
    ensures DatedCount(SampleOrder()[7].media) == 1
    ensures forall k :: 2 <= k < 7 || k == 8 ==> DatedCount(SampleOrder()[k].media) == 0
  {
    var order := SampleOrder();
    assert order[0].media[..0] == [] && order[1].media[..0] == [] && order[7].media[..0] == [];
  }

  /** Three photos of the sample family are dated. */
  lemma SampleMedia()
    ensures MediaCount(SampleOrder()) == 3
  {
    var order := SampleOrder();
    SampleDatedPhotos();
    assert order[..1][..0] == order[..0];
    assert MediaCount(order[..1]) == 1;
    assert order[..2][..1] == order[..1];
    assert MediaCount(order[..2]) == 2;
    assert order[..3][..2] == order[..2];
    assert MediaCount(order[..3]) == 2;
    assert order[..4][..3] == order[..3];
    assert MediaCount(order[..4]) == 2;
    assert order[..5][..4] == order[..4];
    assert MediaCount(order[..5]) == 2;
    assert order[..6][..5] == order[..5];
    assert MediaCount(order[..6]) == 2;
    assert order[..7][..6] == order[..6];
    assert MediaCount(order[..7]) == 2;
    assert order[..8][..7] == order[..7];
    assert MediaCount(order[..8]) == 3;
    assert order[..9][..8] == order[..8];
    assert MediaCount(order[..9]) == 3;
    assert order[..9] == order;
  }

  /** The sample family gives nine births, three deaths and three media
      events: fifteen events. */
  lemma SampleTimeline()
    ensures CountKind(Flatten(SampleTree()), Birth) == 9
    ensures CountKind(Flatten(SampleTree()), Death) == 3
    ensures CountKind(Flatten(SampleTree()), MediaEvent) == 3
    ensures |Flatten(SampleTree())| == 15
  {
    TimelineCounts(SampleTree());
    KindsCover(Flatten(SampleTree()));
    SampleVisitingOrder();
    SampleDeaths();
    SampleMedia();
  }
}
