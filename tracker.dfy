/**
 * The browser page (frontend/script.js): the contest list it last fetched,
 * the platform filter, the registration it is waiting to hear about, and
 * the per-contest answers kept in `localStorage`.
 */
module Tracker {
  import opened Wrappers
  import opened Seqs
  import opened Text
  import Classifier
  import Aggregator

  /** A record as the page receives it; `start` is in milliseconds. */
  datatype Contest = Contest(id: int, event: string, start: int, href: string, platform: string)

  datatype Status = Registered | NotRegistered | Upcoming

  /** What a card shows: platform, status badge, title, start time and registration link. */
  datatype Card = Card(platform: string, status: Status, event: string, start: int, href: string)

  /**
   * What `allContests` holds: the parsed body of the last response. The
   * backend's error body `{ error: ... }` parses too, and is not an array.
   */
  datatype Payload = Listed(items: seq<Contest>) | NotAList

  /** One completed `fetchContests`: a parsed body, or a fetch or parse that threw. */
  datatype Fetched = Received(body: Payload) | Failed

  datatype Screen =
    | BackendError      // `fetchContests` caught an exception: "Backend error"
    | NoContests        // the filtered list is empty: "No upcoming contests."
    | Cards(cards: seq<Card>)
    | Blank             // `displayContests` cleared the container, then threw on a non-array

  /** One call of `displayContests`: what it draws and the contests it notifies about, in order. */
  datatype Render = Render(screen: Screen, notified: seq<Contest>)

  /** One hour, `3600 * 1000` milliseconds. */
  const NOTIFY_WINDOW_MS: int := 3600 * 1000

  function StartOf(c: Contest): int {
    c.start
  }

  /** The filter test: "All" lets everything through, any other value only its platform. */
  function Chosen(filter: string): Contest -> bool {
    (c: Contest) => filter == "All" || c.platform == filter
  }

  /** The contests on screen for `filter`, earliest first. */
  function Visible(contests: seq<Contest>, filter: string): (r: seq<Contest>)
    ensures SortedBy(r, StartOf)
    ensures multiset(r) == multiset(Filter(contests, Chosen(filter)))
  {
    SortBy(Filter(contests, Chosen(filter)), StartOf)
  }

  /** A contest is announced when it starts after `now` and at most an hour later. */
  predicate ShouldNotify(start: int, now: int) {
    var diff := start - now;
    diff > 0 && diff <= NOTIFY_WINDOW_MS
  }

  function Due(now: int): Contest -> bool {
    (c: Contest) => ShouldNotify(c.start, now)
  }

  /** The `localStorage` key of a contest: "contest_" followed by its id. */
  function Key(id: int): string {
    "contest_" + IntToString(id)
  }

  /** The badge: "yes" is checked first, then "no"; anything else, or no entry, is upcoming. */
  function StatusOf(storage: map<string, string>, id: int): Status {
    var item := if Key(id) in storage then Some(storage[Key(id)]) else None;
    if item == Some("yes") then Registered
    else if item == Some("no") then NotRegistered
    else Upcoming
  }

  function CardOf(c: Contest, storage: map<string, string>): Card {
    Card(c.platform, StatusOf(storage, c.id), c.event, c.start, c.href)
  }

  function CardMaker(storage: map<string, string>): Contest -> Card {
    (c: Contest) => CardOf(c, storage)
  }

  /** What `displayContests` produces for a list, in the given state and at the given time. */
  function Display(contests: seq<Contest>, filter: string, storage: map<string, string>, now: int): Render {
    var view := Visible(contests, filter);
    if |view| == 0 then Render(NoContests, [])
    else Render(Cards(Map(view, CardMaker(storage))), Filter(view, Due(now)))
  }

  /**
   * `displayContests` on whatever `allContests` holds: a list is drawn; on
   * anything else `allContests.filter` throws right after the container is
   * emptied, so the page is left blank and nothing is announced.
   */
  function Draw(payload: Payload, filter: string, storage: map<string, string>, now: int): (r: Render)
    ensures r.screen == Blank <==> payload == NotAList
    ensures r.screen == Blank ==> r.notified == []
    ensures payload.Listed? ==> r == Display(payload.items, filter, storage, now)
  {
    match payload
    case Listed(items) => Display(items, filter, storage, now)
    case NotAList => Render(Blank, [])
  }

  /** A record of the backend's response as the page parses it: the label becomes its name. */
  function OnWire(c: Aggregator.Contest): Contest {
    Contest(c.id, c.event, c.start, c.href, c.platform.Name())
  }

  /** What the page's `fetch` gets from the backend: its JSON body, parsed. */
  function Receive(response: Aggregator.Response): (r: Fetched)
    ensures r.Received?
    ensures r.body.Listed? <==> response.Ok?
    ensures response.Ok? ==> |r.body.items| == |response.contests|
    ensures response.Ok? ==>
      forall k :: 0 <= k < |r.body.items| ==> r.body.items[k] == OnWire(response.contests[k])
  {
    match response
    case Ok(contests) =>
      var items := Map(contests, OnWire);
      forall k | 0 <= k < |items|
        ensures items[k] == OnWire(contests[k])
      {
        MapAt(contests, OnWire, k);
      }
      Received(Listed(items))
    case ServerError(_, _) => Received(NotAList)
  }

  /**
   * The page compares the start it receives, already moved on by the
   * 5 h 30 min offset, with its own clock: a listing is announced exactly
   * when its original start lies between 5 h 30 min and 4 h 30 min before
   * `now`, so no listing that is still upcoming is ever announced.
   */
  lemma ShiftedStartDue(e: Classifier.Entry, now: int)
    ensures ShouldNotify(OnWire(Aggregator.ToIst(e)).start, now) <==>
      now - Aggregator.IST_OFFSET_MS < e.start <= now - Aggregator.IST_OFFSET_MS + NOTIFY_WINDOW_MS
    ensures e.start > now ==> !ShouldNotify(OnWire(Aggregator.ToIst(e)).start, now)
  {
  }

  /** The storage after the answer to the confirmation prompt for contest `id`. */
  function Record(storage: map<string, string>, id: int, confirmed: bool): map<string, string> {
    storage[Key(id) := if confirmed then "yes" else "no"]
  }

  /** `if (pendingRegistration)`: an id of 0 is falsy, like no id at all. */
  predicate IsPending(pending: Option<int>) {
    pending.Some? && pending.value != 0
  }

  /** Distinct contests have distinct storage keys. */
  lemma KeyInjective(a: int, b: int)
    requires Key(a) == Key(b)
    ensures a == b
  {
    assert IntToString(a) == Key(a)[|"contest_"|..];
    assert IntToString(b) == Key(b)[|"contest_"|..];
    IntToStringInjective(a, b);
  }

  /** The three badge states, each tied to the stored value. */
  lemma StatusCases(storage: map<string, string>, id: int)
    ensures StatusOf(storage, id) == Registered <==> Key(id) in storage && storage[Key(id)] == "yes"
    ensures StatusOf(storage, id) == NotRegistered <==> Key(id) in storage && storage[Key(id)] == "no"
    ensures StatusOf(storage, id) == Upcoming <==>
      Key(id) !in storage || (storage[Key(id)] != "yes" && storage[Key(id)] != "no")
  {
  }

  /** Answering for one contest sets its badge and leaves every other contest's badge alone. */
  lemma RecordStatus(storage: map<string, string>, pending: int, confirmed: bool, id: int)
    ensures StatusOf(Record(storage, pending, confirmed), id) ==
      if id == pending then (if confirmed then Registered else NotRegistered)
      else StatusOf(storage, id)
  {
    if id != pending && Key(id) == Key(pending) {
      KeyInjective(id, pending);
    }
  }

  /** With "All" the view holds every fetched contest, as often as it was fetched. */
  lemma VisibleAll(contests: seq<Contest>)
    ensures multiset(Visible(contests, "All")) == multiset(contests)
  {
    var kept := Filter(contests, Chosen("All"));
    assert forall x :: multiset(kept)[x] == multiset(contests)[x];
  }

  /** With a platform filter the view holds exactly the fetched contests of that platform. */
  lemma VisiblePlatform(contests: seq<Contest>, filter: string, c: Contest)
    requires filter != "All"
    ensures c in Visible(contests, filter) <==> c in contests && c.platform == filter
  {
    var kept := Filter(contests, Chosen(filter));
    var view := Visible(contests, filter);
    assert c in view <==> c in multiset(view);
    assert c in kept <==> c in multiset(kept);
    assert c in contests <==> c in multiset(contests);
  }

  /** The empty-list state appears exactly when no contest passes the filter, and then nothing is announced. */
  lemma DisplayEmpty(contests: seq<Contest>, filter: string, storage: map<string, string>, now: int)
    ensures Display(contests, filter, storage, now).screen == NoContests <==>
      forall c :: c in contests ==> !Chosen(filter)(c)
    ensures Display(contests, filter, storage, now).screen == NoContests ==>
      Display(contests, filter, storage, now).notified == []
  {
    var kept := Filter(contests, Chosen(filter));
    var view := Visible(contests, filter);
    if |view| == 0 {
      assert |multiset(kept)| == 0;
      forall c | c in contests
        ensures !Chosen(filter)(c)
      {
        assert multiset(kept)[c] == 0;
      }
    } else {
      assert view[0] in multiset(kept);
      assert view[0] in kept;
    }
  }

  /** Card `k` shows contest `k` of the view, with the badge its stored answer gives. */
  lemma DisplayCard(contests: seq<Contest>, filter: string, storage: map<string, string>, now: int, k: int)
    requires Display(contests, filter, storage, now).screen.Cards?
    requires 0 <= k < |Visible(contests, filter)|
    ensures var cards := Display(contests, filter, storage, now).screen.cards;
      var c := Visible(contests, filter)[k];
      |cards| == |Visible(contests, filter)| &&
      cards[k] == Card(c.platform, StatusOf(storage, c.id), c.event, c.start, c.href)
  {
    MapAt(Visible(contests, filter), CardMaker(storage), k);
  }

  /** A shown contest is announced exactly when it starts within the next hour. */
  lemma DisplayNotifies(contests: seq<Contest>, filter: string, storage: map<string, string>, now: int, c: Contest)
    ensures c in Display(contests, filter, storage, now).notified <==>
      c in Visible(contests, filter) && 0 < c.start - now <= 3_600_000
  {
    var view := Visible(contests, filter);
    if |view| > 0 && c in view && Due(now)(c) {
      var fired := Filter(view, Due(now));
      assert multiset(view)[c] > 0;
      assert multiset(fired)[c] > 0;
    }
  }

  /** A page holding one contest, unfiltered, shows its card alone and announces it only when it is due. */
  lemma DisplaySingle(c: Contest, storage: map<string, string>, now: int)
    ensures Display([c], "All", storage, now) ==
      Render(Cards([CardOf(c, storage)]), if ShouldNotify(c.start, now) then [c] else [])
  {
    var view := Visible([c], "All");
    assert Filter([c], Chosen("All")) == [c];
    assert |multiset(view)| == 1;
    assert view[0] in multiset(view);
    assert view == [c];
    assert [c][1..] == [];
    assert Map(view, CardMaker(storage)) == [CardOf(c, storage)];
    assert Filter([c], Due(now)) == if ShouldNotify(c.start, now) then [c] else [];
  }

  /** Thirty minutes ahead is announced; ninety minutes ahead and one minute ago are not. */
  lemma NotifyExamples(now: int)
    ensures ShouldNotify(now + 30 * 60 * 1000, now)
    ensures !ShouldNotify(now + 90 * 60 * 1000, now)
    ensures !ShouldNotify(now - 60 * 1000, now)
    ensures ShouldNotify(now + NOTIFY_WINDOW_MS, now) && !ShouldNotify(now, now)
  {
  }

  /** The `forEach` over the view: one card per contest, and a notification for each one due. */
  method BuildCards(view: seq<Contest>, storage: map<string, string>, now: int)
    returns (cards: seq<Card>, notified: seq<Contest>)
    ensures cards == Map(view, CardMaker(storage))
    ensures notified == Filter(view, Due(now))
  {
    cards, notified := [], [];
    var i := 0;
    while i < |view|
      invariant 0 <= i <= |view|
      invariant cards == Map(view[..i], CardMaker(storage))
      invariant notified == Filter(view[..i], Due(now))
    {
      var c := view[i];
      PrefixStep(view, i, Due(now), CardMaker(storage));
      if ShouldNotify(c.start, now) {
        notified := notified + [c];
      }
      cards := cards + [CardOf(c, storage)];
      i := i + 1;
    }
    assert view[..i] == view;
  }

  /** The page state: the globals `allContests`, `currentFilter`, `pendingRegistration` and `localStorage`. */
  class Page {
    var contests: Payload
    var currentFilter: string
    var pending: Option<int>
    var storage: map<string, string>

    /** Page load: nothing fetched, filter "All", nothing pending; storage survives from earlier visits. */
    constructor (saved: map<string, string>)
      ensures contests == Listed([]) && currentFilter == "All" && pending == None && storage == saved
    {
      contests := Listed([]);
      currentFilter := "All";
      pending := None;
      storage := saved;
    }

    /**
     * `displayContests`: filters and sorts, then builds one card per contest
     * and fires the notifications; a non-array leaves the page blank.
     */
    method DisplayContests(now: int) returns (out: Render)
      ensures out == Draw(contests, currentFilter, storage, now)
    {
      if contests.NotAList? {
        return Render(Blank, []);
      }
      var view := Visible(contests.items, currentFilter);
      if |view| == 0 {
        return Render(NoContests, []);
      }
      var cards, notified := BuildCards(view, storage, now);
      out := Render(Cards(cards), notified);
    }

    /**
     * `fetchContests`: any parsed body replaces `allContests`, a list or not;
     * a list is drawn, while a non-array makes the redraw throw and the
     * catch shows the error. A fetch or parse that threw leaves the state alone.
     */
    method OnFetch(response: Fetched, now: int) returns (out: Render)
      modifies this
      ensures contests == if response.Received? then response.body else old(contests)
      ensures currentFilter == old(currentFilter) && pending == old(pending) && storage == old(storage)
      ensures out == if response.Received? && response.body.Listed?
                     then Display(response.body.items, currentFilter, storage, now)
                     else Render(BackendError, [])
    {
      match response
      case Failed =>
        out := Render(BackendError, []);
      case Received(body) =>
        contests := body;
        var drawn := DisplayContests(now);
        out := if drawn.screen == Blank then Render(BackendError, []) else drawn;
    }

    /** A filter button: sets the filter to the button's platform and redraws. */
    method OnFilterClick(platform: string, now: int) returns (out: Render)
      modifies this
      ensures currentFilter == platform
      ensures contests == old(contests) && pending == old(pending) && storage == old(storage)
      ensures out == Draw(contests, platform, storage, now)
    {
      currentFilter := platform;
      out := DisplayContests(now);
    }

    /** A card's register link: remembers the contest, replacing any earlier one, and opens its link. */
    method OnRegisterClick(c: Contest) returns (url: string)
      modifies this
      ensures pending == Some(c.id)
      ensures contests == old(contests) && currentFilter == old(currentFilter) && storage == old(storage)
      ensures url == c.href
    {
      pending := Some(c.id);
      url := c.href;
    }

    /**
     * Window focus: with a registration pending, the answer to the prompt is
     * stored for that contest, the marker is cleared and the page redrawn;
     * otherwise nothing happens and nothing is drawn.
     */
    method OnFocus(confirmed: bool, now: int) returns (out: Option<Render>)
      modifies this
      ensures old(IsPending(pending)) ==>
        storage == Record(old(storage), old(pending).value, confirmed) && pending == None &&
        out == Some(Draw(contests, currentFilter, storage, now))
      ensures !old(IsPending(pending)) ==>
        storage == old(storage) && pending == old(pending) && out == None
      ensures contests == old(contests) && currentFilter == old(currentFilter)
    {
      if IsPending(pending) {
        var id := pending.value;
        storage := Record(storage, id, confirmed);
        pending := None;
        var r := DisplayContests(now);
        out := Some(r);
      } else {
        out := None;
      }
    }
  }

  /**
   * A contest is fetched and drawn, its register link clicked and the prompt
   * answered: that contest's badge is the one the answer names.
   */
  method RegisterThenFocus(saved: map<string, string>, c: Contest, confirmed: bool, now: int)
    returns (status: Status, before: Status, shown: Render)
    requires c.id != 0
    ensures before == StatusOf(saved, c.id)
    ensures shown == Render(Cards([CardOf(c, saved)]), if ShouldNotify(c.start, now) then [c] else [])
    ensures status == if confirmed then Registered else NotRegistered
  {
    var page := new Page(saved);
    before := StatusOf(page.storage, c.id);
    shown := page.OnFetch(Received(Listed([c])), now);
    DisplaySingle(c, saved, now);
    var _ := page.OnRegisterClick(c);
    var _ := page.OnFocus(confirmed, now);
    RecordStatus(saved, c.id, confirmed, c.id);
    status := StatusOf(page.storage, c.id);
  }

  /**
   * A contest is drawn and its register link clicked; then the backend's 500
   * replaces the list with its error body. The fetch shows the error, a
   * filter click and the answered prompt leave the page blank (the answer
   * is still stored), and only the next list heals it.
   */
  method ServerErrorBlanksPage(saved: map<string, string>, c: Contest, platform: string,
                               confirmed: bool, next: seq<Aggregator.Contest>, now: int)
    returns (fetched: Render, filtered: Render, focused: Option<Render>, healed: Render)
    requires c.id != 0
    ensures fetched == Render(BackendError, [])
    ensures filtered == Render(Blank, [])
    ensures focused == Some(Render(Blank, []))
    ensures healed == Display(Map(next, OnWire), platform, Record(saved, c.id, confirmed), now)
  {
    var page := new Page(saved);
    var _ := page.OnFetch(Received(Listed([c])), now);
    var _ := page.OnRegisterClick(c);
    fetched := page.OnFetch(Receive(Aggregator.ServerError(500, "Failed to fetch contests")), now);
    filtered := page.OnFilterClick(platform, now);
    focused := page.OnFocus(confirmed, now);
    healed := page.OnFetch(Receive(Aggregator.Ok(next)), now);
  }
}
