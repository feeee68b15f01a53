/**
 Cursor paging of a conversation's messages: the page contract (app/conversations/models.py),
 the defensive service (app/conversations/service.py), the repository's query
 (app/persistence/conversation_repository.py) and whole walks along `next_after_sequence`.
 */
module CursorPaging {
  import opened Prelude

  const MAX_PAGE := 100

  datatype Message = Message(id: string, owner: string, conversation: string, sequence: int, content: string, hidden: bool)

  datatype View = View(id: string, conversation: string, sequence: int, content: string)

  datatype Query = Query(owner: string, conversation: string, limit: int, after: int)

  /** What a repository call did; a list is taken as it comes, ordered or not. */
  datatype Reply = Failed | NotAList | NotFound | Found(messages: seq<Message>, hasMore: bool)

  datatype Page = Page(items: seq<View>, limit: int, after: int, hasMore: bool, next: Option<int>)

  datatype ServiceError = RequestInvalid | ConversationNotFound | ServiceUnavailable

  datatype Result<+T> = Ok(value: T) | Err(error: ServiceError)

  /** A repository's behaviour may change from call to call. */
  type Repository = (nat, Query) -> Reply

  predicate ValidQuery(q: Query) {
    1 <= q.limit <= MAX_PAGE && q.after >= 0
  }

  predicate Increasing(items: seq<View>) {
    forall i, j :: 0 <= i < j < |items| ==> items[i].sequence < items[j].sequence
  }

  /** `ConversationMessagePage.validate_shape`, with the bounds of its fields. */
  predicate ValidPage(p: Page) {
    && 1 <= p.limit <= MAX_PAGE && p.after >= 0 && (p.next.Some? ==> p.next.value >= 1)
    && |p.items| <= p.limit
    && (forall i :: 0 <= i < |p.items| ==> p.items[i].sequence > p.after)
    && Increasing(p.items)
    && p.next == NextCursor(p.items, p.hasMore)
    && (p.hasMore ==> |p.items| == p.limit)
  }

  function NextCursor(items: seq<View>, hasMore: bool): Option<int> {
    if hasMore && items != [] then Some(items[|items| - 1].sequence) else None
  }

  predicate InScope(q: Query, m: Message) {
    m.owner == q.owner && m.conversation == q.conversation && m.sequence > q.after
  }

  function ToView(m: Message): View {
    View(m.id, m.conversation, m.sequence, m.content)
  }

  function Views(messages: seq<Message>): seq<View> {
    seq(|messages|, i requires 0 <= i < |messages| => ToView(messages[i]))
  }

  function PageOf(q: Query, messages: seq<Message>, hasMore: bool): Page {
    Page(Views(messages), q.limit, q.after, hasMore, NextCursor(Views(messages), hasMore))
  }

  /** `list_messages` of the service, given the repository's reply. */
  function ListMessages(q: Query, reply: Reply): Result<Page> {
    if !ValidOwner(q.owner) then Err(ConversationNotFound)
    else if !ValidQuery(q) then Err(RequestInvalid)
    else match reply
      case Failed => Err(ServiceUnavailable)
      case NotAList => Err(ServiceUnavailable)
      case NotFound => Err(ConversationNotFound)
      case Found(messages, hasMore) =>
        if |messages| > q.limit || exists i :: 0 <= i < |messages| && !InScope(q, messages[i]) then Err(ServiceUnavailable)
        else if exists i :: 0 <= i < |messages| && messages[i].hidden then Err(ServiceUnavailable)
        else
          var page := PageOf(q, messages, hasMore);
          if ValidPage(page) then Ok(page) else Err(ServiceUnavailable)
  }

  /** What the service lets through: exactly the visible, ordered, in-scope and honestly full pages. */
  predicate Acceptable(q: Query, reply: Reply) {
    && ValidOwner(q.owner) && ValidQuery(q) && reply.Found?
    && |reply.messages| <= q.limit && (reply.hasMore ==> |reply.messages| == q.limit)
    && (forall i :: 0 <= i < |reply.messages| ==> InScope(q, reply.messages[i]) && !reply.messages[i].hidden)
    && forall i, j :: 0 <= i < j < |reply.messages| ==> reply.messages[i].sequence < reply.messages[j].sequence
  }

  lemma {:induction false} AcceptedIff(q: Query, reply: Reply)
    ensures ListMessages(q, reply).Ok? <==> Acceptable(q, reply)
    ensures ListMessages(q, reply).Ok? ==>
      var p := ListMessages(q, reply).value;
      ValidPage(p) && p == PageOf(q, reply.messages, reply.hasMore) && (p.hasMore <==> p.next.Some?)
  {
    if Acceptable(q, reply) {
      var items := Views(reply.messages);
      assert forall i :: 0 <= i < |items| ==> items[i].sequence == reply.messages[i].sequence;
      assert ValidPage(PageOf(q, reply.messages, reply.hasMore));
    } else if ListMessages(q, reply).Ok? {
      var items := Views(reply.messages);
      forall i, j | 0 <= i < j < |items| ensures reply.messages[i].sequence < reply.messages[j].sequence {
        assert items[i].sequence < items[j].sequence;
      }
    }
  }

  /** The page shows each message of the reply in its place, without its owner and its hidden flag. */
  predicate ShowsReply(q: Query, messages: seq<Message>, hasMore: bool, p: Page) {
    && |p.items| == |messages| && p.limit == q.limit && p.after == q.after && p.hasMore == hasMore
    && (forall i :: 0 <= i < |messages| ==>
          && p.items[i].id == messages[i].id && p.items[i].conversation == messages[i].conversation
          && p.items[i].sequence == messages[i].sequence && p.items[i].content == messages[i].content)
    && (hasMore ==> messages != [] && p.next == Some(messages[|messages| - 1].sequence))
    && (!hasMore ==> p.next.None?)
  }

  lemma {:induction false} PageShowsReply(q: Query, reply: Reply)
    requires ListMessages(q, reply).Ok?
    ensures reply.Found? && ShowsReply(q, reply.messages, reply.hasMore, ListMessages(q, reply).value)
  {
    AcceptedIff(q, reply);
  }

  /**
   Which error a call ends in: an owner that cannot exist and an unknown conversation look
   alike, then the caller's bounds are checked, and everything else is the repository's fault.
   */
  lemma {:induction false} ErrorMeans(q: Query, reply: Reply)
    ensures var r := ListMessages(q, reply); var asked := 1 <= q.limit <= 100 && 0 <= q.after;
      && (r == Err(ConversationNotFound) <==> !ValidOwner(q.owner) || (asked && reply.NotFound?))
      && (r == Err(RequestInvalid) <==> ValidOwner(q.owner) && !asked)
      && (r == Err(ServiceUnavailable) <==> ValidOwner(q.owner) && asked && !reply.NotFound? && !Acceptable(q, reply))
  {
    AcceptedIff(q, reply);
  }

  // ----- walks -----

  /** The pages so far, and the cursor to go on from. */
  datatype Walk = Walk(pages: seq<Page>, next: Option<int>, error: Option<ServiceError>)

  /** A client's first n calls, each from the cursor of the page before. */
  function WalkFor(repo: Repository, q: Query, n: nat): Walk {
    if n == 0 then Walk([], Some(q.after), None)
    else
      var w := WalkFor(repo, q, n - 1);
      if w.next.None? then w else Turn(w, q.(after := w.next.value), repo(n - 1, q.(after := w.next.value)))
  }

  function Turn(w: Walk, q: Query, reply: Reply): Walk {
    match ListMessages(q, reply)
    case Err(e) => Walk(w.pages, None, Some(e))
    case Ok(page) => Walk(w.pages + [page], page.next, None)
  }

  function Items(pages: seq<Page>): seq<View> {
    if pages == [] then [] else Items(pages[..|pages| - 1]) + pages[|pages| - 1].items
  }

  /** Past `cursor` nothing was delivered yet; everything delivered ascends strictly from `after`. */
  predicate Ascending(items: seq<View>, after: int, cursor: int) {
    Increasing(items) && forall i :: 0 <= i < |items| ==> after < items[i].sequence <= cursor
  }

  predicate Reached(w: Walk, q: Query) {
    && (forall i :: 0 <= i < |w.pages| - 1 ==> |w.pages[i].items| == q.limit)
    && (forall i :: 0 <= i < |w.pages| ==> ValidPage(w.pages[i]) && w.pages[i].limit == q.limit)
    && (w.next.Some? ==>
          && w.next.value >= q.after + q.limit * |w.pages|
          && |Items(w.pages)| == q.limit * |w.pages|
          && Ascending(Items(w.pages), q.after, w.next.value))
    && Increasing(Items(w.pages))
    && forall i :: 0 <= i < |Items(w.pages)| ==> Items(w.pages)[i].sequence > q.after
  }

  /**
   Whatever the repository does: sequence numbers ascend strictly over the whole walk, every
   page but the last is full, and the cursor advances by at least `limit` at each step.
   */
  lemma {:induction false} WalkAscends(repo: Repository, q: Query, n: nat)
    requires ValidQuery(q)
    ensures Reached(WalkFor(repo, q, n), q)
  {
    if n > 0 {
      WalkAscends(repo, q, n - 1);
      var w := WalkFor(repo, q, n - 1);
      if w.next.Some? {
        var turned := q.(after := w.next.value);
        AcceptedIff(turned, repo(n - 1, turned));
        TurnReaches(w, q, repo(n - 1, turned));
      }
    }
  }

  lemma {:induction false} TurnReaches(w: Walk, q: Query, reply: Reply)
    requires ValidQuery(q) && Reached(w, q) && w.next.Some?
    ensures Reached(Turn(w, q.(after := w.next.value), reply), q)
  {
    var turned := q.(after := w.next.value);
    AcceptedIff(turned, reply);
    if ListMessages(turned, reply).Ok? {
      PageReaches(w, q, ListMessages(turned, reply).value);
    }
  }

  lemma {:induction false} PageReaches(w: Walk, q: Query, page: Page)
    requires ValidQuery(q) && Reached(w, q) && w.next.Some? && ValidPage(page)
    requires page.limit == q.limit && page.after == w.next.value
    ensures Reached(Walk(w.pages + [page], page.next, None), q)
  {
    AppendPage(w.pages, page);
    PagesFull(w, q);
    AscendingConcat(Items(w.pages), page.items, q.after, w.next.value);
    if page.next.Some? {
      SpreadOut(page.items, page.after);
      Climb(q.limit, |w.pages|);
    }
  }

  lemma {:induction false} Climb(limit: int, n: nat)
    ensures limit * n + limit == limit * (n + 1)
  {
  }

  lemma {:induction false} AppendPage(pages: seq<Page>, page: Page)
    ensures Items(pages + [page]) == Items(pages) + page.items
  {
    assert (pages + [page])[..|pages|] == pages;
  }

  /** While a walk can go on, its last page was full too. */
  lemma {:induction false} PagesFull(w: Walk, q: Query)
    requires Reached(w, q) && w.next.Some? && q.limit >= 0
    ensures forall i :: 0 <= i < |w.pages| ==> |w.pages[i].items| == q.limit
  {
    var n := |w.pages|;
    if n > 0 {
      ItemCount(w.pages[..n - 1], q.limit);
      Climb(q.limit, n - 1);
      assert |Items(w.pages)| == q.limit * (n - 1) + |w.pages[n - 1].items|;
    }
  }

  lemma {:induction false} ItemCount(pages: seq<Page>, limit: int)
    requires forall i :: 0 <= i < |pages| ==> |pages[i].items| == limit
    ensures |Items(pages)| == limit * |pages|
  {
    if pages != [] {
      var n := |pages| - 1;
      ItemCount(pages[..n], limit);
      Climb(limit, n);
      assert |Items(pages)| == |Items(pages[..n])| + |pages[n].items|;
    }
  }

  /** Distinct ascending integers climb by at least one each. */
  lemma {:induction false} SpreadOut(items: seq<View>, after: int)
    requires Increasing(items) && forall i :: 0 <= i < |items| ==> items[i].sequence > after
    ensures items != [] ==> items[|items| - 1].sequence >= after + |items|
  {
    if |items| > 1 {
      SpreadOut(items[..|items| - 1], after);
    }
  }

  lemma {:induction false} AscendingConcat(a: seq<View>, b: seq<View>, after: int, cursor: int)
    requires Ascending(a, after, cursor) && after <= cursor
    requires Increasing(b) && forall i :: 0 <= i < |b| ==> b[i].sequence > cursor
    ensures Increasing(a + b) && forall i :: 0 <= i < |a + b| ==> (a + b)[i].sequence > after
    ensures b != [] ==> Ascending(a + b, after, b[|b| - 1].sequence)
  {
  }

  // ----- the repository's own query -----

  predicate Matches(m: Message, q: Query) {
    m.owner == q.owner && m.conversation == q.conversation && !m.hidden && m.sequence > q.after
  }

  /** The matching rows of a table read in ascending sequence order. */
  function Candidates(rows: seq<Message>, q: Query): seq<Message> {
    if rows == [] then []
    else
      var n := |rows| - 1;
      if Matches(rows[n], q) then Candidates(rows[..n], q) + [rows[n]] else Candidates(rows[..n], q)
  }

  /** `list_messages` of the repository: one row more than the limit is fetched. */
  function QueryMessages(rows: seq<Message>, q: Query): Reply {
    if !ValidOwner(q.owner) || !ValidQuery(q) then Failed
    else
      var candidates := Candidates(rows, q);
      var fetched := candidates[..Min(q.limit + 1, |candidates|)];
      Found(fetched[..Min(q.limit, |fetched|)], |fetched| > q.limit)
  }

  /** A conversation numbers its messages once each, and the table is read in that order. */
  predicate Ordered(rows: seq<Message>, q: Query) {
    forall i, j :: 0 <= i < j < |rows| && Matches(rows[i], q) && Matches(rows[j], q) ==> rows[i].sequence < rows[j].sequence
  }

  predicate AscendingMessages(messages: seq<Message>) {
    forall i, j :: 0 <= i < j < |messages| ==> messages[i].sequence < messages[j].sequence
  }

  lemma {:induction false} CandidatesMatch(rows: seq<Message>, q: Query)
    requires Ordered(rows, q)
    ensures forall i :: 0 <= i < |Candidates(rows, q)| ==> Matches(Candidates(rows, q)[i], q) && Candidates(rows, q)[i] in rows
    ensures AscendingMessages(Candidates(rows, q))
  {
    if rows != [] {
      CandidatesMatch(rows[..|rows| - 1], q);
    }
  }

  /** A visible message of the asked conversation and owner, past the cursor. */
  predicate Asked(m: Message, q: Query) {
    m.owner == q.owner && m.conversation == q.conversation && m.sequence > q.after && !m.hidden
  }

  /** The chosen messages are all rows asked for, at increasing positions. */
  predicate AllAsked(rows: seq<Message>, q: Query, chosen: seq<Message>, places: seq<nat>) {
    && |places| == |chosen| && (forall a, b :: 0 <= a < b < |places| ==> places[a] < places[b])
    && (forall k :: 0 <= k < |places| ==> places[k] < |rows| && rows[places[k]] == chosen[k])
    && forall i: nat :: i < |rows| ==> (i in places <==> Asked(rows[i], q))
  }

  /** The candidates of a query are exactly the rows asked for, in the order of the table. */
  lemma {:induction false} CandidatesAreAsked(rows: seq<Message>, q: Query) returns (places: seq<nat>)
    ensures AllAsked(rows, q, Candidates(rows, q), places)
  {
    places := [];
    if rows != [] {
      var n := |rows| - 1;
      places := CandidatesAreAsked(rows[..n], q);
      var before := places;
      assert forall k :: 0 <= k < |before| ==> rows[before[k]] == rows[..n][before[k]];
      if Matches(rows[n], q) {
        places := before + [n];
      }
      forall i: nat | i < |rows| ensures i in places <==> Asked(rows[i], q) {
        if i < n { assert rows[..n][i] == rows[i]; }
      }
    }
  }

  /** The cursor after the first m messages past `q.after`. */
  function CursorAt(history: seq<Message>, after: int, m: nat): int
    requires m <= |history|
  {
    if m == 0 then after else history[m - 1].sequence
  }

  lemma {:induction false} NothingPast(rows: seq<Message>, q: Query)
    requires forall i :: 0 <= i < |rows| ==> !Matches(rows[i], q)
    ensures Candidates(rows, q) == []
  {
    if rows != [] {
      NothingPast(rows[..|rows| - 1], q);
    }
  }

  /** Asking again from the cursor of the m-th message gives the rest. */
  lemma {:induction false} CursorDropsPrefix(rows: seq<Message>, q: Query, m: nat)
    requires Ordered(rows, q) && m <= |Candidates(rows, q)|
    ensures CursorAt(Candidates(rows, q), q.after, m) >= q.after
    ensures Candidates(rows, q.(after := CursorAt(Candidates(rows, q), q.after, m))) == Candidates(rows, q)[m..]
  {
    CandidatesMatch(rows, q);
    if rows != [] {
      var n := |rows| - 1;
      var turned := q.(after := CursorAt(Candidates(rows, q), q.after, m));
      if m <= |Candidates(rows[..n], q)| {
        CursorDropsPrefix(rows[..n], q, m);
        LastRowDropped(rows, q, turned, Candidates(rows[..n], q), Candidates(rows[..n], turned), m);
      } else {
        forall i | 0 <= i < |rows| ensures !Matches(rows[i], turned) {
          assert Matches(rows[i], turned) ==> Matches(rows[i], q);
        }
        NothingPast(rows, turned);
      }
    }
  }

  lemma {:induction false} LastRowDropped(rows: seq<Message>, q: Query, turned: Query, front: seq<Message>,
                                          rest: seq<Message>, m: nat)
    requires rows != [] && m <= |front| && AscendingMessages(Candidates(rows, q))
    requires front == Candidates(rows[..|rows| - 1], q) && rest == Candidates(rows[..|rows| - 1], turned)
    requires turned == q.(after := CursorAt(front, q.after, m)) && q.after <= turned.after && rest == front[m..]
    ensures Candidates(rows, turned) == Candidates(rows, q)[m..]
  {
    var last := rows[|rows| - 1];
    if Matches(last, q) && m > 0 {
      assert Candidates(rows, q)[m - 1].sequence < Candidates(rows, q)[|front|].sequence;
    }
  }

  // ----- walks over the repository's own query -----

  /** The table as it is at each call. */
  type Tables = nat -> seq<Message>

  function Honest(tables: Tables): Repository {
    (n: nat, q: Query) => QueryMessages(tables(n), q)
  }

  function History(tables: Tables, q: Query, n: nat): seq<Message> {
    Candidates(tables(n), q)
  }

  /** Between calls messages may be appended, none hidden. */
  ghost predicate Growing(tables: Tables, q: Query) {
    forall n: nat :: GrowsAt(tables, q, n)
  }

  predicate GrowsAt(tables: Tables, q: Query, n: nat) {
    Ordered(tables(n), q) && History(tables, q, n) <= History(tables, q, n + 1)
  }

  /** The first m messages of the history were delivered, and the cursor stands there. */
  predicate DeliveredTo(w: Walk, history: seq<Message>, after: int, m: nat) {
    && m <= |history| && w.error.None? && w.next == Some(CursorAt(history, after, m))
    && Items(w.pages) == Views(history[..m])
  }

  predicate DeliveredAll(w: Walk, history: seq<Message>) {
    w.error.None? && w.next.None? && Items(w.pages) == Views(history)
  }

  lemma {:induction false} ViewsConcat(a: seq<Message>, b: seq<Message>)
    ensures Views(a + b) == Views(a) + Views(b)
  {
  }

  lemma {:induction false} FirstOfRest(history: seq<Message>, m: nat, limit: nat)
    requires m <= |history|
    ensures history[m..][..Min(limit, |history[m..]|)] == history[m..m + Min(limit, |history| - m)]
  {
  }

  /** The query's reply from the m-th message on is a page the service accepts. */
  lemma {:induction false} QueryAccepted(rows: seq<Message>, q: Query, m: nat)
    requires ValidOwner(q.owner) && ValidQuery(q) && Ordered(rows, q) && m <= |Candidates(rows, q)|
    ensures var history := Candidates(rows, q);
      var turned := q.(after := CursorAt(history, q.after, m));
      var taken := history[m..m + Min(q.limit, |history| - m)];
      ListMessages(turned, QueryMessages(rows, turned)) == Ok(PageOf(turned, taken, |history| > m + q.limit))
  {
    var history := Candidates(rows, q);
    var turned := q.(after := CursorAt(history, q.after, m));
    CursorDropsPrefix(rows, q, m);
    LaterOrdered(rows, q, turned);
    FirstPageAccepted(rows, turned);
    FirstOfRest(history, m, q.limit);
  }

  /** The query's reply, in terms of the candidates, is a page the service accepts. */
  lemma {:induction false} FirstPageAccepted(rows: seq<Message>, q: Query)
    requires ValidOwner(q.owner) && ValidQuery(q) && Ordered(rows, q)
    ensures var rest := Candidates(rows, q);
      ListMessages(q, QueryMessages(rows, q)) == Ok(PageOf(q, rest[..Min(q.limit, |rest|)], |rest| > q.limit))
  {
    var rest := Candidates(rows, q);
    CandidatesMatch(rows, q);
    Fetched(rest, q.limit);
    FoundAccepted(q, rest[..Min(q.limit, |rest|)], |rest| > q.limit);
  }

  /** One row more than the limit tells whether there are more, and is cut off again. */
  lemma {:induction false} Fetched(rest: seq<Message>, limit: nat)
    ensures var fetched := rest[..Min(limit + 1, |rest|)];
      fetched[..Min(limit, |fetched|)] == rest[..Min(limit, |rest|)] && (|fetched| > limit <==> |rest| > limit)
  {
  }

  /** A reply of the first matching messages in order is accepted as it is. */
  lemma {:induction false} FoundAccepted(q: Query, taken: seq<Message>, hasMore: bool)
    requires ValidOwner(q.owner) && ValidQuery(q) && |taken| <= q.limit && (hasMore ==> |taken| == q.limit)
    requires AscendingMessages(taken) && forall i :: 0 <= i < |taken| ==> Matches(taken[i], q)
    ensures ListMessages(q, Found(taken, hasMore)) == Ok(PageOf(q, taken, hasMore))
  {
    AcceptedIff(q, Found(taken, hasMore));
  }

  /** One call of the walk, from the m-th message. */
  lemma {:induction false} HonestTurn(w: Walk, rows: seq<Message>, q: Query, m: nat)
    requires ValidOwner(q.owner) && ValidQuery(q) && Ordered(rows, q)
    requires DeliveredTo(w, Candidates(rows, q), q.after, m)
    ensures var history := Candidates(rows, q);
      var turned := q.(after := w.next.value);
      var w' := Turn(w, turned, QueryMessages(rows, turned));
      if |history| > m + q.limit then DeliveredTo(w', history, q.after, m + q.limit) else DeliveredAll(w', history)
  {
    QueryAccepted(rows, q, m);
    PageDelivered(w, Candidates(rows, q), q, m, Min(q.limit, |Candidates(rows, q)| - m));
  }

  lemma {:induction false} PageDelivered(w: Walk, history: seq<Message>, q: Query, m: nat, k: nat)
    requires ValidQuery(q) && DeliveredTo(w, history, q.after, m) && k == Min(q.limit, |history| - m)
    ensures var page := PageOf(q.(after := w.next.value), history[m..m + k], |history| > m + q.limit);
      var w' := Walk(w.pages + [page], page.next, None);
      if |history| > m + q.limit then DeliveredTo(w', history, q.after, m + q.limit) else DeliveredAll(w', history)
  {
    var taken := history[m..m + k];
    var page := PageOf(q.(after := w.next.value), taken, |history| > m + q.limit);
    assert Items(w.pages + [page]) == Views(history[..m + k]) by {
      assert history[..m + k] == history[..m] + taken;
      ViewsConcat(history[..m], taken);
      AppendPage(w.pages, page);
    }
    if |history| > m + q.limit {
      assert taken[k - 1] == history[m + k - 1];
    } else {
      assert history[..m + k] == history;
    }
  }

  ghost predicate FinishedAt(w: Walk, tables: Tables, q: Query, n: nat) {
    exists j: nat :: j < n && DeliveredAll(w, History(tables, q, j))
  }

  /** How a walk stands after n calls. */
  ghost predicate WalkStands(w: Walk, tables: Tables, q: Query, n: nat) {
    if w.next.Some? then
      && q.limit * n >= 0 && DeliveredTo(w, History(tables, q, n), q.after, q.limit * n)
      && (n > 0 ==> q.limit * n < |History(tables, q, n - 1)|)
    else FinishedAt(w, tables, q, n)
  }

  lemma {:induction false} StillFinished(w: Walk, tables: Tables, q: Query, n: nat)
    requires FinishedAt(w, tables, q, n)
    ensures FinishedAt(w, tables, q, n + 1)
  {
    var j: nat :| j < n && DeliveredAll(w, History(tables, q, j));
    assert DeliveredAll(w, History(tables, q, j));
  }

  lemma {:induction false} HistoryGrew(w: Walk, h: seq<Message>, grown: seq<Message>, after: int, m: nat)
    requires h <= grown && DeliveredTo(w, h, after, m)
    ensures DeliveredTo(w, grown, after, m)
  {
    assert grown[..m] == h[..m];
  }

  /** What one more call makes of the walk so far. */
  function Onward(w: Walk, tables: Tables, q: Query, n: nat): Walk {
    if w.next.None? then w
    else Turn(w, q.(after := w.next.value), QueryMessages(tables(n), q.(after := w.next.value)))
  }

  lemma {:induction false} CallStands(w: Walk, tables: Tables, q: Query, n: nat)
    requires ValidOwner(q.owner) && ValidQuery(q) && Growing(tables, q) && WalkStands(w, tables, q, n)
    ensures WalkStands(Onward(w, tables, q, n), tables, q, n + 1)
  {
    if w.next.Some? {
      WalkCall(w, tables, q, n);
    } else {
      StillFinished(w, tables, q, n);
    }
  }

  /**
   Over the repository's own query, with messages appended while the client walks, no call
   fails, nothing is skipped or repeated, and a finished walk delivered the whole history as
   it was at its last call.
   */
  lemma {:induction false} HonestWalk(tables: Tables, q: Query, n: nat)
    requires ValidOwner(q.owner) && ValidQuery(q) && Growing(tables, q)
    ensures WalkStands(WalkFor(Honest(tables), q, n), tables, q, n)
  {
    if n == 0 {
      assert History(tables, q, 0)[..0] == [];
    } else {
      HonestWalk(tables, q, n - 1);
      CallStands(WalkFor(Honest(tables), q, n - 1), tables, q, n - 1);
      OneMoreCall(tables, q, n);
    }
  }

  lemma {:induction false} OneMoreCall(tables: Tables, q: Query, n: nat)
    requires n > 0
    ensures WalkFor(Honest(tables), q, n) == Onward(WalkFor(Honest(tables), q, n - 1), tables, q, n - 1)
  {
  }

  lemma {:induction false} WalkCall(w: Walk, tables: Tables, q: Query, n: nat)
    requires ValidOwner(q.owner) && ValidQuery(q) && Growing(tables, q)
    requires w.next.Some? && WalkStands(w, tables, q, n)
    ensures var turned := q.(after := w.next.value);
      WalkStands(Turn(w, turned, QueryMessages(tables(n), turned)), tables, q, n + 1)
  {
    var history := History(tables, q, n);
    var turned := q.(after := w.next.value);
    assert GrowsAt(tables, q, n);
    HonestTurn(w, tables(n), q, q.limit * n);
    Climb(q.limit, n);
    var w' := Turn(w, turned, QueryMessages(tables(n), turned));
    if |history| > q.limit * n + q.limit {
      HistoryGrew(w', history, History(tables, q, n + 1), q.after, q.limit * (n + 1));
    } else {
      assert DeliveredAll(w', history);
    }
  }

  /** A walk over a table that stands still ends after one call per `limit` messages, with all of them. */
  lemma {:induction false} WalkIsComplete(rows: seq<Message>, q: Query, n: nat)
    requires ValidOwner(q.owner) && ValidQuery(q) && Ordered(rows, q)
    requires n >= 1 && q.limit * n >= |Candidates(rows, q)|
    ensures DeliveredAll(WalkFor(Honest(_ => rows), q, n), Candidates(rows, q))
  {
    HonestWalk(_ => rows, q, n);
  }

  // ----- walks while messages are appended and hidden -----

  lemma {:induction false} MatchingRowIsCandidate(rows: seq<Message>, q: Query, m: Message) returns (i: nat)
    requires m in rows && Matches(m, q)
    ensures i < |Candidates(rows, q)| && Candidates(rows, q)[i] == m
  {
    var n := |rows| - 1;
    if rows[n] == m {
      i := |Candidates(rows[..n], q)|;
    } else {
      assert rows == rows[..n] + [rows[n]];
      i := MatchingRowIsCandidate(rows[..n], q, m);
    }
  }

  predicate DeliveredOrAhead(w: Walk, m: Message) {
    || ToView(m) in Items(w.pages)
    || (w.next.Some? && m.sequence > w.next.value)
  }

  /** A call over a table that shows the message delivers it, or leaves it ahead of the cursor. */
  lemma {:induction false} CallSkipsNothing(w: Walk, rows: seq<Message>, q: Query, m: Message)
    requires ValidOwner(q.owner) && ValidQuery(q) && Ordered(rows, q)
    requires w.error.None? && w.next.Some? && w.next.value >= q.after
    requires m in rows && Matches(m, q) && DeliveredOrAhead(w, m)
    ensures var turned := q.(after := w.next.value);
      var w' := Turn(w, turned, QueryMessages(rows, turned));
      w'.error.None? && DeliveredOrAhead(w', m)
  {
    var turned := q.(after := w.next.value);
    LaterOrdered(rows, q, turned);
    QueryAccepted(rows, turned, 0);
    var rest := Candidates(rows, turned);
    CandidatesMatch(rows, turned);
    if m.sequence > turned.after {
      var i := MatchingRowIsCandidate(rows, turned, m);
      PageSkipsNothing(w, turned, rest, i);
    } else {
      AppendPage(w.pages, PageOf(turned, rest[0..0 + Min(q.limit, |rest|)], |rest| > q.limit));
    }
  }

  lemma {:induction false} LaterOrdered(rows: seq<Message>, q: Query, turned: Query)
    requires Ordered(rows, q) && turned == q.(after := turned.after) && turned.after >= q.after
    ensures Ordered(rows, turned)
  {
    forall i, j | 0 <= i < j < |rows| && Matches(rows[i], turned) && Matches(rows[j], turned)
      ensures rows[i].sequence < rows[j].sequence
    {
      assert Matches(rows[i], q) && Matches(rows[j], q);
    }
  }

  /** Of the messages past the cursor, a full page delivers the first ones and stands before the others. */
  lemma {:induction false} PageSkipsNothing(w: Walk, q: Query, rest: seq<Message>, i: nat)
    requires ValidQuery(q) && i < |rest| && AscendingMessages(rest)
    ensures var page := PageOf(q, rest[0..0 + Min(q.limit, |rest|)], |rest| > q.limit);
      DeliveredOrAhead(Walk(w.pages + [page], page.next, None), rest[i])
  {
    var taken := rest[0..0 + Min(q.limit, |rest|)];
    var page := PageOf(q, taken, |rest| > q.limit);
    AppendPage(w.pages, page);
    if i < |taken| {
      assert page.items[i] == ToView(rest[i]);
    } else {
      assert page.items[q.limit - 1] == ToView(rest[q.limit - 1]);
    }
  }

  predicate ShownAt(tables: Tables, q: Query, m: Message, k: nat) {
    Ordered(tables(k), q) && m in tables(k)
  }

  /** The walk goes on without an error, and the message is delivered or still to come. */
  predicate OnCourse(q: Query, m: Message, w: Walk) {
    w.error.None? && DeliveredOrAhead(w, m) && (w.next.Some? ==> w.next.value >= q.after)
  }

  lemma {:induction false} CallKeepsCourse(w: Walk, tables: Tables, q: Query, m: Message, n: nat)
    requires ValidOwner(q.owner) && ValidQuery(q) && Matches(m, q) && ShownAt(tables, q, m, n)
    requires OnCourse(q, m, w)
    ensures OnCourse(q, m, Onward(w, tables, q, n))
  {
    if w.next.Some? {
      var turned := q.(after := w.next.value);
      CallSkipsNothing(w, tables(n), q, m);
      AcceptedIff(turned, QueryMessages(tables(n), turned));
    }
  }

  /** What every call keeps holds of the whole walk. */
  lemma {:induction false} WalkInduction(tables: Tables, q: Query, keeps: Walk -> bool, n: nat)
    requires keeps(Walk([], Some(q.after), None))
    requires forall w: Walk, k: nat :: k < n && keeps(w) ==> keeps(Onward(w, tables, q, k))
    ensures keeps(WalkFor(Honest(tables), q, n))
  {
    if n > 0 {
      WalkInduction(tables, q, keeps, n - 1);
      OneMoreCall(tables, q, n);
    }
  }

  /**
   With messages appended and hidden at will between the calls, a walk never fails, and a
   message that was visible at every call is delivered or still ahead of the cursor; a walk
   that has ended has delivered it.
   */
  lemma {:induction false} WalkSkipsNothing(tables: Tables, q: Query, m: Message, n: nat)
    requires ValidOwner(q.owner) && ValidQuery(q) && Matches(m, q)
    requires forall k: nat :: k < n ==> ShownAt(tables, q, m, k)
    ensures OnCourse(q, m, WalkFor(Honest(tables), q, n))
  {
    var keeps := (w: Walk) => OnCourse(q, m, w);
    forall w: Walk, k: nat | k < n && keeps(w) ensures keeps(Onward(w, tables, q, k)) {
      assert ShownAt(tables, q, m, k);
      CallKeepsCourse(w, tables, q, m, k);
    }
    WalkInduction(tables, q, keeps, n);
  }
}
