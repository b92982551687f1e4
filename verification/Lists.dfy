/** The two list endpoints: filters, paging and the rows they return. */
module Lists {
  import opened Model
  import opened Ordering
  import opened Operations
  import opened Invariants
  import opened Tenancy

  datatype Resource = Conversations | Tickets {
    function Text(): string {
      match this case Conversations => "conversations" case Tickets => "tickets"
    }
  }

  /** A normalised list request. */
  datatype Query =
    | ConversationQuery(tenant: Id, status: string, agent: string, offset: nat, limit: nat)
    | TicketQuery(tenant: Id, status: string, priority: string, agent: string, offset: nat, limit: nat)
  {
    function Resource(): Resource {
      if ConversationQuery? then Conversations else Tickets
    }

    function At(newOffset: nat): Query {
      this.(offset := newOffset)
    }
  }

  function NormalizeOffset(offset: int): nat {
    if offset < 0 then 0 else offset
  }

  function NormalizeLimit(limit: int): nat {
    if limit <= 0 then 20 else if limit > 100 then 100 else limit
  }

  predicate Selects(filter: string, text: string) {
    filter == "" || filter == text
  }

  predicate SelectsAgent(filter: string, agent: Option<Id>) {
    filter == "" || agent == Some(filter)
  }

  function SelectedConversations(table: map<Id, Conversation>, tenant: Id, status: string, agent: string)
    : map<Id, nat>
  {
    map c | c in table && table[c].tenant == tenant && Selects(status, table[c].status.Text())
        && SelectsAgent(agent, table[c].agent)
      :: table[c].updatedAt
  }

  function SelectedTickets(table: map<Id, Ticket>, tenant: Id, status: string, priority: string, agent: string)
    : map<Id, nat>
  {
    map t | t in table && table[t].tenant == tenant && Selects(status, table[t].status.Text())
            && Selects(priority, table[t].priority.Text()) && SelectsAgent(agent, table[t].agent)
      :: table[t].updatedAt
  }

  /** The keys of the selected rows with the column the query sorts by. */
  function Selected(db: Db, q: Query): map<Id, nat> {
    match q
    case ConversationQuery(tenant, status, agent, _, _) =>
      SelectedConversations(db.conversations, tenant, status, agent)
    case TicketQuery(tenant, status, priority, agent, _, _) =>
      SelectedTickets(db.tickets, tenant, status, priority, agent)
  }

  /** A row with its preloaded associations. */
  datatype Row =
    | ConversationItem(conversation: Option<Conversation>, customer: Option<Customer>, channel: Option<Channel>,
        agent: Option<User>)
    | TicketItem(ticket: Option<Ticket>, ticketAgent: Option<User>)

  function RowOf(db: Db, resource: Resource, id: Id): Row {
    if resource == Tickets then
      var row := Lookup(db.tickets, id);
      TicketItem(row, if row.Some? then Follow(db.users, row.value.agent) else None)
    else
      var row := Lookup(db.conversations, id);
      if row.None? then ConversationItem(None, None, None, None)
      else ConversationItem(row, Lookup(db.customers, row.value.customer), Lookup(db.channels, row.value.channel),
                            Follow(db.users, row.value.agent))
  }

  function RowsOf(db: Db, resource: Resource, ids: seq<Id>): seq<Row> {
    seq(|ids|, i requires 0 <= i < |ids| => RowOf(db, resource, ids[i]))
  }

  function Min(a: nat, b: nat): nat {
    if a < b then a else b
  }

  /** OFFSET and LIMIT. */
  function Window<T>(rows: seq<T>, offset: nat, limit: nat): seq<T> {
    var lo := Min(offset, |rows|);
    rows[lo..Min(lo + limit, |rows|)]
  }

  function Total(db: Db, q: Query): nat {
    |Selected(db, q)|
  }

  /** All selected rows in query order, before paging. */
  function AllRows(db: Db, q: Query): seq<Row> {
    RowsOf(db, q.Resource(), Sorted(Selected(db, q)))
  }

  /** The page of rows the query returns. */
  function Page(db: Db, q: Query): seq<Row> {
    Window(AllRows(db, q), q.offset, q.limit)
  }

  // ----- the statements of a page -----

  /** A row as the page query itself reads it, before its associations are preloaded. */
  function Bare(row: Row): Row {
    match row
    case ConversationItem(conversation, _, _, _) => ConversationItem(conversation, None, None, None)
    case TicketItem(ticket, _) => TicketItem(ticket, None)
  }

  /** A row with the associations that db holds for it. */
  function WithAssociations(db: Db, row: Row): Row {
    match row
    case ConversationItem(None, _, _, _) => row
    case ConversationItem(Some(c), _, _, _) =>
      ConversationItem(Some(c), Lookup(db.customers, c.customer), Lookup(db.channels, c.channel),
          Follow(db.users, c.agent))
    case TicketItem(None, _) => row
    case TicketItem(Some(t), _) => TicketItem(Some(t), Follow(db.users, t.agent))
  }

  /** The rows of the page query. */
  function BarePage(db: Db, q: Query): seq<Row> {
    var page := Page(db, q);
    seq(|page|, i requires 0 <= i < |page| => Bare(page[i]))
  }

  function Preloaded(db: Db, rows: seq<Row>): seq<Row> {
    seq(|rows|, i requires 0 <= i < |rows| => WithAssociations(db, rows[i]))
  }

  lemma PreloadsMakeRow(db: Db, resource: Resource, id: Id)
    ensures WithAssociations(db, Bare(RowOf(db, resource, id))) == RowOf(db, resource, id)
  {
  }

  lemma PageRow(db: Db, q: Query, i: nat) returns (id: Id)
    requires i < |Page(db, q)|
    ensures Page(db, q)[i] == RowOf(db, q.Resource(), id)
    ensures q.offset + i < |Sorted(Selected(db, q))| && id == Sorted(Selected(db, q))[q.offset + i]
  {
    hide RowOf, Selected, Sorted;
    id := Sorted(Selected(db, q))[q.offset + i];
  }

  /** Page query and preloads on the same database give the page. */
  lemma PreloadsMakePage(db: Db, q: Query)
    ensures Preloaded(db, BarePage(db, q)) == Page(db, q)
  {
    hide Page, RowOf, Bare, WithAssociations;
    var page := Page(db, q);
    forall i | 0 <= i < |page| ensures WithAssociations(db, Bare(page[i])) == page[i] {
      var id := PageRow(db, q, i);
      PreloadsMakeRow(db, q.Resource(), id);
    }
  }

  // ----- paging -----

  /** The windows at offset, offset + limit, ... as long as they start inside, put together. */
  function WindowsFrom<T>(rows: seq<T>, offset: nat, limit: nat): seq<T>
    requires limit > 0
    decreases |rows| - offset
  {
    if offset >= |rows| then [] else Window(rows, offset, limit) + WindowsFrom(rows, offset + limit, limit)
  }

  lemma {:induction false} WindowsTile<T>(rows: seq<T>, offset: nat, limit: nat)
    requires limit > 0
    ensures WindowsFrom(rows, offset, limit) == rows[Min(offset, |rows|)..]
    decreases |rows| - offset
  {
    if offset < |rows| {
      WindowsTile(rows, offset + limit, limit);
      var next := Min(offset + limit, |rows|);
      assert rows[offset..] == rows[offset..next] + rows[next..];
    }
  }

  /** What a client gets that asks for page after page while the offset is below the reported total. */
  function PagesFrom(db: Db, q: Query, offset: nat): seq<Row>
    requires q.limit > 0
    decreases Total(db, q) - offset
  {
    if offset >= Total(db, q.At(offset)) then [] else
    SameSelection(db, q, offset);
    Page(db, q.At(offset)) + PagesFrom(db, q, offset + q.limit)
  }

  lemma SameSelection(db: Db, q: Query, offset: nat)
    ensures Selected(db, q.At(offset)) == Selected(db, q) && AllRows(db, q.At(offset)) == AllRows(db, q)
  {
  }

  lemma PageIsWindow(db: Db, q: Query, offset: nat)
    ensures Total(db, q.At(offset)) == Total(db, q) == |AllRows(db, q)|
    ensures Page(db, q.At(offset)) == Window(AllRows(db, q), offset, q.limit)
  {
    SameSelection(db, q, offset);
  }

  lemma {:induction false} PagesAreWindows(db: Db, q: Query, offset: nat)
    requires q.limit > 0
    ensures PagesFrom(db, q, offset) == WindowsFrom(AllRows(db, q), offset, q.limit)
    decreases Total(db, q) - offset
  {
    hide AllRows, Page, Total, Window, Selected;
    PageIsWindow(db, q, offset);
    if offset < Total(db, q) {
      PagesAreWindows(db, q, offset + q.limit);
    }
  }

  /** What a client gets that asks for offsets 0, L, 2L, ... below the reported total, each request normalised. */
  function RequestedFrom(db: Db, q: Query, offset: int, limit: int): seq<Row>
    requires q.limit == NormalizeLimit(limit)
    decreases Total(db, q) - offset
  {
    if offset >= Total(db, q) then []
    else Page(db, q.At(NormalizeOffset(offset))) + RequestedFrom(db, q, offset + q.limit, limit)
  }

  lemma {:induction false} RequestsArePages(db: Db, q: Query, offset: nat, limit: int)
    requires q.limit == NormalizeLimit(limit)
    ensures RequestedFrom(db, q, offset, limit) == PagesFrom(db, q, offset)
    decreases Total(db, q) - offset
  {
    hide Page, Selected;
    SameSelection(db, q, offset);
    if offset < Total(db, q) {
      RequestsArePages(db, q, offset + q.limit, limit);
    }
  }

  /** Main result: for any limit a client sends, the requests at offsets 0, L, 2L, ... below the total (L the
      normalised limit) get pages that concatenate to all selected rows of the tenant, newest first, none missing or
      repeated. */
  lemma PagesPartition(db: Db, query: Query, limit: int)
    ensures var q := query.(limit := NormalizeLimit(limit));
            var ids := Sorted(Selected(db, q));
            && 1 <= q.limit <= 100
            && RequestedFrom(db, q, 0, limit) == RowsOf(db, q.Resource(), ids)
            && |ids| == Total(db, q) && Ordered(Selected(db, q), ids)
            && (forall id :: id in ids <==> Matches(db, q, id))
            && (forall i, j | 0 <= i < j < |ids| ::
                 ids[i] != ids[j] && StampOf(db, q, ids[i]) >= StampOf(db, q, ids[j]))
  {
    hide RequestedFrom, RowsOf, Sorted, Selected, Matches, StampOf;
    var q := query.(limit := NormalizeLimit(limit));
    RequestsGetAll(db, q, limit);
    SortedIsOrdered(Selected(db, q));
    SelectedMatch(db, q);
    assert forall k | 0 <= k < |Sorted(Selected(db, q))| :: Sorted(Selected(db, q))[k] in Selected(db, q);
  }

  lemma RequestsGetAll(db: Db, q: Query, limit: int)
    requires q.limit == NormalizeLimit(limit)
    ensures RequestedFrom(db, q, 0, limit) == AllRows(db, q)
  {
    hide AllRows, RequestedFrom, PagesFrom, WindowsFrom;
    RequestsArePages(db, q, 0, limit);
    PagesAreWindows(db, q, 0);
    WindowsTile(AllRows(db, q), 0, q.limit);
  }

  /** The row is the tenant's, and has each column the request filters by. */
  predicate Matches(db: Db, q: Query, id: Id) {
    match q
    case ConversationQuery(tenant, status, agent, _, _) =>
      && id in db.conversations && db.conversations[id].tenant == tenant
      && (status != "" ==> db.conversations[id].status.Text() == status)
      && (agent != "" ==> db.conversations[id].agent == Some(agent))
    case TicketQuery(tenant, status, priority, agent, _, _) =>
      && id in db.tickets && db.tickets[id].tenant == tenant
      && (status != "" ==> db.tickets[id].status.Text() == status)
      && (priority != "" ==> db.tickets[id].priority.Text() == priority)
      && (agent != "" ==> db.tickets[id].agent == Some(agent))
  }

  /** The updated_at of the row. */
  function StampOf(db: Db, q: Query, id: Id): nat {
    if q.ConversationQuery? && id in db.conversations then db.conversations[id].updatedAt
    else if q.TicketQuery? && id in db.tickets then db.tickets[id].updatedAt
    else 0
  }

  lemma SelectedMatch(db: Db, q: Query)
    ensures forall id :: id in Selected(db, q) <==> Matches(db, q, id)
    ensures forall id | id in Selected(db, q) :: Selected(db, q)[id] == StampOf(db, q, id)
  {
  }

  /** Main result: row i of any page is row offset + i of the whole list, with its own associations. */
  lemma PageShows(db: Db, q: Query, i: nat) returns (id: Id)
    requires Tables(db) && i < |Page(db, q)|
    ensures q.offset + i < |Sorted(Selected(db, q))| && id == Sorted(Selected(db, q))[q.offset + i]
              && Matches(db, q, id)
    ensures ShowsRow(db, q, id, Page(db, q)[i])
  {
    hide RowOf, Selected, Page, Matches, ShowsRow, Tables;
    id := PageRow(db, q, i);
    SelectedMatch(db, q);
    assert id in Sorted(Selected(db, q));
    RowShows(db, q, id);
  }

  /** The row shows the stored record with its own customer, channel and agent. */
  predicate ShowsRow(db: Db, q: Query, id: Id, row: Row) {
    if q.ConversationQuery? then
      && id in db.conversations
      && var c := db.conversations[id];
      && row.ConversationItem? && row.conversation == Some(c)
      && c.customer in db.customers && row.customer == Some(db.customers[c.customer])
      && c.channel in db.channels && row.channel == Some(db.channels[c.channel])
      && ShowsAgent(db, c.agent, row.agent)
    else
      && id in db.tickets && row.TicketItem? && row.ticket == Some(db.tickets[id])
      && ShowsAgent(db, db.tickets[id].agent, row.ticketAgent)
  }

  predicate ShowsAgent(db: Db, agent: Option<Id>, shown: Option<User>) {
    if agent.Some? then agent.value in db.users && shown == Some(db.users[agent.value]) else shown == None
  }

  lemma RowShows(db: Db, q: Query, id: Id)
    requires Tables(db) && Matches(db, q, id)
    ensures ShowsRow(db, q, id, RowOf(db, q.Resource(), id))
  {
    hide OneActive, Ownership, Schema;
    if q.ConversationQuery? {
      assert ConversationInTenant(db, id);
    } else {
      assert TicketInTenant(db, id);
    }
  }

  /** Every page reports the same total and holds at most L rows. */
  lemma PagesAgree(db: Db, q: Query, offset: nat)
    ensures Total(db, q.At(offset)) == Total(db, q)
    ensures |Page(db, q.At(offset))| == Min(q.limit, if offset < Total(db, q) then Total(db, q) - offset else 0)
  {
    SameSelection(db, q, offset);
  }

  /** Limits from 1 to 100 and offsets from 0 stand as sent; larger limits act as 100, smaller as 20, negative offsets
      as 0. */
  lemma LimitsAreClamped(limit: int, offset: int)
    ensures 1 <= limit <= 100 ==> NormalizeLimit(limit) == limit
    ensures limit > 100 ==> NormalizeLimit(limit) == 100
    ensures limit <= 0 ==> NormalizeLimit(limit) == 20
    ensures offset >= 0 ==> NormalizeOffset(offset) == offset
    ensures offset < 0 ==> NormalizeOffset(offset) == 0
  {
  }

  ghost predicate SameList(db: Db, db': Db, q: Query) {
    Total(db, q) == Total(db', q) && Page(db, q) == Page(db', q)
  }

  // ----- a list depends on its tenant's rows only -----

  lemma SameRows(db: Db, db': Db, q: Query)
    requires Selected(db, q) == Selected(db', q)
    requires forall id | id in Selected(db, q) :: RowOf(db, q.Resource(), id) == RowOf(db', q.Resource(), id)
    ensures SameList(db, db', q)
  {
    var ids := Sorted(Selected(db, q));
    assert forall id | id in ids :: id in Selected(db, q);
    assert RowsOf(db, q.Resource(), ids) == RowsOf(db', q.Resource(), ids);
  }

  lemma ConversationSeesView(db: Db, tenant: Id, id: Id)
    requires Tables(db) && id in db.conversations && db.conversations[id].tenant == tenant
    ensures RowOf(View(db, tenant), Conversations, id) == RowOf(db, Conversations, id)
  {
    assert ConversationInTenant(db, id);
  }

  lemma TicketSeesView(db: Db, tenant: Id, id: Id)
    requires Tables(db) && id in db.tickets && db.tickets[id].tenant == tenant
    ensures RowOf(View(db, tenant), Tickets, id) == RowOf(db, Tickets, id)
  {
    assert TicketInTenant(db, id);
  }

  lemma SelectionSeesView(db: Db, q: Query)
    ensures Selected(View(db, q.tenant), q) == Selected(db, q)
  {
    if q.ConversationQuery? {
      assert SelectedConversations(ConversationsIn(db.conversations, q.tenant), q.tenant, q.status, q.agent)
          == SelectedConversations(db.conversations, q.tenant, q.status, q.agent);
    } else {
      assert SelectedTickets(TicketsIn(db.tickets, q.tenant), q.tenant, q.status, q.priority, q.agent)
          == SelectedTickets(db.tickets, q.tenant, q.status, q.priority, q.agent);
    }
  }

  lemma RowSeesView(db: Db, q: Query, id: Id)
    requires Tables(db) && id in Selected(db, q)
    ensures RowOf(db, q.Resource(), id) == RowOf(View(db, q.tenant), q.Resource(), id)
  {
    if q.ConversationQuery? {
      ConversationSeesView(db, q.tenant, id);
    } else {
      TicketSeesView(db, q.tenant, id);
    }
  }

  lemma ListSeesView(db: Db, q: Query)
    requires Tables(db)
    ensures SameList(db, View(db, q.tenant), q)
  {
    SelectionSeesView(db, q);
    forall id | id in Selected(db, q)
      ensures RowOf(db, q.Resource(), id) == RowOf(View(db, q.tenant), q.Resource(), id)
    {
      RowSeesView(db, q, id);
    }
    SameRows(db, View(db, q.tenant), q);
  }

  // ----- which lists a call can change -----

  /** The version counters the service bumps after the call. */
  function Bumps(op: Op): seq<Resource> {
    if op.Escalate? then [Conversations, Tickets] else if op.UpdateStatus? then [Tickets] else [Conversations]
  }

  /** Everything but a status update can change conversations, everything about tickets changes tickets. */
  lemma BumpsAre(op: Op)
    ensures Conversations in Bumps(op) <==> !op.UpdateStatus?
    ensures Tickets in Bumps(op) <==> op.Escalate? || op.UpdateStatus?
    ensures forall i, j | 0 <= i < j < |Bumps(op)| :: Bumps(op)[i] != Bumps(op)[j]
  {
  }

  /** Only escalation and status updates write tickets; status updates write nothing else. */
  lemma WhatIsKept(db: Db, op: Op)
    requires Tables(db) && Decide(db, op).Ok?
    ensures Tickets !in Bumps(op) ==> Decide(db, op).value.ticket == Keep
    ensures Conversations !in Bumps(op) ==>
              Decide(db, op).value.conversation == Keep && Decide(db, op).value.customer == Keep
  {
    match op
    case Webhook(_, _, _, _, _, _, _, _, _) => WebhookIsIntake(db, op);
    case Assign(_, _, _, _, _, _) => AssignIsAssignment(db, op);
    case Reply(_, _, _, _, _, _) => ReplyIsReplying(db, op);
    case Close(_, _, _, _, _) => CloseIsClosing(db, op);
    case Escalate(_, _, _, _, _, _, _, _) => EscalateIsEscalation(db, op);
    case UpdateStatus(_, _, _, _, _, _) => UpdateStatusIsStatusChange(db, op);
  }

  lemma UnbumpedUntouched(db: Db, ch: Change, q: Query)
    requires q.TicketQuery? ==> ch.ticket == Keep
    requires q.ConversationQuery? ==> ch.conversation == Keep && ch.customer == Keep
    ensures SameList(db, Written(db, ch), q)
  {
    SameRows(db, Written(db, ch), q);
  }

  /** Main result (frame): a call changes no list of another tenant, and of its own tenant only lists of a
      resource whose version it bumps. */
  lemma BumpsCoverChanges(db: Db, op: Op, q: Query)
    requires Tables(db)
    requires q.tenant != op.Tenant() || q.Resource() !in Bumps(op)
    ensures SameList(db, After(db, op), q)
  {
    if q.tenant != op.Tenant() {
      KeepsTables(db, op);
      OthersCall(db, op, q.tenant);
      ListSeesView(db, q);
      ListSeesView(After(db, op), q);
    } else if Apply(db, op).Ok? {
      WhatIsKept(db, op);
      UnbumpedUntouched(db, Decide(db, op).value, q);
    }
  }
}
