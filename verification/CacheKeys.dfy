/** The Redis keys of the list cache. Filter text is free-form, so distinct requests can share a key; on every
    reachable database they then have the same (empty) answer. */
module CacheKeys {
  import opened Text
  import opened Model
  import opened Invariants
  import opened Lists

  /** The head of a list key: everything up to the free-form filters. Each part is free of ':'. */
  function HeadParts(q: Query, version: nat): seq<string> {
    ["tenant", q.tenant, q.Resource().Text(), "v" + Decimal(version),
     "offset=" + Decimal(q.offset), "limit=" + Decimal(q.limit)]
  }

  function FilterParts(q: Query): seq<string> {
    match q
    case ConversationQuery(_, status, agent, _, _) => ["status=" + status, "agent=" + agent]
    case TicketQuery(_, status, priority, agent, _, _) => ["status=" + status, "priority=" + priority, "agent=" + agent]
  }

  function Key(parts: seq<string>): string {
    "sociomile:" + Joined(parts)
  }

  function ListKey(q: Query, version: nat): string {
    Key(HeadParts(q, version) + FilterParts(q))
  }

  function VersionKey(tenant: Id, resource: Resource): string {
    Key(["tenant", tenant, resource.Text(), "version"])
  }

  /** The keys in Redis, written out. */
  lemma KeysWrittenOut(q: Query, version: nat, resource: Resource)
    ensures VersionKey(q.tenant, resource)
         == "sociomile:" + ("tenant" + ":" + (q.tenant + ":" + (resource.Text() + ":" + "version")))
    ensures ListKey(q, version)
         == "sociomile:"
             + ("tenant" + ":" + (q.tenant + ":" + (q.Resource().Text() + ":" + (("v" + Decimal(version)) + ":"
            + (("offset=" + Decimal(q.offset)) + ":"
                + (("limit=" + Decimal(q.limit)) + ":" + Joined(FilterParts(q))))))))
    ensures q.ConversationQuery? ==>
              q.Resource().Text() == "conversations"
              && Joined(FilterParts(q)) == ("status=" + q.status) + ":" + ("agent=" + q.agent)
    ensures q.TicketQuery? ==>
              q.Resource().Text() == "tickets"
              && Joined(FilterParts(q))
                   == ("status=" + q.status) + ":" + (("priority=" + q.priority) + ":" + ("agent=" + q.agent))
  {
    VersionPartsJoined(q.tenant, resource.Text());
    HeadPartsJoined(HeadParts(q, version), FilterParts(q));
    FilterPartsJoined(q);
    hide Joined, Decimal, FilterParts;
  }

  lemma FilterPartsJoined(q: Query)
    ensures q.ConversationQuery? ==> Joined(FilterParts(q)) == ("status=" + q.status) + ":" + ("agent=" + q.agent)
    ensures q.TicketQuery? ==>
              Joined(FilterParts(q))
                  == ("status=" + q.status) + ":" + (("priority=" + q.priority) + ":" + ("agent=" + q.agent))
  {
    var f := FilterParts(q);
    if q.ConversationQuery? {
      assert f[1..] == ["agent=" + q.agent];
    } else {
      JoinedFront("priority=" + q.priority, ["agent=" + q.agent]);
      JoinedFront("status=" + q.status, ["priority=" + q.priority] + ["agent=" + q.agent]);
      assert f == ["status=" + q.status] + (["priority=" + q.priority] + ["agent=" + q.agent]);
    }
  }

  lemma VersionPartsJoined(tenant: string, resource: string)
    ensures Joined(["tenant", tenant, resource, "version"])
         == "tenant" + ":" + (tenant + ":" + (resource + ":" + "version"))
  {
    JoinedFront(resource, ["version"]);
    JoinedFront(tenant, [resource] + ["version"]);
    JoinedFront("tenant", [tenant] + ([resource] + ["version"]));
    assert Joined(["version"]) == "version";
    hide Joined;
    assert ["tenant", tenant, resource, "version"] == ["tenant"] + ([tenant] + ([resource] + ["version"]));
  }

  lemma HeadPartsJoined(h: seq<string>, f: seq<string>)
    requires |h| == 6 && f != []
    ensures Joined(h + f)
         == h[0] + ":" + (h[1] + ":" + (h[2] + ":" + (h[3] + ":" + (h[4] + ":" + (h[5] + ":" + Joined(f))))))
  {
    hide Joined;
    JoinedHead(h, 5, f);
    JoinedHead(h, 4, h[5..] + f);
    JoinedHead(h, 3, h[4..] + f);
    JoinedHead(h, 2, h[3..] + f);
    JoinedHead(h, 1, h[2..] + f);
    JoinedHead(h, 0, h[1..] + f);
    assert h[0..] + f == h + f && h[6..] + f == f;
  }

  lemma JoinedHead(h: seq<string>, i: nat, rest: seq<string>)
    requires i < |h| && rest != []
    ensures forall f: seq<string> | rest == h[i + 1..] + f :: Joined(h[i..] + f) == h[i] + ":" + Joined(rest)
  {
    forall f: seq<string> | rest == h[i + 1..] + f ensures Joined(h[i..] + f) == h[i] + ":" + Joined(rest) {
      JoinedFront(h[i], rest);
      assert h[i..] + f == [h[i]] + rest;
    }
  }

  lemma JoinedFront(head: string, rest: seq<string>)
    requires rest != []
    ensures Joined([head] + rest) == head + ":" + Joined(rest)
  {
    assert ([head] + rest)[1..] == rest;
  }

  lemma KeyInjective(ps: seq<string>, qs: seq<string>)
    requires Key(ps) == Key(qs)
    ensures Joined(ps) == Joined(qs)
  {
    assert Key(ps)[|"sociomile:"|..] == Joined(ps) && Key(qs)[|"sociomile:"|..] == Joined(qs);
  }

  lemma Prefixed(head: string, a: string, b: string)
    requires head + a == head + b
    ensures a == b
  {
    assert (head + a)[|head|..] == a && (head + b)[|head|..] == b;
  }

  lemma HeadIsColonFree(q: Query, version: nat)
    requires ColonFree(q.tenant)
    ensures forall i | 0 <= i < 6 :: ColonFree(HeadParts(q, version)[i])
  {
    DecimalIsColonFree(version);
    DecimalIsColonFree(q.offset);
    DecimalIsColonFree(q.limit);
  }

  /** Equal list keys come from the same tenant, resource, version and page, and agree on the joined filters. */
  lemma HeadsAgree(q1: Query, v1: nat, q2: Query, v2: nat)
    requires ColonFree(q1.tenant) && ColonFree(q2.tenant) && ListKey(q1, v1) == ListKey(q2, v2)
    ensures q1.tenant == q2.tenant && q1.Resource() == q2.Resource() && v1 == v2
    ensures q1.offset == q2.offset && q1.limit == q2.limit
    ensures Joined(FilterParts(q1)) == Joined(FilterParts(q2))
  {
    var h1, h2 := HeadParts(q1, v1), HeadParts(q2, v2);
    var ps, qs := h1 + FilterParts(q1), h2 + FilterParts(q2);
    KeyInjective(ps, qs);
    HeadIsColonFree(q1, v1);
    HeadIsColonFree(q2, v2);
    assert forall i | 0 <= i < 6 :: ps[i] == h1[i] && qs[i] == h2[i];
    LeadingParts(ps, qs, 6);
    assert ps[6..] == FilterParts(q1) && qs[6..] == FilterParts(q2);
    assert forall i | 0 <= i < 6 :: ps[..6][i] == h1[i] && qs[..6][i] == h2[i];
    assert h1 == h2;
    SameHead(q1, v1, q2, v2);
  }

  lemma SameHead(q1: Query, v1: nat, q2: Query, v2: nat)
    requires HeadParts(q1, v1) == HeadParts(q2, v2)
    ensures q1.tenant == q2.tenant && q1.Resource() == q2.Resource() && v1 == v2
    ensures q1.offset == q2.offset && q1.limit == q2.limit
  {
    var h1, h2 := HeadParts(q1, v1), HeadParts(q2, v2);
    assert h1[1] == h2[1] && h1[2] == h2[2] && h1[3] == h2[3] && h1[4] == h2[4] && h1[5] == h2[5];
    Prefixed("v", Decimal(v1), Decimal(v2));
    Prefixed("offset=", Decimal(q1.offset), Decimal(q2.offset));
    Prefixed("limit=", Decimal(q1.limit), Decimal(q2.limit));
    DecimalIsInjective(v1, v2);
    DecimalIsInjective(q1.offset, q2.offset);
    DecimalIsInjective(q1.limit, q2.limit);
  }

  // ----- filters that collide -----

  /** Two texts joined around the same separator. The separator starts with ':' and has no other, so if the cuts
      differ the earlier text's remainder and the later text both contain a ':'. */
  lemma CutsDiffer(a: string, x: string, b: string, y: string, sep: string)
    requires |sep| > 0 && sep[0] == ':' && ColonFree(sep[1..])
    requires a + sep + x == b + sep + y && |a| < |b|
    ensures |a| + |sep| <= |b| && b[|a|] == ':'
    ensures |b| - |a| - |sep| < |x| && x[|b| - |a| - |sep|..] == sep + y
  {
    var s := a + sep + x;
    assert s == b + sep + y;
    assert s[|a|] == sep[0] && s[|b|] == sep[0];
    assert b[|a|] == s[|a|];
    assert forall i | 1 <= i < |sep| :: s[|a| + i] == sep[i] == sep[1..][i - 1];
    assert x == s[|a| + |sep|..];
    assert sep + y == s[|b|..];
  }

  /** The ids and tenants of the deployment contain no ':'. */
  ghost predicate PlainIds(db: Db) {
    (forall t | t in db.tenants :: ColonFree(t)) && (forall u | u in db.users :: ColonFree(u))
  }

  predicate HasColon(q: Query) {
    !ColonFree(q.status) || !ColonFree(q.agent) || (q.TicketQuery? && !ColonFree(q.priority))
  }

  lemma ColonTextMatchesNothing(filter: string)
    requires !ColonFree(filter)
    ensures forall s: ConversationStatus :: !Selects(filter, s.Text())
    ensures forall s: TicketStatus :: !Selects(filter, s.Text())
    ensures forall p: Priority :: !Selects(filter, p.Text())
  {
    forall s: ConversationStatus ensures ColonFree(s.Text()) {}
    forall s: TicketStatus ensures ColonFree(s.Text()) {}
    forall p: Priority ensures ColonFree(p.Text()) {}
  }

  lemma ColonAgentMatchesNothing(db: Db, filter: string, agent: Option<Id>)
    requires PlainIds(db) && !ColonFree(filter) && (agent.Some? ==> agent.value in db.users)
    ensures !SelectsAgent(filter, agent)
  {
  }

  /** A filter with a ':' in it selects nothing on any reachable database. */
  lemma ColonSelectsNothing(db: Db, q: Query)
    requires Tables(db) && PlainIds(db) && HasColon(q)
    ensures Selected(db, q) == map[] && Total(db, q) == 0 && Page(db, q) == []
  {
    if !ColonFree(q.status) { ColonTextMatchesNothing(q.status); }
    if q.TicketQuery? && !ColonFree(q.priority) { ColonTextMatchesNothing(q.priority); }
    if q.ConversationQuery? {
      forall c | c in db.conversations ensures c !in Selected(db, q) {
        assert ConversationInTenant(db, c);
        if !ColonFree(q.agent) { ColonAgentMatchesNothing(db, q.agent, db.conversations[c].agent); }
      }
    } else {
      forall t | t in db.tickets ensures t !in Selected(db, q) {
        assert TicketInTenant(db, t);
        if !ColonFree(q.agent) { ColonAgentMatchesNothing(db, q.agent, db.tickets[t].agent); }
      }
    }
    assert Selected(db, q) == map[];
  }

  lemma ConversationFiltersCollide(s1: string, a1: string, s2: string, a2: string)
    requires s1 + ":agent=" + a1 == s2 + ":agent=" + a2
    ensures (s1 == s2 && a1 == a2) || ((!ColonFree(s1) || !ColonFree(a1)) && (!ColonFree(s2) || !ColonFree(a2)))
  {
    if |s1| < |s2| {
      CutsDiffer(s1, a1, s2, a2, ":agent=");
      assert a1[|s2| - |s1| - 7] == (":agent=" + a2)[0];
    } else if |s2| < |s1| {
      CutsDiffer(s2, a2, s1, a1, ":agent=");
      assert a2[|s1| - |s2| - 7] == (":agent=" + a1)[0];
    } else {
      var t := s1 + ":agent=" + a1;
      assert s1 == t[..|s1|] && s2 == t[..|s2|] && a1 == t[|s1| + 7..] && a2 == t[|s2| + 7..];
    }
  }

  /** Same for a text that continues with ":agent=": the ':' of a later ":priority=" cut cannot be the agent's. */
  lemma PriorityCutLeavesColon(p: string, a: string, k: nat, rest: string)
    requires k < |p + ":agent=" + a| && (p + ":agent=" + a)[k..] == ":priority=" + rest
    ensures !ColonFree(p) || !ColonFree(a)
  {
    var t := p + ":agent=" + a;
    assert t[k] == (":priority=" + rest)[0] && t[k + 1] == (":priority=" + rest)[1];
    assert forall i | |p| < i < |p| + 7 :: t[i] == "agent="[i - |p| - 1] && t[i] != ':' && t[i] != 'p';
    if k < |p| {
      assert p[k] == t[k];
    } else if k >= |p| + 7 {
      assert a[k - |p| - 7] == t[k];
    }
  }

  lemma TicketFiltersCollide(s1: string, p1: string, a1: string, s2: string, p2: string, a2: string)
    requires s1 + ":priority=" + (p1 + ":agent=" + a1) == s2 + ":priority=" + (p2 + ":agent=" + a2)
    ensures (s1 == s2 && p1 == p2 && a1 == a2)
            || ((!ColonFree(s1) || !ColonFree(p1) || !ColonFree(a1))
                 && (!ColonFree(s2) || !ColonFree(p2) || !ColonFree(a2)))
  {
    var x1, x2 := p1 + ":agent=" + a1, p2 + ":agent=" + a2;
    if |s1| < |s2| {
      CutsDiffer(s1, x1, s2, x2, ":priority=");
      PriorityCutLeavesColon(p1, a1, |s2| - |s1| - 10, x2);
    } else if |s2| < |s1| {
      CutsDiffer(s2, x2, s1, x1, ":priority=");
      PriorityCutLeavesColon(p2, a2, |s1| - |s2| - 10, x1);
    } else {
      var t := s1 + ":priority=" + x1;
      assert s1 == t[..|s1|] && s2 == t[..|s2|] && x1 == t[|s1| + 10..] && x2 == t[|s2| + 10..];
      ConversationFiltersCollide(p1, a1, p2, a2);
    }
  }

  lemma FiltersCollide(q1: Query, q2: Query)
    requires q1.Resource() == q2.Resource() && Joined(FilterParts(q1)) == Joined(FilterParts(q2))
    requires q1.tenant == q2.tenant && q1.offset == q2.offset && q1.limit == q2.limit
    ensures q1 == q2 || (HasColon(q1) && HasColon(q2))
  {
    var f1, f2 := FilterParts(q1), FilterParts(q2);
    if q1.ConversationQuery? {
      assert f1[1..] == ["agent=" + q1.agent] && f2[1..] == ["agent=" + q2.agent];
      assert Joined(f1) == "status=" + (q1.status + ":agent=" + q1.agent);
      assert Joined(f2) == "status=" + (q2.status + ":agent=" + q2.agent);
      Prefixed("status=", q1.status + ":agent=" + q1.agent, q2.status + ":agent=" + q2.agent);
      ConversationFiltersCollide(q1.status, q1.agent, q2.status, q2.agent);
    } else {
      TicketFilterText(q1);
      TicketFilterText(q2);
      Prefixed("status=", q1.status + ":priority=" + (q1.priority + ":agent=" + q1.agent),
               q2.status + ":priority=" + (q2.priority + ":agent=" + q2.agent));
      TicketFiltersCollide(q1.status, q1.priority, q1.agent, q2.status, q2.priority, q2.agent);
    }
  }

  lemma TicketFilterText(q: Query)
    requires q.TicketQuery?
    ensures Joined(FilterParts(q)) == "status=" + (q.status + ":priority=" + (q.priority + ":agent=" + q.agent))
  {
    var f := FilterParts(q);
    assert f[1..] == ["priority=" + q.priority, "agent=" + q.agent] && f[1..][1..] == ["agent=" + q.agent];
    assert Joined(f[1..]) == "priority=" + (q.priority + ":agent=" + q.agent);
  }

  /** Main result: requests that share a cache key belong to the same version of the same list, and give the same
      total and rows on every database with the invariants, even when their filters differ. */
  lemma SharedKeySharesAnswer(db: Db, q1: Query, v1: nat, q2: Query, v2: nat)
    requires Tables(db) && PlainIds(db)
    requires ColonFree(q1.tenant) && ColonFree(q2.tenant) && ListKey(q1, v1) == ListKey(q2, v2)
    ensures q1.tenant == q2.tenant && q1.Resource() == q2.Resource() && v1 == v2
    ensures Total(db, q1) == Total(db, q2) && Page(db, q1) == Page(db, q2)
  {
    HeadsAgree(q1, v1, q2, v2);
    FiltersCollide(q1, q2);
    if q1 != q2 {
      ColonSelectsNothing(db, q1);
      ColonSelectsNothing(db, q2);
    }
  }

  /** Keys are not injective: a status filter holding ":agent=" meets an agent filter holding it. */
  lemma KeysAreNotInjective(tenant: Id, offset: nat, limit: nat, version: nat)
    ensures var q1 := ConversationQuery(tenant, "open", "x:agent=", offset, limit);
            var q2 := ConversationQuery(tenant, "open:agent=x", "", offset, limit);
            q1 != q2 && ListKey(q1, version) == ListKey(q2, version)
  {
    hide Joined, Decimal;
    var q1 := ConversationQuery(tenant, "open", "x:agent=", offset, limit);
    var q2 := ConversationQuery(tenant, "open:agent=x", "", offset, limit);
    var h := HeadParts(q1, version);
    CollidingFilters();
    SameTail(h, ["status=" + "open", "agent=" + "x:agent="], ["status=" + "open:agent=x", "agent=" + ""]);
  }

  lemma CollidingFilters()
    ensures Joined(["status=" + "open", "agent=" + "x:agent="]) == Joined(["status=" + "open:agent=x", "agent=" + ""])
  {
    var f1, f2 := ["status=" + "open", "agent=" + "x:agent="], ["status=" + "open:agent=x", "agent=" + ""];
    assert "agent=" + "x:agent=" == "agent=x:agent=" && "agent=" + "" == "agent=";
    assert f1[1..] == ["agent=x:agent="] && f2[1..] == ["agent="];
    assert Joined(f1) == "status=open:agent=x:agent=" == Joined(f2);
  }

  lemma {:induction false} SameTail(h: seq<string>, f1: seq<string>, f2: seq<string>)
    requires f1 != [] && f2 != [] && Joined(f1) == Joined(f2)
    ensures Joined(h + f1) == Joined(h + f2)
  {
    if h == [] {
      assert h + f1 == f1 && h + f2 == f2;
    } else {
      SameTail(h[1..], f1, f2);
      assert (h + f1)[1..] == h[1..] + f1 && (h + f2)[1..] == h[1..] + f2;
    }
  }

  // ----- exactly which requests share a key -----

  /** No white space at either end. */
  predicate Trimmed(s: string) {
    s == "" || (!IsSpace(s[0]) && !IsSpace(s[|s| - 1]))
  }

  lemma TrimmedIffUnchanged(s: string)
    ensures Trimmed(s) <==> TrimSpace(s) == s
  {
    if TrimSpace(s) == s {
      var front, back := TrimSpaceTrims(s);
    }
  }

  /** The filters as the services pass them on: trimmed. */
  predicate Normal(q: Query) {
    Trimmed(q.status) && Trimmed(q.agent) && (q.TicketQuery? ==> Trimmed(q.priority)) && ColonFree(q.tenant)
  }

  predicate SharesKey(q: Query, other: Query, version: nat) {
    Normal(other) && other != q && ListKey(other, version) == ListKey(q, version)
  }

  predicate OccursAt(text: string, mark: string, k: nat) {
    k + |mark| <= |text| && text[k..k + |mark|] == mark
  }

  /** The joined filters of a conversation list, less the leading "status=". */
  function ConversationFilterText(q: Query): string {
    q.status + ":agent=" + q.agent
  }

  /** Cutting the text at this ":agent=" leaves two trimmed filters. */
  predicate AgentCut(text: string, k: nat) {
    OccursAt(text, ":agent=", k) && Trimmed(text[..k]) && Trimmed(text[k + 7..])
  }

  lemma SameFiltersSameKey(q: Query, other: Query, version: nat)
    requires HeadParts(q, version) == HeadParts(other, version) && Joined(FilterParts(q)) == Joined(FilterParts(other))
    ensures ListKey(q, version) == ListKey(other, version)
  {
    SameTail(HeadParts(q, version), FilterParts(q), FilterParts(other));
  }

  lemma ConversationFiltersJoined(q: Query)
    requires q.ConversationQuery?
    ensures Joined(FilterParts(q)) == "status=" + ConversationFilterText(q)
  {
    var f := FilterParts(q);
    assert f[1..] == ["agent=" + q.agent];
    assert "status=" + q.status + ":" + ("agent=" + q.agent) == "status=" + (q.status + ":agent=" + q.agent);
  }

  /** Main result (exact condition): another conversation request has the same key if and only if ":agent=" occurs at
      a second place in the joined filters where cutting leaves trimmed filters. */
  lemma ConversationKeySharedIff(q: Query, version: nat)
    requires q.ConversationQuery? && Normal(q)
    ensures (exists other: Query :: SharesKey(q, other, version)) <==>
            (exists k: nat :: k != |q.status| && AgentCut(ConversationFilterText(q), k))
  {
    hide SharesKey, AgentCut, ConversationFilterText, Normal;
    if other: Query :| SharesKey(q, other, version) {
      SharerCutsAgain(q, other, version);
    }
    if k: nat :| k != |q.status| && AgentCut(ConversationFilterText(q), k) {
      AgentCutShares(q, k, version);
    }
  }

  lemma SharerCutsAgain(q: Query, other: Query, version: nat)
    requires q.ConversationQuery? && Normal(q) && SharesKey(q, other, version)
    ensures |other.status| != |q.status| && AgentCut(ConversationFilterText(q), |other.status|)
  {
    hide Joined, Decimal, Trimmed, ListKey;
    HeadsAgree(other, version, q, version);
    ConversationFiltersJoined(q);
    ConversationFiltersJoined(other);
    Prefixed("status=", ConversationFilterText(other), ConversationFilterText(q));
    CutBack(other.status, ":agent=", other.agent);
    CutBack(q.status, ":agent=", q.agent);
  }

  lemma AgentCutShares(q: Query, k: nat, version: nat)
    requires q.ConversationQuery? && Normal(q) && k != |q.status| && AgentCut(ConversationFilterText(q), k)
    ensures exists other: Query :: SharesKey(q, other, version)
  {
    hide Joined, Decimal, Trimmed, ListKey;
    var text := ConversationFilterText(q);
    var other := ConversationQuery(q.tenant, text[..k], text[k + 7..], q.offset, q.limit);
    assert text == text[..k] + text[k..k + 7] + text[k + 7..];
    ConversationFiltersJoined(q);
    ConversationFiltersJoined(other);
    SameFiltersSameKey(q, other, version);
    assert |other.status| == k;
    assert SharesKey(q, other, version);
  }

  lemma CutBack(left: string, mark: string, right: string)
    ensures var text := left + mark + right;
            OccursAt(text, mark, |left|) && text[..|left|] == left && text[|left| + |mark|..] == right
  {
  }

  function TicketFilterTail(q: Query): string
    requires q.TicketQuery?
  {
    q.status + ":priority=" + (q.priority + ":agent=" + q.agent)
  }

  /** Cutting the text at these two marks leaves three trimmed filters. */
  predicate TicketCut(text: string, j: nat, k: nat) {
    && OccursAt(text, ":priority=", j) && OccursAt(text, ":agent=", k) && j + 10 <= k
    && Trimmed(text[..j]) && Trimmed(text[j + 10..k]) && Trimmed(text[k + 7..])
  }

  /** Where the filters of the request itself meet. */
  predicate OwnCut(q: Query, j: nat, k: nat)
    requires q.TicketQuery?
  {
    j == |q.status| && k == |q.status| + 10 + |q.priority|
  }

  /** Main result (exact condition): another ticket request has the same key if and only if the joined filters can be
      cut at a second pair of ":priority=" and ":agent=" that leaves trimmed filters. */
  lemma TicketKeySharedIff(q: Query, version: nat)
    requires q.TicketQuery? && Normal(q)
    ensures (exists other: Query :: SharesKey(q, other, version)) <==>
            (exists j: nat, k: nat :: !OwnCut(q, j, k) && TicketCut(TicketFilterTail(q), j, k))
  {
    hide SharesKey, OwnCut, TicketCut, TicketFilterTail, Normal;
    if other: Query :| SharesKey(q, other, version) {
      SharerCuts(q, other, version);
    }
    if j: nat, k: nat :| !OwnCut(q, j, k) && TicketCut(TicketFilterTail(q), j, k) {
      CutShares(q, j, k, version);
    }
  }

  lemma SharerCuts(q: Query, other: Query, version: nat)
    requires q.TicketQuery? && Normal(q) && SharesKey(q, other, version)
    ensures exists j: nat, k: nat :: !OwnCut(q, j, k) && TicketCut(TicketFilterTail(q), j, k)
  {
    hide Joined, Decimal, Trimmed, ListKey, TicketFilterTail, OccursAt;
    HeadsAgree(other, version, q, version);
    FilterTailsAgree(q, other);
    TicketCutBack(other);
    TicketCutBack(q);
    assert TicketCut(TicketFilterTail(q), |other.status|, |other.status| + 10 + |other.priority|);
    assert !OwnCut(q, |other.status|, |other.status| + 10 + |other.priority|);
  }

  lemma FilterTailsAgree(q: Query, other: Query)
    requires q.TicketQuery? && other.TicketQuery?
    ensures Joined(FilterParts(q)) == Joined(FilterParts(other)) <==> TicketFilterTail(q) == TicketFilterTail(other)
  {
    hide Joined;
    TicketFilterText(q);
    TicketFilterText(other);
    if Joined(FilterParts(q)) == Joined(FilterParts(other)) {
      Prefixed("status=", TicketFilterTail(q), TicketFilterTail(other));
    }
  }

  lemma CutShares(q: Query, j: nat, k: nat, version: nat)
    requires q.TicketQuery? && Normal(q) && !OwnCut(q, j, k) && TicketCut(TicketFilterTail(q), j, k)
    ensures exists other: Query :: SharesKey(q, other, version)
  {
    hide Joined, Decimal, Trimmed, ListKey;
    var text := TicketFilterTail(q);
    var other := TicketQuery(q.tenant, text[..j], text[j + 10..k], text[k + 7..], q.offset, q.limit);
    PutTogether(text, j, k);
    FilterTailsAgree(q, other);
    SameFiltersSameKey(q, other, version);
    assert |other.status| == j && |other.priority| == k - j - 10;
    assert SharesKey(q, other, version);
  }

  lemma PutTogether(text: string, j: nat, k: nat)
    requires OccursAt(text, ":priority=", j) && OccursAt(text, ":agent=", k) && j + 10 <= k
    ensures text == text[..j] + ":priority=" + (text[j + 10..k] + ":agent=" + text[k + 7..])
  {
    assert text == text[..j] + text[j..j + 10] + (text[j + 10..k] + text[k..k + 7] + text[k + 7..]);
  }

  lemma TicketCutBack(q: Query)
    requires q.TicketQuery?
    ensures var text, j, k := TicketFilterTail(q), |q.status|, |q.status| + 10 + |q.priority|;
            && OccursAt(text, ":priority=", j) && OccursAt(text, ":agent=", k)
            && text[..j] == q.status && text[j + 10..k] == q.priority && text[k + 7..] == q.agent
  {
    var text, j := TicketFilterTail(q), |q.status|;
    CutBack(q.status, ":priority=", q.priority + ":agent=" + q.agent);
    CutBack(q.priority, ":agent=", q.agent);
    var tail := text[j + 10..];
    assert forall a: nat, b: nat | a <= b <= |tail| :: tail[a..b] == text[j + 10 + a..j + 10 + b];
  }

  /** A version counter never shares its key with a cached page. */
  lemma VersionKeysAreApart(tenant: Id, resource: Resource, q: Query, version: nat)
    requires ColonFree(tenant) && ColonFree(q.tenant)
    ensures VersionKey(tenant, resource) != ListKey(q, version)
  {
    var h := HeadParts(q, version);
    var ps, qs := ["tenant", tenant, resource.Text(), "version"], h + FilterParts(q);
    HeadIsColonFree(q, version);
    assert forall i | 0 <= i < 3 :: qs[i] == h[i];
    assert ps[3..] == ["version"] && qs[3..][0] == h[3];
    assert Joined(qs[3..]) == h[3] + ":" + Joined(qs[3..][1..]);
    DecimalStartsWithDigit(version);
    assert Joined(qs[3..])[1] == Decimal(version)[0] && Joined(ps[3..])[1] == 'e';
    if Key(ps) == Key(qs) {
      KeyInjective(ps, qs);
      LeadingParts(ps, qs, 3);
    }
  }

  lemma {:induction false} DecimalStartsWithDigit(n: nat)
    ensures '0' <= Decimal(n)[0] <= '9'
  {
    if n >= 10 {
      DecimalStartsWithDigit(n / 10);
    }
  }

  lemma VersionKeyInjective(t1: Id, r1: Resource, t2: Id, r2: Resource)
    requires ColonFree(t1) && ColonFree(t2) && VersionKey(t1, r1) == VersionKey(t2, r2)
    ensures t1 == t2 && r1 == r2
  {
    var ps, qs := ["tenant", t1, r1.Text(), "version"], ["tenant", t2, r2.Text(), "version"];
    KeyInjective(ps, qs);
    LeadingParts(ps, qs, 3);
    assert ps[..3][1] == t1 && qs[..3][1] == t2 && ps[..3][2] == r1.Text() && qs[..3][2] == r2.Text();
  }
}
