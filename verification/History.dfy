/**
 * The shared message history and the bounded window a turn reads from it.
 *
 * `message_order` is drawn from one sequence for every conversation, so row `i` of the
 * table carries order `i + 1`, and 0 means "no row". A row is inserted before its
 * transaction commits; until then only `committed` rows are visible to a reader.
 */
module History {
  import opened Wrappers

  type ConvId = nat

  datatype Role = Lead | Assistant | System

  datatype Row = Row(conv: ConvId, role: Role, text: string, committed: bool)

  /** A visible row of one thread, with its order. */
  datatype Entry = Entry(order: nat, role: Role, text: string)

  const WINDOW: nat := 10

  predicate InThread(row: Row, conv: ConvId) {
    row.committed && row.conv == conv
  }

  predicate IsLeadRow(row: Row, conv: ConvId) {
    InThread(row, conv) && row.role == Lead
  }

  /** The newest lead order of the whole thread, 0 when the lead never wrote. */
  function LatestLead(table: seq<Row>, conv: ConvId): (order: nat)
    ensures order <= |table|
    ensures order > 0 ==> IsLeadRow(table[order - 1], conv)
    ensures forall i :: order <= i < |table| ==> !IsLeadRow(table[i], conv)
  {
    if table == [] then 0
    else if IsLeadRow(table[|table| - 1], conv) then |table|
    else LatestLead(table[..|table| - 1], conv)
  }

  /** The visible rows of a thread, ascending by order. */
  function Thread(table: seq<Row>, conv: ConvId): (thread: seq<Entry>)
    ensures Ascending(thread)
    ensures forall i :: 0 <= i < |thread| ==> Mirrors(thread[i], table, conv)
  {
    if table == [] then []
    else
      var last := |table| - 1;
      var before := Thread(table[..last], conv);
      if InThread(table[last], conv)
      then before + [Entry(|table|, table[last].role, table[last].text)]
      else before
  }

  /** The entry is the projection of a visible row of the thread. */
  predicate Mirrors(e: Entry, table: seq<Row>, conv: ConvId) {
    && 0 < e.order <= |table|
    && InThread(table[e.order - 1], conv)
    && table[e.order - 1].role == e.role && table[e.order - 1].text == e.text
  }

  predicate Ascending(entries: seq<Entry>) {
    forall i, j :: 0 <= i < j < |entries| ==> entries[i].order < entries[j].order
  }

  /** The `limit` newest rows of a thread, still ascending. */
  function Recent(thread: seq<Entry>, limit: nat): seq<Entry> {
    if |thread| <= limit then thread else thread[|thread| - limit..]
  }

  /** Only lead and assistant rows can be projected to the model. */
  function Projectable(entries: seq<Entry>): seq<Entry> {
    if entries == [] then []
    else
      var rest := Projectable(entries[..|entries| - 1]);
      var last := entries[|entries| - 1];
      if last.role == System then rest else rest + [last]
  }

  predicate HasLead(entries: seq<Entry>) {
    exists i :: 0 <= i < |entries| && entries[i].role == Lead
  }

  /** The newest lead order among the entries, whatever their arrangement. */
  function MaxLead(entries: seq<Entry>): Option<nat> {
    if entries == [] then None
    else
      var last := entries[|entries| - 1];
      var rest := MaxLead(entries[..|entries| - 1]);
      if last.role != Lead then rest
      else if rest.Some? && rest.value > last.order then rest
      else Some(last.order)
  }

  /** Entries that do not outrank `order`. */
  function UpTo(entries: seq<Entry>, order: nat): seq<Entry> {
    if entries == [] then []
    else
      var rest := UpTo(entries[1..], order);
      if entries[0].order <= order then [entries[0]] + rest else rest
  }

  /** The entries from the first lead row on; empty when the lead never wrote. */
  function TrimToFirstLead(entries: seq<Entry>): seq<Entry> {
    if entries == [] then []
    else if entries[0].role == Lead then entries
    else TrimToFirstLead(entries[1..])
  }

  datatype Window = Window(rows: seq<Entry>, latest: Option<nat>)

  /** Cut the rows at the newest lead row, then trim them to the first one. */
  function WindowUpToLatestLead(ordered: seq<Entry>): Window {
    var latest := MaxLead(ordered);
    var cut := if latest.Some? then UpTo(ordered, latest.value) else ordered;
    Window(TrimToFirstLead(cut), latest)
  }

  /** The rows a turn may look at: the projectable ones among the newest of the thread. */
  function Candidates(table: seq<Row>, conv: ConvId): seq<Entry> {
    Projectable(Recent(Thread(table, conv), WINDOW))
  }

  /** What `load` hands to the turn. */
  function Load(table: seq<Row>, conv: ConvId): Window {
    WindowUpToLatestLead(Candidates(table, conv))
  }

  /** Some row among the newest ones is the lead's. */
  predicate LeadInSight(table: seq<Row>, conv: ConvId) {
    HasLead(Recent(Thread(table, conv), WINDOW))
  }

  // ---------------------------------------------------------------- window proofs

  /** Cutting an ascending list is taking a prefix. */
  lemma {:induction false} UpToIsPrefix(entries: seq<Entry>, last: nat)
    requires Ascending(entries) && last < |entries|
    ensures UpTo(entries, entries[last].order) == entries[..last + 1]
    decreases |entries|
  {
    var order := entries[last].order;
    if last == 0 {
      UpToDropsLarger(entries[1..], order);
      assert entries[..1] == [entries[0]];
    } else {
      UpToIsPrefix(entries[1..], last - 1);
      assert entries[..last + 1] == [entries[0]] + entries[1..][..last];
    }
  }

  lemma {:induction false} UpToDropsLarger(entries: seq<Entry>, order: nat)
    requires forall i :: 0 <= i < |entries| ==> entries[i].order > order
    ensures UpTo(entries, order) == []
  {
    if entries != [] {
      UpToDropsLarger(entries[1..], order);
    }
  }

  /** Trimming is dropping everything before the first lead row. */
  lemma {:induction false} TrimIsSuffix(entries: seq<Entry>, first: nat)
    requires first < |entries| && entries[first].role == Lead
    requires forall i :: 0 <= i < first ==> entries[i].role != Lead
    ensures TrimToFirstLead(entries) == entries[first..]
    decreases |entries|
  {
    if first > 0 {
      TrimIsSuffix(entries[1..], first - 1);
      assert entries[first..] == entries[1..][first - 1..];
    }
  }

  lemma {:induction false} TrimOfNoLead(entries: seq<Entry>)
    requires !HasLead(entries)
    ensures TrimToFirstLead(entries) == []
  {
    if entries != [] {
      assert entries[0].role != Lead;
      forall i | 0 <= i < |entries[1..]| ensures entries[1..][i].role != Lead {
        assert entries[1..][i] == entries[i + 1];
      }
      TrimOfNoLead(entries[1..]);
    }
  }

  /** `first` and `last` are the outermost lead rows of the entries. */
  predicate OutermostLeads(entries: seq<Entry>, first: nat, last: nat) {
    && first <= last < |entries|
    && entries[first].role == Lead && entries[last].role == Lead
    && (forall i :: 0 <= i < first ==> entries[i].role != Lead)
    && (forall i :: last < i < |entries| ==> entries[i].role != Lead)
  }

  lemma FindOutermostLeads(entries: seq<Entry>) returns (first: nat, last: nat)
    requires HasLead(entries)
    ensures OutermostLeads(entries, first, last)
  {
    first := 0;
    while entries[first].role != Lead
      invariant first < |entries|
      invariant forall i :: 0 <= i < first ==> entries[i].role != Lead
      decreases |entries| - first
    {
      first := first + 1;
    }
    last := |entries| - 1;
    while entries[last].role != Lead
      invariant first <= last < |entries|
      invariant forall i :: last < i < |entries| ==> entries[i].role != Lead
      decreases last
    {
      last := last - 1;
    }
  }

  lemma {:induction false} MaxLeadOfNone(entries: seq<Entry>)
    requires !HasLead(entries)
    ensures MaxLead(entries) == None
  {
    if entries != [] {
      var init := entries[..|entries| - 1];
      assert entries[|entries| - 1].role != Lead;
      forall i | 0 <= i < |init| ensures init[i].role != Lead {
        assert init[i] == entries[i];
      }
      MaxLeadOfNone(init);
    }
  }

  /** On ascending rows the maximum is the order of the last lead row. */
  lemma {:induction false} MaxLeadIsLast(entries: seq<Entry>, last: nat)
    requires Ascending(entries) && last < |entries| && entries[last].role == Lead
    requires forall i :: last < i < |entries| ==> entries[i].role != Lead
    ensures MaxLead(entries) == Some(entries[last].order)
  {
    var init := entries[..|entries| - 1];
    if last < |init| {
      MaxLeadIsLast(init, last);
    } else {
      MaxLeadBelow(init, entries[last].order);
    }
  }

  lemma {:induction false} MaxLeadBelow(entries: seq<Entry>, bound: nat)
    requires forall i :: 0 <= i < |entries| ==> entries[i].order < bound
    ensures MaxLead(entries).GetOr(0) <= bound
  {
    if entries != [] {
      MaxLeadBelow(entries[..|entries| - 1], bound);
    }
  }

  /**
   * The window of ascending rows is the contiguous slice between their first and their
   * last lead row, and the reported order is the last one's.
   */
  lemma WindowIsLeadToLead(ordered: seq<Entry>, first: nat, last: nat)
    requires Ascending(ordered) && OutermostLeads(ordered, first, last)
    ensures WindowUpToLatestLead(ordered) == Window(ordered[first..last + 1], Some(ordered[last].order))
  {
    MaxLeadIsLast(ordered, last);
    UpToIsPrefix(ordered, last);
    var cut := ordered[..last + 1];
    TrimIsSuffix(cut, first);
    assert cut[first..] == ordered[first..last + 1];
  }

  /** With no lead row there is nothing to answer and nothing to show. */
  lemma WindowOfNoLead(ordered: seq<Entry>)
    requires !HasLead(ordered)
    ensures WindowUpToLatestLead(ordered) == Window([], None)
  {
    MaxLeadOfNone(ordered);
    TrimOfNoLead(ordered);
  }

  /** Projecting keeps the order and keeps exactly the non-system rows. */
  lemma {:induction false} ProjectableKeeps(entries: seq<Entry>)
    requires Ascending(entries)
    ensures Ascending(Projectable(entries))
    ensures forall i :: 0 <= i < |Projectable(entries)| ==>
              Projectable(entries)[i].role != System && Projectable(entries)[i] in entries
    ensures forall i :: 0 <= i < |entries| && entries[i].role != System ==> entries[i] in Projectable(entries)
  {
    if entries != [] {
      var init := entries[..|entries| - 1];
      ProjectableKeeps(init);
      var rest := Projectable(init);
      forall i | 0 <= i < |rest| ensures rest[i] in entries && rest[i].order < entries[|entries| - 1].order {
        assert rest[i] in init;
      }
      forall i | 0 <= i < |entries| && entries[i].role != System ensures entries[i] in Projectable(entries) {
        if i < |init| {
          assert init[i] in rest;
        }
      }
    }
  }

  /** Every lead row of the table is an entry of its thread. */
  lemma {:induction false} ThreadHoldsLeads(table: seq<Row>, conv: ConvId, order: nat) returns (at: nat)
    requires 0 < order <= |table| && IsLeadRow(table[order - 1], conv)
    ensures at < |Thread(table, conv)| && Thread(table, conv)[at] == Entry(order, Lead, table[order - 1].text)
  {
    if order < |table| {
      at := ThreadHoldsLeads(table[..|table| - 1], conv, order);
    } else {
      at := |Thread(table[..|table| - 1], conv)|;
    }
  }

  /** The recent rows are a suffix of the thread. */
  lemma RecentIsSuffix(table: seq<Row>, conv: ConvId) returns (offset: nat)
    ensures offset <= |Thread(table, conv)|
    ensures Recent(Thread(table, conv), WINDOW) == Thread(table, conv)[offset..]
    ensures Ascending(Recent(Thread(table, conv), WINDOW))
    ensures forall i :: 0 <= i < |Recent(Thread(table, conv), WINDOW)| ==>
              Mirrors(Recent(Thread(table, conv), WINDOW)[i], table, conv)
  {
    var thread := Thread(table, conv);
    offset := if |thread| <= WINDOW then 0 else |thread| - WINDOW;
    var recent := Recent(thread, WINDOW);
    assert recent == thread[offset..];
    forall i | 0 <= i < |recent| ensures Mirrors(recent[i], table, conv) {
      assert recent[i] == thread[offset + i];
    }
  }

  lemma PlacesFollowOrders(entries: seq<Entry>, i: nat, j: nat)
    requires Ascending(entries) && i < |entries| && j < |entries|
    requires entries[i].order <= entries[j].order
    ensures i <= j
  {
  }

  /** The newest lead row of the thread, given any lead row of it. */
  lemma NewestInThread(table: seq<Row>, conv: ConvId, e: Entry) returns (i: nat)
    requires Mirrors(e, table, conv) && e.role == Lead
    ensures e.order <= LatestLead(table, conv)
    ensures i < |Thread(table, conv)| && Thread(table, conv)[i].role == Lead
    ensures Thread(table, conv)[i].order == LatestLead(table, conv) > 0
  {
    assert IsLeadRow(table[e.order - 1], conv);
    i := ThreadHoldsLeads(table, conv, LatestLead(table, conv));
  }

  lemma SuffixHolds(thread: seq<Entry>, offset: nat, j: nat, i: nat)
    requires Ascending(thread) && offset + j < |thread| && i < |thread|
    requires thread[offset + j].order <= thread[i].order
    ensures offset <= i && thread[offset..][i - offset] == thread[i]
  {
    PlacesFollowOrders(thread, offset + j, i);
  }

  /** Where some recent lead row stands in the thread. */
  lemma RecentLead(table: seq<Row>, conv: ConvId) returns (offset: nat, j: nat)
    requires LeadInSight(table, conv)
    ensures offset + j < |Thread(table, conv)| && Thread(table, conv)[offset + j].role == Lead
    ensures Recent(Thread(table, conv), WINDOW) == Thread(table, conv)[offset..]
  {
    var recent := Recent(Thread(table, conv), WINDOW);
    offset := RecentIsSuffix(table, conv);
    j :| 0 <= j < |recent| && recent[j].role == Lead;
  }

  /** The newest lead row of the thread is among the recent rows as soon as any lead row is. */
  lemma RecentHoldsLatestLead(table: seq<Row>, conv: ConvId) returns (at: nat)
    requires LeadInSight(table, conv)
    ensures var recent := Recent(Thread(table, conv), WINDOW);
            at < |recent| && recent[at].role == Lead && recent[at].order == LatestLead(table, conv) > 0
  {
    var offset, j := RecentLead(table, conv);
    var thread := Thread(table, conv);
    var i := NewestInThread(table, conv, thread[offset + j]);
    SuffixHolds(thread, offset, j, i);
    at := i - offset;
  }

  /** Candidates are ascending projections of visible lead and assistant rows. */
  lemma CandidatesMirror(table: seq<Row>, conv: ConvId)
    ensures Ascending(Candidates(table, conv))
    ensures forall i :: 0 <= i < |Candidates(table, conv)| ==>
              Candidates(table, conv)[i].role != System && Mirrors(Candidates(table, conv)[i], table, conv)
  {
    var recent := Recent(Thread(table, conv), WINDOW);
    var offset := RecentIsSuffix(table, conv);
    ProjectableKeeps(recent);
    var c := Candidates(table, conv);
    forall i | 0 <= i < |c| ensures Mirrors(c[i], table, conv) {
      var k :| 0 <= k < |recent| && recent[k] == c[i];
    }
  }

  /** Projecting hides no lead row, so the candidates hold the thread's newest one. */
  lemma CandidatesHoldLatestLead(table: seq<Row>, conv: ConvId) returns (at: nat)
    requires LeadInSight(table, conv)
    ensures var c := Candidates(table, conv);
            at < |c| && c[at].role == Lead && c[at].order == LatestLead(table, conv) > 0
  {
    var recent := Recent(Thread(table, conv), WINDOW);
    var k := RecentHoldsLatestLead(table, conv);
    at := ProjectionHolds(recent, recent[k].order, k);
  }

  lemma NoLeadInCandidates(table: seq<Row>, conv: ConvId)
    requires !LeadInSight(table, conv)
    ensures !HasLead(Candidates(table, conv))
  {
    var recent := Recent(Thread(table, conv), WINDOW);
    var offset := RecentIsSuffix(table, conv);
    ProjectableKeeps(recent);
    var c := Candidates(table, conv);
    forall i | 0 <= i < |c| ensures c[i].role != Lead {
      var k :| 0 <= k < |recent| && recent[k] == c[i];
    }
  }

  /**
   * The ten-row window refines the full thread. Whenever one of the ten newest rows is
   * the lead's, the window's newest lead order is the whole thread's maximum, and its rows
   * are the contiguous slice of the candidates that starts and ends with a lead row, even
   * when late replies outrank the inbound.
   */
  lemma WindowRefinesThread(table: seq<Row>, conv: ConvId) returns (first: nat, last: nat)
    requires LeadInSight(table, conv)
    ensures OutermostLeads(Candidates(table, conv), first, last)
    ensures Load(table, conv).rows == Candidates(table, conv)[first..last + 1]
    ensures Load(table, conv).latest == Some(LatestLead(table, conv))
    ensures Candidates(table, conv)[last].order == LatestLead(table, conv) > 0
  {
    CandidatesMirror(table, conv);
    var c := Candidates(table, conv);
    var i := CandidatesHoldLatestLead(table, conv);
    first, last := FindOutermostLeads(c);
    WindowIsLeadToLead(c, first, last);
    assert i <= last;
    assert Mirrors(c[last], table, conv);
    assert IsLeadRow(table[c[last].order - 1], conv);
  }

  /**
   * Exactly when the window and the thread agree on what is left to answer: the lead
   * never wrote, or one of the ten newest rows is the lead's. Otherwise the window is
   * empty and the turn finds nothing to answer.
   */
  lemma WindowAgreesExactly(table: seq<Row>, conv: ConvId)
    ensures Load(table, conv).latest.GetOr(0) == LatestLead(table, conv)
            <==> LatestLead(table, conv) == 0 || LeadInSight(table, conv)
    ensures !LeadInSight(table, conv) ==> Load(table, conv) == Window([], None)
  {
    if LeadInSight(table, conv) {
      var first, last := WindowRefinesThread(table, conv);
    } else {
      NoLeadInCandidates(table, conv);
      WindowOfNoLead(Candidates(table, conv));
    }
  }

  // ---------------------------------------------------------------- what a window shows

  /** The window shows this message of the lead. */
  predicate InWindow(table: seq<Row>, conv: ConvId, order: nat) {
    exists i :: 0 <= i < |Load(table, conv).rows| && IsMessage(Load(table, conv).rows[i], order)
  }

  predicate IsMessage(e: Entry, order: nat) {
    e.role == Lead && e.order == order
  }

  /** How many rows of the thread are newer. */
  function Newer(table: seq<Row>, conv: ConvId, order: nat): nat {
    if |table| <= order then 0
    else Newer(table[..|table| - 1], conv, order) + (if InThread(table[|table| - 1], conv) then 1 else 0)
  }

  lemma {:induction false} NewerThanLead(table: seq<Row>, conv: ConvId, order: nat) returns (at: nat)
    requires 0 < order <= |table| && IsLeadRow(table[order - 1], conv)
    ensures at + 1 + Newer(table, conv, order) == |Thread(table, conv)|
    ensures IsMessage(Thread(table, conv)[at], order)
  {
    if order < |table| {
      at := NewerThanLead(table[..|table| - 1], conv, order);
    } else {
      at := |Thread(table[..|table| - 1], conv)|;
    }
  }

  lemma ShownIsCandidate(table: seq<Row>, conv: ConvId, order: nat) returns (k: nat)
    requires InWindow(table, conv, order)
    ensures k < |Candidates(table, conv)| && IsMessage(Candidates(table, conv)[k], order)
  {
    if !LeadInSight(table, conv) {
      WindowAgreesExactly(table, conv);
    }
    var first, last := WindowRefinesThread(table, conv);
    var i :| 0 <= i < |Load(table, conv).rows| && IsMessage(Load(table, conv).rows[i], order);
    k := first + i;
  }

  lemma {:induction false} ProjectionComesFrom(entries: seq<Entry>, k: nat) returns (i: nat)
    requires k < |Projectable(entries)|
    ensures i < |entries| && entries[i] == Projectable(entries)[k]
  {
    var init := entries[..|entries| - 1];
    if k < |Projectable(init)| {
      i := ProjectionComesFrom(init, k);
    } else {
      i := |init|;
    }
  }

  lemma ShownIsRecent(table: seq<Row>, conv: ConvId, order: nat) returns (i: nat)
    requires InWindow(table, conv, order)
    ensures 0 < order <= |table| && IsLeadRow(table[order - 1], conv)
    ensures i < |Recent(Thread(table, conv), WINDOW)| && IsMessage(Recent(Thread(table, conv), WINDOW)[i], order)
  {
    var k := ShownIsCandidate(table, conv, order);
    i := ProjectionComesFrom(Recent(Thread(table, conv), WINDOW), k);
    var offset := RecentIsSuffix(table, conv);
  }

  lemma {:induction false} ProjectionHolds(entries: seq<Entry>, order: nat, i: nat) returns (k: nat)
    requires i < |entries| && IsMessage(entries[i], order)
    ensures k < |Projectable(entries)| && IsMessage(Projectable(entries)[k], order)
  {
    var init := entries[..|entries| - 1];
    if i < |init| {
      k := ProjectionHolds(init, order, i);
    } else {
      k := |Projectable(init)|;
    }
  }

  lemma CandidateIsShown(table: seq<Row>, conv: ConvId, order: nat, k: nat)
    requires LeadInSight(table, conv)
    requires k < |Candidates(table, conv)| && IsMessage(Candidates(table, conv)[k], order)
    ensures InWindow(table, conv, order)
  {
    var first, last := WindowRefinesThread(table, conv);
    assert first <= k <= last;
    assert Load(table, conv).rows[k - first] == Candidates(table, conv)[k];
  }

  lemma RecentHolds(thread: seq<Entry>, at: nat, order: nat)
    requires Ascending(thread) && at < |thread| && IsMessage(thread[at], order)
    ensures (exists i :: 0 <= i < |Recent(thread, WINDOW)| && IsMessage(Recent(thread, WINDOW)[i], order))
            <==> |thread| <= at + WINDOW
  {
    var recent := Recent(thread, WINDOW);
    var offset := |thread| - |recent|;
    assert recent == thread[offset..];
    if |thread| <= at + WINDOW {
      assert IsMessage(recent[at - offset], order);
    }
    if i :| 0 <= i < |recent| && IsMessage(recent[i], order) {
      assert thread[offset + i].order == thread[at].order;
    }
  }

  /** The window shows exactly the visible messages of the lead with fewer than ten newer rows in the thread. */
  lemma WindowShowsExactly(table: seq<Row>, conv: ConvId, order: nat)
    ensures InWindow(table, conv, order)
            <==> 0 < order <= |table| && IsLeadRow(table[order - 1], conv) && Newer(table, conv, order) < WINDOW
  {
    if InWindow(table, conv, order) {
      var i := ShownIsRecent(table, conv, order);
    }
    if 0 < order <= |table| && IsLeadRow(table[order - 1], conv) {
      var at := NewerThanLead(table, conv, order);
      RecentHolds(Thread(table, conv), at, order);
      if Newer(table, conv, order) < WINDOW {
        var i :| 0 <= i < |Recent(Thread(table, conv), WINDOW)| && IsMessage(Recent(Thread(table, conv), WINDOW)[i], order);
        var k := ProjectionHolds(Recent(Thread(table, conv), WINDOW), order, i);
        CandidateIsShown(table, conv, order, k);
      }
    }
  }

  // ---------------------------------------------------------------- frame lemmas

  /** Rows that are not visible lead rows of the thread leave its newest order alone. */
  lemma {:induction false} LatestLeadIgnores(table: seq<Row>, more: seq<Row>, conv: ConvId)
    requires forall i :: 0 <= i < |more| ==> !IsLeadRow(more[i], conv)
    ensures LatestLead(table + more, conv) == LatestLead(table, conv)
  {
    if more == [] {
      assert table + more == table;
    } else {
      var init := more[..|more| - 1];
      assert (table + more)[..|table + more| - 1] == table + init;
      assert (table + more)[|table + more| - 1] == more[|more| - 1];
      LatestLeadIgnores(table, init, conv);
    }
  }

  /** Rows of other threads leave a thread as it is. */
  lemma {:induction false} ThreadIgnores(table: seq<Row>, more: seq<Row>, conv: ConvId)
    requires forall i :: 0 <= i < |more| ==> !InThread(more[i], conv)
    ensures Thread(table + more, conv) == Thread(table, conv)
  {
    if more == [] {
      assert table + more == table;
    } else {
      var init := more[..|more| - 1];
      assert (table + more)[..|table + more| - 1] == table + init;
      assert (table + more)[|table + more| - 1] == more[|more| - 1];
      ThreadIgnores(table, init, conv);
    }
  }

  // ---------------------------------------------------------------- ten later rows

  /** A message followed by `n` operator replies. */
  function Answered(text: string, n: nat): seq<Row> {
    if n == 0 then [Row(0, Lead, text, true)] else Answered(text, n - 1) + [Row(0, Assistant, "ok", true)]
  }

  lemma ThreadStep(table: seq<Row>, row: Row, conv: ConvId)
    requires InThread(row, conv) && row.role != Lead
    ensures Thread(table + [row], conv) == Thread(table, conv) + [Entry(|table| + 1, row.role, row.text)]
    ensures LatestLead(table + [row], conv) == LatestLead(table, conv)
  {
    assert (table + [row])[..|table|] == table;
  }

  lemma {:induction false} AnsweredLead(text: string, n: nat)
    ensures LatestLead(Answered(text, n), 0) == 1
  {
    if n == 0 {
    } else {
      AnsweredLead(text, n - 1);
      ThreadStep(Answered(text, n - 1), Row(0, Assistant, "ok", true), 0);
    }
  }

  predicate OnlyReplies(entries: seq<Entry>) {
    forall i :: 0 <= i < |entries| ==> entries[i].role == Assistant
  }

  lemma {:induction false} ThreadOfAnswered(text: string, n: nat)
    ensures |Thread(Answered(text, n), 0)| == n + 1 && OnlyReplies(Thread(Answered(text, n), 0)[1..])
  {
    if n == 0 {
      ThreadOfOne(text);
    } else {
      var before := Answered(text, n - 1);
      ThreadOfAnswered(text, n - 1);
      ThreadStep(before, Row(0, Assistant, "ok", true), 0);
      RepliesGrow(Thread(before, 0), Entry(|before| + 1, Assistant, "ok"));
    }
  }

  lemma ThreadOfOne(text: string)
    ensures Thread([Row(0, Lead, text, true)], 0) == [Entry(1, Lead, text)]
  {
    assert [Row(0, Lead, text, true)][..0] == [];
  }

  lemma RepliesGrow(entries: seq<Entry>, reply: Entry)
    requires entries != [] && OnlyReplies(entries[1..]) && reply.role == Assistant
    ensures OnlyReplies((entries + [reply])[1..])
  {
    assert (entries + [reply])[1..] == entries[1..] + [reply];
  }

  /** Ten replies after a message hide it: the window is empty although the message is the newest of its lead. */
  lemma TenRepliesHide(text: string)
    ensures LatestLead(Answered(text, WINDOW), 0) == 1 && Load(Answered(text, WINDOW), 0) == Window([], None)
  {
    var table := Answered(text, WINDOW);
    AnsweredLead(text, WINDOW);
    ThreadOfAnswered(text, WINDOW);
    assert OnlyReplies(Recent(Thread(table, 0), WINDOW));
    WindowAgreesExactly(table, 0);
  }
}
