/**
 * Ingestion of WhatsApp messages. A delivered batch is handled in one session that commits at its
 * end, and before that whenever it marks a card with a new extra receipt; what a failure finds
 * uncommitted is lost. The jobs it pushes are visible at once. The provider may deliver a message
 * any number of times.
 */
module Webhook {
  import opened Wrappers
  import opened Sequences

  type Phone = nat
  type ConvId = nat
  type WaId = nat

  datatype Kind = Text | Image | Document | Unsupported

  /**
   * What a photo is to the card of its conversation: possibly the receipt it waits for, or one
   * more after the payment was processed, the first time or with the notice already there.
   */
  datatype Receipt = Awaited | FirstExtra | MoreExtra

  /**
   * A delivered message and what the world answers for it: whether its media can be downloaded,
   * whether it asks not to be contacted and that reply reaches the lead, and what its card makes
   * of a receipt.
   */
  datatype Msg = Msg(
    id: WaId, phone: Phone, kind: Kind, content: Option<string>,
    downloads: bool, optsOut: bool, replied: bool, receipt: Receipt)

  datatype Conv = Conv(phone: Phone, closed: bool)

  datatype Row = LeadRow(conv: ConvId, id: WaId, text: string) | OptOutReply(conv: ConvId)

  datatype Job = Turn(conv: ConvId) | Vision(conv: ConvId, id: WaId)

  datatype State = State(convs: seq<Conv>, rows: seq<Row>, optOuts: set<Phone>, jobs: seq<Job>)

  // ---------------------------------------------------------------- one message

  predicate IsRowOf(row: Row, id: WaId) {
    row.LeadRow? && row.id == id
  }

  predicate Exists(rows: seq<Row>, id: WaId) {
    exists i :: 0 <= i < |rows| && IsRowOf(rows[i], id)
  }

  function LatestOf(convs: seq<Conv>, phone: Phone): (found: Option<ConvId>)
    ensures found.Some? ==> found.value < |convs| && convs[found.value].phone == phone
  {
    if convs == [] then None
    else if convs[|convs| - 1].phone == phone then Some(|convs| - 1)
    else LatestOf(convs[..|convs| - 1], phone)
  }

  /** The latest conversation of the phone, or a new one when there is none or it is closed. */
  function GetOrCreate(convs: seq<Conv>, phone: Phone): (r: (seq<Conv>, ConvId))
    ensures r.1 < |r.0|
  {
    var latest := LatestOf(convs, phone);
    if latest.None? || convs[latest.value].closed then (convs + [Conv(phone, false)], |convs|)
    else (convs, latest.value)
  }

  function StoredText(m: Msg): string {
    match m.kind
    case Image => "[image: " + (if m.content.GetOr("") != "" then m.content.GetOr("") else "sin descripcion") + "]"
    case Document => "[document: " + (if m.content.GetOr("") != "" then m.content.GetOr("") else "sin descripcion") + "]"
    case _ => m.content.GetOr("")
  }

  predicate IsMedia(m: Msg) {
    m.kind == Image || m.kind == Document
  }

  /** The message carries something to store. */
  predicate Storable(m: Msg) {
    m.kind != Unsupported && m.content.Some?
  }

  /** The effect of a message that was not ingested yet; `None` when its media cannot be downloaded. */
  function Ingest(s: State, m: Msg): Option<State> {
    if m.kind == Unsupported || (m.kind == Text && m.content.None?) then Some(s)
    else
      var (convs, conv) := GetOrCreate(s.convs, m.phone);
      var base := s.(convs := convs);
      var row := LeadRow(conv, m.id, StoredText(m));
      if IsMedia(m) then
        if m.content.None? then Some(base)
        else if !m.downloads then None
        else Some(base.(rows := s.rows + [row],
                           jobs := s.jobs + (if m.receipt == Awaited then [Vision(conv, m.id)] else []) + [Turn(conv)]))
      else if m.optsOut then
        Some(base.(rows := s.rows + [row] + (if m.replied then [OptOutReply(conv)] else []),
                      optOuts := s.optOuts + {m.phone}))
      else Some(base.(rows := s.rows + [row], jobs := s.jobs + [Turn(conv)]))
  }

  /** Deduplication comes before anything else. */
  function Handle(s: State, m: Msg): Option<State> {
    if Exists(s.rows, m.id) then Some(s) else Ingest(s, m)
  }

  // ---------------------------------------------------------------- one delivered batch

  /** The messages in order, up to the first that raises. */
  function HandleAll(s: State, batch: seq<Msg>): (State, bool)
    decreases |batch|
  {
    if batch == [] then (s, true)
    else
      var (before, ok) := HandleAll(s, batch[..|batch| - 1]);
      if !ok then (before, false)
      else
        var after := Handle(before, batch[|batch| - 1]);
        if after.None? then (before, false) else (after.value, true)
  }

  /** The message is stored as the first extra receipt of its card, whose notice commits the session. */
  predicate Commits(s: State, m: Msg) {
    IsMedia(m) && m.content.Some? && m.downloads && m.receipt == FirstExtra && !Exists(s.rows, m.id)
  }

  /** How many messages of the batch were handled at the last commit before its end. */
  function Committed(s: State, batch: seq<Msg>): (n: nat)
    ensures n <= |batch| && HandleAll(s, batch[..n]).1
    ensures n == 0 || Commits(HandleAll(s, batch[..n - 1]).0, batch[n - 1])
    decreases |batch|
  {
    if batch == [] then 0
    else
      var init, last := batch[..|batch| - 1], batch[|batch| - 1];
      var (before, ok) := HandleAll(s, init);
      assert batch[..|batch|] == batch;
      if ok && Commits(before, last) then |batch|
      else
        var n := Committed(s, init);
        assert batch[..n] == init[..n] && (n > 0 ==> batch[..n - 1] == init[..n - 1]);
        n
  }

  /** The part of the batch that stays: all of it, or what a failure finds committed. */
  function Lasting(s: State, batch: seq<Msg>): seq<Msg> {
    if HandleAll(s, batch).1 then batch else batch[..Committed(s, batch)]
  }

  /** The jobs pushed before a failure stay whatever becomes of the rows; the provider is answered 200 either way. */
  function Delivered(s: State, batch: seq<Msg>): State {
    HandleAll(s, Lasting(s, batch)).0.(jobs := HandleAll(s, batch).0.jobs)
  }

  class Service {
    var convs: seq<Conv>
    var rows: seq<Row>
    var optOuts: set<Phone>
    var jobs: seq<Job>
    // what the database holds; the fields above are what the session sees
    var storedConvs: seq<Conv>
    var storedRows: seq<Row>
    var storedOptOuts: set<Phone>

    ghost function Now(): State
      reads this
    {
      State(convs, rows, optOuts, jobs)
    }

    ghost function Stored(): State
      reads this
    {
      State(storedConvs, storedRows, storedOptOuts, jobs)
    }

    constructor ()
      ensures Now() == Stored() == State([], [], {}, [])
    {
      convs, rows, optOuts, jobs := [], [], {}, [];
      storedConvs, storedRows, storedOptOuts := [], [], {};
    }

    method Commit()
      modifies this`storedConvs, this`storedRows, this`storedOptOuts
      ensures Stored() == Now()
    {
      storedConvs, storedRows, storedOptOuts := convs, rows, optOuts;
    }

    method Rollback()
      modifies this`convs, this`rows, this`optOuts
      ensures Now() == Stored() == old(Stored())
    {
      convs, rows, optOuts := storedConvs, storedRows, storedOptOuts;
    }

    method FindOrCreate(phone: Phone) returns (conv: ConvId)
      modifies this`convs
      ensures (convs, conv) == GetOrCreate(old(convs), phone)
    {
      var latest := LatestOf(convs, phone);
      if latest.None? || convs[latest.value].closed {
        conv := |convs|;
        convs := convs + [Conv(phone, false)];
      } else {
        conv := latest.value;
      }
    }

    method HandleText(m: Msg)
      requires m.kind == Text && m.content.Some?
      modifies this`convs, this`rows, this`optOuts, this`jobs
      ensures Some(Now()) == Ingest(old(Now()), m)
      ensures |rows| > |old(rows)| && rows[..|old(rows)|] == old(rows)
      ensures var row := rows[|old(rows)|];
              && row.LeadRow? && row.id == m.id && row.text == m.content.value
              && row.conv < |convs| && convs[row.conv].phone == m.phone
              && jobs == old(jobs) + (if m.optsOut then [] else [Turn(row.conv)])
      ensures optOuts == old(optOuts) + if m.optsOut then {m.phone} else {}
    {
      var conv := FindOrCreate(m.phone);
      rows := rows + [LeadRow(conv, m.id, m.content.value)];
      if m.optsOut {
        optOuts := optOuts + {m.phone};
        assert rows + [] == rows;
        if m.replied {
          rows := rows + [OptOutReply(conv)];
        }
        return;
      }
      jobs := jobs + [Turn(conv)];
    }

    /** False when the download raises. A new extra receipt commits what was handled so far. */
    method HandleMedia(m: Msg) returns (ok: bool)
      requires IsMedia(m) && !Exists(rows, m.id)
      modifies this
      ensures ok ==> Some(Now()) == Ingest(old(Now()), m)
      ensures !ok ==> Ingest(old(Now()), m).None? && jobs == old(jobs)
      ensures Stored() == if Commits(old(Now()), m) then Now() else old(Stored()).(jobs := jobs)
    {
      var conv := FindOrCreate(m.phone);
      if m.content.None? {
        return true;
      }
      if !m.downloads {
        return false;
      }
      rows := rows + [LeadRow(conv, m.id, StoredText(m))];
      var extra := m.receipt != Awaited;
      if m.receipt == FirstExtra {
        Commit();
      }
      assert jobs + [] == jobs;
      if !extra {
        jobs := jobs + [Vision(conv, m.id)];
      }
      jobs := jobs + [Turn(conv)];
      return true;
    }

    method HandleMessage(m: Msg) returns (ok: bool)
      modifies this
      ensures ok ==> Some(Now()) == Handle(old(Now()), m)
      ensures !ok ==> Handle(old(Now()), m).None? && jobs == old(jobs)
      ensures Stored() == if Commits(old(Now()), m) then Now() else old(Stored()).(jobs := jobs)
    {
      ok := true;
      if Exists(rows, m.id) {
        return;
      }
      if m.kind == Text && m.content.Some? {
        HandleText(m);
      } else if IsMedia(m) {
        ok := HandleMedia(m);
      }
    }

    /** What the database holds while the batch is being handled. */
    ghost predicate Handled(before: State, batch: seq<Msg>, i: nat)
      reads this
      requires i <= |batch|
    {
      && HandleAll(before, batch[..i]) == (Now(), true)
      && Stored() == HandleAll(before, batch[..Committed(before, batch[..i])]).0.(jobs := jobs)
    }

    /** One delivered batch: handled message by message, committed at the end or rolled back where it raised. */
    method Receive(batch: seq<Msg>) returns (ok: bool)
      requires Now() == Stored()
      modifies this
      ensures Now() == Stored() == Delivered(old(Now()), batch)
      ensures ok == HandleAll(old(Now()), batch).1
    {
      ghost var before := Now();
      var i := 0;
      while i < |batch|
        invariant i <= |batch| && Handled(before, batch, i)
      {
        StepOfBatch(before, batch, i);
        ok := HandleMessage(batch[i]);
        i := i + 1;
        if !ok {
          FailureStays(before, batch, i);
          FailureCommits(before, batch, i);
          Rollback();
          return;
        }
      }
      assert batch[..|batch|] == batch;
      Commit();
      return true;
    }
  }

  /** One more message: what is handled, and what is committed by then. */
  lemma StepOfBatch(s: State, batch: seq<Msg>, i: nat)
    requires i < |batch| && HandleAll(s, batch[..i]).1
    ensures var before := HandleAll(s, batch[..i]).0;
            && HandleAll(s, batch[..i + 1]) == (match Handle(before, batch[i]) case Some(after) => (after, true) case None => (before, false))
            && Committed(s, batch[..i + 1]) == if Commits(before, batch[i]) then i + 1 else Committed(s, batch[..i])
  {
    assert batch[..i + 1][..i] == batch[..i];
  }

  lemma {:induction false} FailureCommits(s: State, batch: seq<Msg>, n: nat)
    requires n <= |batch| && !HandleAll(s, batch[..n]).1
    ensures Committed(s, batch) == Committed(s, batch[..n])
    decreases |batch| - n
  {
    if n == |batch| {
      assert batch[..n] == batch;
    } else {
      assert batch[..n + 1][..n] == batch[..n];
      FailureCommits(s, batch, n + 1);
    }
  }

  lemma {:induction false} FailureStays(s: State, batch: seq<Msg>, n: nat)
    requires n <= |batch| && !HandleAll(s, batch[..n]).1
    ensures HandleAll(s, batch) == HandleAll(s, batch[..n])
    decreases |batch| - n
  {
    if n == |batch| {
      assert batch[..n] == batch;
    } else {
      assert batch[..n + 1][..n] == batch[..n];
      FailureStays(s, batch, n + 1);
    }
  }

  // ---------------------------------------------------------------- what is stored

  /** The ids of the lead's rows, in the order of the table. */
  function Ids(rows: seq<Row>): seq<WaId> {
    if rows == [] then []
    else
      var last := rows[|rows| - 1];
      Ids(rows[..|rows| - 1]) + (if last.LeadRow? then [last.id] else [])
  }

  /** The ids of the messages worth storing, in order of arrival. */
  function StorableIds(batch: seq<Msg>): seq<WaId> {
    if batch == [] then []
    else
      var last := batch[|batch| - 1];
      StorableIds(batch[..|batch| - 1]) + (if Storable(last) then [last.id] else [])
  }

  lemma {:induction false} ExistsIffId(rows: seq<Row>, id: WaId)
    ensures Exists(rows, id) <==> id in Ids(rows)
  {
    if rows != [] {
      var init, last := rows[..|rows| - 1], rows[|rows| - 1];
      ExistsIffId(init, id);
      if Exists(init, id) {
        var i :| 0 <= i < |init| && IsRowOf(init[i], id);
        assert IsRowOf(rows[i], id);
      }
      if Exists(rows, id) {
        var i :| 0 <= i < |rows| && IsRowOf(rows[i], id);
        assert i < |init| ==> IsRowOf(init[i], id);
      }
    }
  }

  lemma IdsStep(rows: seq<Row>, row: Row)
    ensures Ids(rows + [row]) == Ids(rows) + (if row.LeadRow? then [row.id] else [])
  {
    assert (rows + [row])[..|rows|] == rows;
  }

  /** A message that is handled leaves its id stored, once, at the end, if it was worth storing and new. */
  lemma HandleStores(s: State, m: Msg)
    requires Handle(s, m).Some?
    ensures var t := Handle(s, m).value;
            Ids(t.rows) == Ids(s.rows) + (if Storable(m) && m.id !in Ids(s.rows) then [m.id] else [])
  {
    ExistsIffId(s.rows, m.id);
    if !Exists(s.rows, m.id) && Storable(m) {
      var conv := GetOrCreate(s.convs, m.phone).1;
      var row := LeadRow(conv, m.id, StoredText(m));
      IdsStep(s.rows, row);
      IdsStep(s.rows + [row], OptOutReply(conv));
      assert s.rows + [row] + [] == s.rows + [row];
    }
  }

  lemma HandleStoresFirst(s: State, m: Msg, arrived: seq<WaId>)
    requires Handle(s, m).Some? && Ids(s.rows) == FirstOccurrences(arrived)
    ensures Ids(Handle(s, m).value.rows) == FirstOccurrences(arrived + (if Storable(m) then [m.id] else []))
  {
    HandleStores(s, m);
    if Storable(m) {
      FirstOccurrencesStep(arrived, m.id);
    } else {
      assert arrived + [] == arrived;
    }
  }

  lemma BatchStep(s: State, batch: seq<Msg>, earlier: seq<WaId>)
    requires batch != [] && HandleAll(s, batch).1
    ensures var init, last := batch[..|batch| - 1], batch[|batch| - 1];
            && HandleAll(s, init).1 && Handle(HandleAll(s, init).0, last).Some?
            && HandleAll(s, batch).0 == Handle(HandleAll(s, init).0, last).value
            && earlier + StorableIds(batch) == earlier + StorableIds(init) + (if Storable(last) then [last.id] else [])
  {
  }

  lemma {:induction false} BatchStores(s: State, earlier: seq<WaId>, batch: seq<Msg>)
    requires Ids(s.rows) == FirstOccurrences(earlier)
    requires HandleAll(s, batch).1
    ensures Ids(HandleAll(s, batch).0.rows) == FirstOccurrences(earlier + StorableIds(batch))
    decreases |batch|
  {
    if batch == [] {
      assert earlier + [] == earlier;
    } else {
      var init, last := batch[..|batch| - 1], batch[|batch| - 1];
      BatchStep(s, batch, earlier);
      var ids := earlier + StorableIds(init);
      BatchStores(s, earlier, init);
      HandleStoresFirst(HandleAll(s, init).0, last, ids);
    }
  }

  // ---------------------------------------------------------------- over deliveries

  /** Batches delivered one after the other, with the board closing and reopening conversations in between. */
  datatype Step = Batch(msgs: seq<Msg>) | Board(closed: seq<bool>)

  function Reclosed(convs: seq<Conv>, closed: seq<bool>): seq<Conv> {
    seq(|convs|, i requires 0 <= i < |convs| => if i < |closed| then convs[i].(closed := closed[i]) else convs[i])
  }

  function Do(s: State, step: Step): State {
    match step
    case Batch(msgs) => Delivered(s, msgs)
    case Board(closed) => s.(convs := Reclosed(s.convs, closed))
  }

  function Exec(s: State, run: seq<Step>): State
    decreases |run|
  {
    if run == [] then s else Do(Exec(s, run[..|run| - 1]), run[|run| - 1])
  }

  /** The ids worth storing of what was committed, in order of arrival. */
  function Arrived(s: State, run: seq<Step>): seq<WaId>
    decreases |run|
  {
    if run == [] then []
    else
      var init, last := run[..|run| - 1], run[|run| - 1];
      Arrived(s, init) + (if last.Batch? then StorableIds(Lasting(Exec(s, init), last.msgs)) else [])
  }

  const EMPTY: State := State([], [], {}, [])

  /**
   * Under any failures and retries, the stored rows of leads are exactly the first occurrences
   * of the messages worth storing among those committed, in order of arrival, each id once.
   */
  lemma {:induction false} StoredAreFirstOccurrences(run: seq<Step>)
    ensures Ids(Exec(EMPTY, run).rows) == FirstOccurrences(Arrived(EMPTY, run))
    ensures Distinct(Ids(Exec(EMPTY, run).rows))
    ensures forall p, q :: 0 <= p < q < |Ids(Exec(EMPTY, run).rows)| ==>
              StoredBefore(Arrived(EMPTY, run), Ids(Exec(EMPTY, run).rows)[p], Ids(Exec(EMPTY, run).rows)[q])
    decreases |run|
  {
    FirstOccurrencesIsASet(Arrived(EMPTY, run));
    if run != [] {
      var init, last := run[..|run| - 1], run[|run| - 1];
      StoredAreFirstOccurrences(init);
      if last.Batch? {
        LastingSucceeds(Exec(EMPTY, init), last.msgs);
        BatchStores(Exec(EMPTY, init), Arrived(EMPTY, init), Lasting(Exec(EMPTY, init), last.msgs));
      } else {
        assert Arrived(EMPTY, run) == Arrived(EMPTY, init);
      }
    }
    forall p, q | 0 <= p < q < |FirstOccurrences(Arrived(EMPTY, run))|
      ensures StoredBefore(Arrived(EMPTY, run), FirstOccurrences(Arrived(EMPTY, run))[p], FirstOccurrences(Arrived(EMPTY, run))[q])
    {
      FirstOccurrencesKeepOrder(Arrived(EMPTY, run), p, q);
    }
  }

  /** Both arrived, the first one before. */
  predicate StoredBefore(arrived: seq<WaId>, first: WaId, second: WaId) {
    first in arrived && second in arrived && FirstIndex(arrived, first) < FirstIndex(arrived, second)
  }

  lemma LastingSucceeds(s: State, batch: seq<Msg>)
    ensures HandleAll(s, Lasting(s, batch)).1 && |Lasting(s, batch)| <= |batch|
    ensures Lasting(s, batch) == batch[..|Lasting(s, batch)|]
  {
    assert batch[..|batch|] == batch;
  }

  // ---------------------------------------------------------------- whose words are stored

  /** A stored message as its reader sees it: the id, the text and the phone of its conversation. */
  datatype Stored = Stored(id: WaId, text: string, phone: Phone)

  /** Every row hangs from a conversation. */
  predicate Linked(s: State) {
    forall i :: 0 <= i < |s.rows| && s.rows[i].LeadRow? ==> s.rows[i].conv < |s.convs|
  }

  function Contents(rows: seq<Row>, convs: seq<Conv>): seq<Stored> {
    if rows == [] then []
    else
      var last := rows[|rows| - 1];
      Contents(rows[..|rows| - 1], convs)
      + (if last.LeadRow? && last.conv < |convs| then [Stored(last.id, last.text, convs[last.conv].phone)] else [])
  }

  predicate HasId(stored: seq<Stored>, id: WaId) {
    exists i :: 0 <= i < |stored| && stored[i].id == id
  }

  /** The first of the messages with each id, as it deserves to be stored. */
  function FirstById(msgs: seq<Msg>): seq<Stored> {
    if msgs == [] then []
    else
      var before, last := FirstById(msgs[..|msgs| - 1]), msgs[|msgs| - 1];
      if Storable(last) && !HasId(before, last.id) then before + [Stored(last.id, StoredText(last), last.phone)]
      else before
  }

  /** Conversations are never removed and keep their phone. */
  predicate SamePhones(before: seq<Conv>, after: seq<Conv>) {
    |before| <= |after| && forall i :: 0 <= i < |before| ==> after[i].phone == before[i].phone
  }

  lemma {:induction false} ContentsStay(rows: seq<Row>, before: seq<Conv>, after: seq<Conv>)
    requires SamePhones(before, after)
    requires forall i :: 0 <= i < |rows| && rows[i].LeadRow? ==> rows[i].conv < |before|
    ensures Contents(rows, after) == Contents(rows, before)
  {
    if rows != [] {
      ContentsStay(rows[..|rows| - 1], before, after);
    }
  }

  lemma ContentsStep(rows: seq<Row>, row: Row, convs: seq<Conv>)
    ensures Contents(rows + [row], convs)
            == Contents(rows, convs) + (if row.LeadRow? && row.conv < |convs| then [Stored(row.id, row.text, convs[row.conv].phone)] else [])
  {
    assert (rows + [row])[..|rows|] == rows;
  }

  lemma {:induction false} ContentsHaveIds(rows: seq<Row>, convs: seq<Conv>, id: WaId)
    requires forall i :: 0 <= i < |rows| && rows[i].LeadRow? ==> rows[i].conv < |convs|
    ensures HasId(Contents(rows, convs), id) <==> Exists(rows, id)
  {
    if rows != [] {
      var init, last := rows[..|rows| - 1], rows[|rows| - 1];
      ContentsHaveIds(init, convs, id);
      HasIdGrows(Contents(init, convs), Contents(rows, convs), id);
      ExistsGrows(init, last, id);
      assert rows == init + [last];
    }
  }

  lemma HasIdGrows(before: seq<Stored>, after: seq<Stored>, id: WaId)
    requires before <= after && |after| <= |before| + 1
    ensures HasId(after, id) <==> HasId(before, id) || (|after| > |before| && after[|before|].id == id)
  {
    if HasId(before, id) {
      var i :| 0 <= i < |before| && before[i].id == id;
      assert after[i].id == id;
    }
  }

  lemma ExistsGrows(rows: seq<Row>, row: Row, id: WaId)
    ensures Exists(rows + [row], id) <==> Exists(rows, id) || IsRowOf(row, id)
  {
    var more := rows + [row];
    if Exists(rows, id) {
      var i :| 0 <= i < |rows| && IsRowOf(rows[i], id);
      assert IsRowOf(more[i], id);
    }
    assert more[|rows|] == row;
  }

  lemma FoundHasPhone(convs: seq<Conv>, phone: Phone)
    ensures var (after, conv) := GetOrCreate(convs, phone);
            SamePhones(convs, after) && after[conv].phone == phone
  {
  }

  /** The rows a new message leaves: its own and, for an opt-out that was answered, the reply. */
  lemma IngestedRows(s: State, m: Msg)
    requires Storable(m) && Ingest(s, m).Some?
    ensures var t, (convs, conv) := Ingest(s, m).value, GetOrCreate(s.convs, m.phone);
            && t.convs == convs
            && var row := LeadRow(conv, m.id, StoredText(m));
               t.rows == s.rows + [row] || t.rows == s.rows + [row] + [OptOutReply(conv)]
  {
    var conv := GetOrCreate(s.convs, m.phone).1;
    var row := LeadRow(conv, m.id, StoredText(m));
    assert s.rows + [row] + [] == s.rows + [row];
  }

  lemma IngestStoresWords(s: State, m: Msg)
    requires Linked(s) && Storable(m) && Ingest(s, m).Some?
    ensures var t := Ingest(s, m).value;
            && Linked(t) && SamePhones(s.convs, t.convs)
            && Contents(t.rows, t.convs) == Contents(s.rows, s.convs) + [Stored(m.id, StoredText(m), m.phone)]
  {
    var t, conv := Ingest(s, m).value, GetOrCreate(s.convs, m.phone).1;
    FoundHasPhone(s.convs, m.phone);
    IngestedRows(s, m);
    ContentsStay(s.rows, s.convs, t.convs);
    var row := LeadRow(conv, m.id, StoredText(m));
    ContentsStep(s.rows, row, t.convs);
    ContentsStep(s.rows + [row], OptOutReply(conv), t.convs);
  }

  /** A new message worth storing leaves its own words under its own phone. */
  lemma HandleStoresWords(s: State, m: Msg)
    requires Linked(s) && Handle(s, m).Some?
    ensures var t := Handle(s, m).value;
            && Linked(t) && SamePhones(s.convs, t.convs)
            && Contents(t.rows, t.convs) == Contents(s.rows, s.convs)
               + (if Storable(m) && !HasId(Contents(s.rows, s.convs), m.id)
                  then [Stored(m.id, StoredText(m), m.phone)] else [])
  {
    ContentsHaveIds(s.rows, s.convs, m.id);
    if !Exists(s.rows, m.id) {
      if Storable(m) {
        IngestStoresWords(s, m);
      } else {
        FoundHasPhone(s.convs, m.phone);
        ContentsStay(s.rows, s.convs, Ingest(s, m).value.convs);
      }
    }
  }

  /** The messages that were committed, in order of arrival. */
  function ArrivedMsgs(s: State, run: seq<Step>): seq<Msg>
    decreases |run|
  {
    if run == [] then []
    else
      var init, last := run[..|run| - 1], run[|run| - 1];
      ArrivedMsgs(s, init) + (if last.Batch? then Lasting(Exec(s, init), last.msgs) else [])
  }

  lemma FirstByIdStep(msgs: seq<Msg>, m: Msg)
    ensures FirstById(msgs + [m])
            == FirstById(msgs)
               + (if Storable(m) && !HasId(FirstById(msgs), m.id) then [Stored(m.id, StoredText(m), m.phone)] else [])
  {
    assert (msgs + [m])[..|msgs|] == msgs;
  }

  lemma {:induction false} BatchStoresWords(s: State, earlier: seq<Msg>, batch: seq<Msg>)
    requires Linked(s) && Contents(s.rows, s.convs) == FirstById(earlier) && HandleAll(s, batch).1
    ensures var t := HandleAll(s, batch).0;
            Linked(t) && Contents(t.rows, t.convs) == FirstById(earlier + batch)
    decreases |batch|
  {
    if batch == [] {
      assert earlier + batch == earlier;
    } else {
      var init, last := batch[..|batch| - 1], batch[|batch| - 1];
      BatchStep(s, batch, []);
      BatchStoresWords(s, earlier, init);
      HandleStoresWords(HandleAll(s, init).0, last);
      SplitLast(earlier, batch);
      FirstByIdStep(earlier + init, last);
    }
  }

  /**
   * Under any failures and retries, and however conversations are closed and reopened meanwhile: the
   * stored rows are, in order, the first message of each id among the committed ones, each with its own
   * text and under a conversation of its own phone.
   */
  lemma {:induction false} StoredWordsAreFirst(run: seq<Step>)
    ensures var s := Exec(EMPTY, run);
            Linked(s) && Contents(s.rows, s.convs) == FirstById(ArrivedMsgs(EMPTY, run))
    decreases |run|
  {
    if run != [] {
      var init, last := run[..|run| - 1], run[|run| - 1];
      var before := Exec(EMPTY, init);
      StoredWordsAreFirst(init);
      if last.Board? {
        ContentsStay(before.rows, before.convs, Reclosed(before.convs, last.closed));
        assert ArrivedMsgs(EMPTY, run) == ArrivedMsgs(EMPTY, init);
      } else {
        LastingSucceeds(before, last.msgs);
        BatchStoresWords(before, ArrivedMsgs(EMPTY, init), Lasting(before, last.msgs));
      }
    }
  }

  // ---------------------------------------------------------------- retries

  lemma {:induction false} HandleAllKeepsIds(s: State, batch: seq<Msg>, id: WaId)
    requires id in Ids(s.rows)
    ensures id in Ids(HandleAll(s, batch).0.rows)
    decreases |batch|
  {
    if batch != [] {
      var init, last := batch[..|batch| - 1], batch[|batch| - 1];
      HandleAllKeepsIds(s, init, id);
      if HandleAll(s, batch).1 {
        HandleStores(HandleAll(s, init).0, last);
      }
    }
  }

  lemma {:induction false} RunsKeepIds(s: State, run: seq<Step>, id: WaId)
    requires id in Ids(s.rows)
    ensures id in Ids(Exec(s, run).rows)
    decreases |run|
  {
    if run != [] {
      var init, last := run[..|run| - 1], run[|run| - 1];
      RunsKeepIds(s, init, id);
      if last.Batch? {
        HandleAllKeepsIds(Exec(s, init), Lasting(Exec(s, init), last.msgs), id);
      }
    }
  }

  lemma {:induction false} CommittedAreStored(s: State, batch: seq<Msg>, k: nat)
    requires HandleAll(s, batch).1 && k < |batch| && Storable(batch[k])
    ensures batch[k].id in Ids(HandleAll(s, batch).0.rows)
    decreases |batch|
  {
    var init, last := batch[..|batch| - 1], batch[|batch| - 1];
    BatchStep(s, batch, []);
    HandleStores(HandleAll(s, init).0, last);
    if k < |init| {
      assert init[k] == batch[k];
      CommittedAreStored(s, init, k);
    }
  }

  /** Each of these messages is already stored, or leaves no trace at all. */
  predicate AllIdle(s: State, batch: seq<Msg>) {
    forall k :: 0 <= k < |batch| ==> batch[k].id in Ids(s.rows) || (!IsMedia(batch[k]) && !Storable(batch[k]))
  }

  lemma {:induction false} IdleBatchDoesNothing(s: State, batch: seq<Msg>)
    requires AllIdle(s, batch)
    ensures Delivered(s, batch) == s && HandleAll(s, batch) == (s, true)
    decreases |batch|
  {
    if batch != [] {
      IdleBatchDoesNothing(s, batch[..|batch| - 1]);
      ExistsIffId(s.rows, batch[|batch| - 1].id);
    }
  }

  /**
   * A retry of a committed batch, after whatever else was delivered and however the
   * conversations were closed meanwhile, creates no conversation, no row and no job. Only media
   * without payload is left aside: `RetryIsSilentExactly` and `PayloadlessRetryCreates` treat it.
   */
  lemma RetryDoesNothing(s: State, batch: seq<Msg>, between: seq<Step>)
    requires HandleAll(s, batch).1
    requires forall k :: 0 <= k < |batch| && IsMedia(batch[k]) ==> batch[k].content.Some?
    ensures Delivered(Exec(Delivered(s, batch), between), batch) == Exec(Delivered(s, batch), between)
  {
    var t := Exec(Delivered(s, batch), between);
    forall k | 0 <= k < |batch| && Storable(batch[k]) ensures batch[k].id in Ids(t.rows) {
      CommittedAreStored(s, batch, k);
      RunsKeepIds(Delivered(s, batch), between, batch[k].id);
    }
    IdleBatchDoesNothing(t, batch);
  }

  /**
   * One more delivery of a message changes nothing exactly when it is already stored, is of no
   * supported kind, or is a media message without payload whose lead has an open conversation
   * (only such a message leaves no trace to recognise it by).
   */
  lemma RetryIsSilentExactly(s: State, m: Msg)
    requires Handle(s, m).Some?
    ensures Handle(s, m) == Some(s)
            <==> || m.id in Ids(s.rows)
                 || m.kind == Unsupported || (m.kind == Text && m.content.None?)
                 || (IsMedia(m) && m.content.None? && GetOrCreate(s.convs, m.phone).0 == s.convs)
  {
    ExistsIffId(s.rows, m.id);
    if !Exists(s.rows, m.id) && Storable(m) {
      HandleStores(s, m);
      assert |Ids(Handle(s, m).value.rows)| > |Ids(s.rows)|;
    }
  }

  /** A photo without payload, delivered, its lead closed, delivered again: two conversations for one message. */
  lemma PayloadlessRetryCreates()
    ensures var m := Msg(1, 5, Image, None, true, false, false, Awaited);
            && Exec(EMPTY, [Batch([m])]).convs == [Conv(5, false)]
            && Exec(EMPTY, [Batch([m]), Board([true]), Batch([m])]).convs == [Conv(5, true), Conv(5, false)]
  {
    var m := Msg(1, 5, Image, None, true, false, false, Awaited);
    var run := [Batch([m]), Board([true]), Batch([m])];
    assert run[..2] == [Batch([m]), Board([true])] && run[..2][..1] == [Batch([m])] && run[..1][..0] == [];
    OneMessageBatch(EMPTY, m);
    var once := State([Conv(5, false)], [], {}, []);
    FirstContact(5);
    assert Handle(EMPTY, m) == Some(once);
    assert Exec(EMPTY, [Batch([m])]) == once;
    assert Reclosed(once.convs, [true]) == [Conv(5, true)];
    var closed := State([Conv(5, true)], [], {}, []);
    assert Exec(EMPTY, run[..2]) == closed;
    OneMessageBatch(closed, m);
    SecondContact(5);
  }

  lemma FirstContact(phone: Phone)
    ensures GetOrCreate([], phone) == ([Conv(phone, false)], 0)
  {
    assert LatestOf([], phone).None?;
    assert [] + [Conv(phone, false)] == [Conv(phone, false)];
  }

  lemma SecondContact(phone: Phone)
    ensures GetOrCreate([Conv(phone, true)], phone) == ([Conv(phone, true), Conv(phone, false)], 1)
  {
    assert LatestOf([Conv(phone, true)], phone) == Some(0);
    assert [Conv(phone, true)] + [Conv(phone, false)] == [Conv(phone, true), Conv(phone, false)];
  }

  lemma OneMessageBatch(s: State, m: Msg)
    ensures Delivered(s, [m]) == if Handle(s, m).Some? then Handle(s, m).value else s
  {
    assert [m][..0] == [];
    assert HandleAll(s, []) == (s, true);
  }

  // ---------------------------------------------------------------- failures

  /** The message is a media to be stored that was not ingested before it and cannot be downloaded. */
  predicate Breaks(s: State, batch: seq<Msg>, k: nat)
    requires k < |batch|
  {
    && IsMedia(batch[k]) && batch[k].content.Some? && !batch[k].downloads && batch[k].id !in Ids(s.rows)
    && forall j :: 0 <= j < k ==> !SameMessage(batch[j], batch[k].id)
  }

  predicate SameMessage(m: Msg, id: WaId) {
    Storable(m) && m.id == id
  }

  lemma {:induction false} IdsAfterBatch(s: State, batch: seq<Msg>, id: WaId)
    requires HandleAll(s, batch).1
    ensures id in Ids(HandleAll(s, batch).0.rows)
            <==> id in Ids(s.rows) || exists j :: 0 <= j < |batch| && SameMessage(batch[j], id)
    decreases |batch|
  {
    if batch != [] {
      var init, last := batch[..|batch| - 1], batch[|batch| - 1];
      BatchStep(s, batch, []);
      IdsAfterBatch(s, init, id);
      HandleStores(HandleAll(s, init).0, last);
      OneMoreMessage(init, last, id);
      assert init + [last] == batch;
    }
  }

  lemma OneMoreMessage(init: seq<Msg>, last: Msg, id: WaId)
    ensures (exists j :: 0 <= j < |init + [last]| && SameMessage((init + [last])[j], id))
            <==> (exists j :: 0 <= j < |init| && SameMessage(init[j], id)) || SameMessage(last, id)
  {
    var batch := init + [last];
    if j :| 0 <= j < |init| && SameMessage(init[j], id) {
      assert SameMessage(batch[j], id);
    }
    if SameMessage(last, id) {
      assert SameMessage(batch[|init|], id);
    }
  }

  lemma LastRaisesExactly(s: State, batch: seq<Msg>)
    requires batch != [] && HandleAll(s, batch[..|batch| - 1]).1
    ensures HandleAll(s, batch).1 <==> !Breaks(s, batch, |batch| - 1)
  {
    var init, last := batch[..|batch| - 1], batch[|batch| - 1];
    var before := HandleAll(s, init).0;
    IdsAfterBatch(s, init, last.id);
    ExistsIffId(before.rows, last.id);
    assert forall j :: 0 <= j < |init| ==> init[j] == batch[j];
    if exists j :: 0 <= j < |init| && SameMessage(init[j], last.id) {
      var j :| 0 <= j < |init| && SameMessage(init[j], last.id);
      assert SameMessage(batch[j], last.id);
    }
  }

  /** A batch goes through exactly when none of its messages breaks it. */
  lemma {:induction false} BatchSucceedsExactly(s: State, batch: seq<Msg>)
    ensures HandleAll(s, batch).1 <==> forall k :: 0 <= k < |batch| ==> !Breaks(s, batch, k)
    decreases |batch|
  {
    if batch != [] {
      var init := batch[..|batch| - 1];
      BatchSucceedsExactly(s, init);
      forall k | 0 <= k < |init| ensures Breaks(s, batch, k) <==> Breaks(s, init, k) {
        assert forall j :: 0 <= j < k ==> init[j] == batch[j];
      }
      if HandleAll(s, init).1 {
        LastRaisesExactly(s, batch);
      } else {
        var k :| 0 <= k < |init| && Breaks(s, init, k);
        assert Breaks(s, batch, k);
      }
    }
  }

  /** The message is new media that downloads and is the first extra receipt of its card: its notice commits. */
  predicate CommitsAt(s: State, batch: seq<Msg>, k: nat)
    requires k < |batch|
  {
    && IsMedia(batch[k]) && batch[k].content.Some? && batch[k].downloads && batch[k].receipt == FirstExtra
    && batch[k].id !in Ids(s.rows)
    && forall j :: 0 <= j < k ==> !SameMessage(batch[j], batch[k].id)
  }

  lemma CommitsExactly(s: State, batch: seq<Msg>, k: nat)
    requires k < |batch| && HandleAll(s, batch[..k]).1
    ensures Commits(HandleAll(s, batch[..k]).0, batch[k]) <==> CommitsAt(s, batch, k)
  {
    var init := batch[..k];
    IdsAfterBatch(s, init, batch[k].id);
    ExistsIffId(HandleAll(s, init).0.rows, batch[k].id);
    if j :| 0 <= j < |init| && SameMessage(init[j], batch[k].id) {
      assert SameMessage(batch[j], batch[k].id);
    }
    forall j | 0 <= j < k ensures SameMessage(batch[j], batch[k].id) == SameMessage(init[j], batch[k].id) {
    }
  }

  /** No message of the batch breaks it before the `n`th. */
  predicate SafeUntil(s: State, batch: seq<Msg>, n: nat)
    requires n <= |batch|
  {
    forall k :: 0 <= k < n ==> !Breaks(s, batch, k)
  }

  lemma SafePrefixSucceeds(s: State, batch: seq<Msg>, n: nat)
    requires n <= |batch|
    ensures HandleAll(s, batch[..n]).1 <==> SafeUntil(s, batch, n)
  {
    BatchSucceedsExactly(s, batch[..n]);
    forall k | 0 <= k < n ensures Breaks(s, batch, k) <==> Breaks(s, batch[..n], k) {
      assert forall j :: 0 <= j < k ==> batch[..n][j] == batch[j];
    }
  }

  /** `n` messages are committed when the `b`th breaks the batch: up to the last one that commits. */
  predicate CommittedUpTo(s: State, batch: seq<Msg>, n: nat, b: nat)
    requires b <= |batch|
  {
    && n <= b && (n > 0 ==> CommitsAt(s, batch, n - 1))
    && forall k :: n <= k < b ==> !CommitsAt(s, batch, k)
  }

  lemma {:induction false} CommittedIsLast(s: State, batch: seq<Msg>, b: nat)
    requires b <= |batch| && SafeUntil(s, batch, b)
    ensures CommittedUpTo(s, batch, Committed(s, batch[..b]), b)
    decreases b
  {
    if b > 0 {
      CommittedIsLast(s, batch, b - 1);
      CommittedStep(s, batch, b - 1);
      UpToStep(s, batch, Committed(s, batch[..b - 1]), b - 1);
    } else {
      assert batch[..0] == [];
    }
  }

  lemma UpToStep(s: State, batch: seq<Msg>, n: nat, i: nat)
    requires i < |batch| && CommittedUpTo(s, batch, n, i)
    ensures CommittedUpTo(s, batch, if CommitsAt(s, batch, i) then i + 1 else n, i + 1)
  {
  }

  lemma CommittedStep(s: State, batch: seq<Msg>, i: nat)
    requires i < |batch| && SafeUntil(s, batch, i)
    ensures Committed(s, batch[..i + 1]) == if CommitsAt(s, batch, i) then i + 1 else Committed(s, batch[..i])
  {
    SafePrefixSucceeds(s, batch, i);
    StepOfBatch(s, batch, i);
    CommitsExactly(s, batch, i);
  }

  /**
   * What a failed batch leaves: when its first message that breaks it is the `b`th, exactly the
   * messages up to the last one before it whose notice committed, and the jobs pushed by all.
   */
  lemma FailedBatchKeepsPrefix(s: State, batch: seq<Msg>, b: nat)
    requires b < |batch| && Breaks(s, batch, b) && SafeUntil(s, batch, b)
    ensures var n := |Lasting(s, batch)|;
            && CommittedUpTo(s, batch, n, b)
            && Delivered(s, batch) == HandleAll(s, batch[..n]).0.(jobs := HandleAll(s, batch[..b]).0.jobs)
  {
    SafePrefixSucceeds(s, batch, b);
    SafePrefixSucceeds(s, batch, b + 1);
    SafePrefixSucceeds(s, batch, |batch|);
    assert batch[..|batch|] == batch;
    FailureCommits(s, batch, b + 1);
    FailureStays(s, batch, b + 1);
    StepOfBatch(s, batch, b);
    CommittedIsLast(s, batch, b);
  }

  /** A failed batch leaves rows, conversations and opt-outs as they were exactly when nothing before its failure commits. */
  lemma FailedBatchIsLostExactly(s: State, batch: seq<Msg>, b: nat)
    requires b < |batch| && Breaks(s, batch, b) && SafeUntil(s, batch, b)
    ensures Delivered(s, batch).(jobs := s.jobs) == s <==> forall k :: 0 <= k < b ==> !CommitsAt(s, batch, k)
  {
    FailedBatchKeepsPrefix(s, batch, b);
    var n := |Lasting(s, batch)|;
    if n == 0 {
      assert batch[..0] == [];
    } else {
      LastingSucceeds(s, batch);
      CommittedAreStored(s, batch[..n], n - 1);
      assert CommitsAt(s, batch, n - 1);
    }
  }

  /**
   * The messages of a batch are all stored exactly when none is a new media that cannot be
   * downloaded; the provider is told 200 either way, and the jobs already pushed run.
   */
  lemma BatchIsStoredExactly(s: State, batch: seq<Msg>)
    ensures (forall k :: 0 <= k < |batch| && Storable(batch[k]) ==> batch[k].id in Ids(Delivered(s, batch).rows))
            <==> forall k :: 0 <= k < |batch| ==> !Breaks(s, batch, k)
  {
    BatchSucceedsExactly(s, batch);
    if HandleAll(s, batch).1 {
      forall k | 0 <= k < |batch| && Storable(batch[k]) ensures batch[k].id in Ids(Delivered(s, batch).rows) {
        CommittedAreStored(s, batch, k);
      }
    } else {
      var k :| 0 <= k < |batch| && Breaks(s, batch, k);
      BreakingIsLost(s, batch, k);
      assert Storable(batch[k]);
    }
  }

  lemma BreakingIsLost(s: State, batch: seq<Msg>, k: nat)
    requires k < |batch| && Breaks(s, batch, k)
    ensures batch[k].id !in Ids(Delivered(s, batch).rows)
  {
    var n := |Lasting(s, batch)|;
    LastingSucceeds(s, batch);
    SafePrefixSucceeds(s, batch, n);
    assert n <= k;
    IdsAfterBatch(s, batch[..n], batch[k].id);
    forall j | 0 <= j < n ensures !SameMessage(batch[..n][j], batch[k].id) {
      assert batch[..n][j] == batch[j];
    }
  }

  /** A text and a photo that cannot be downloaded, in one batch: the text is lost and its job is out. */
  lemma TextLostWithPhoto()
    ensures var text := Msg(1, 5, Text, Some("hola"), true, false, false, Awaited);
            var photo := Msg(2, 5, Image, Some(""), false, false, false, Awaited);
            && Delivered(EMPTY, [text]).rows == [LeadRow(0, 1, "hola")]
            && Delivered(EMPTY, [text, photo]) == State([], [], {}, [Turn(0)])
  {
    var text := Msg(1, 5, Text, Some("hola"), true, false, false, Awaited);
    var photo := Msg(2, 5, Image, Some(""), false, false, false, Awaited);
    var after := State([Conv(5, false)], [LeadRow(0, 1, "hola")], {}, [Turn(0)]);
    FirstContact(5);
    assert !Exists(EMPTY.rows, 1);
    assert EMPTY.rows + [LeadRow(0, 1, "hola")] == after.rows && EMPTY.jobs + [Turn(0)] == after.jobs;
    assert Handle(EMPTY, text) == Some(after);
    OneMessageBatch(EMPTY, text);
    assert [text, photo][..1] == [text] && [text][..0] == [];
    assert HandleAll(EMPTY, [text]) == (after, true);
    assert !IsRowOf(after.rows[0], 2);
    assert Handle(after, photo).None?;
  }

  /** A lead whose payment was processed and who wrote before. */
  const SERVED: State := State([Conv(5, false)], [LeadRow(0, 9, "hola")], {}, [])

  /** A text, a photo that is the first extra receipt, and one that cannot be downloaded: the first two stay. */
  lemma ExtraReceiptKeepsWhatCameBefore()
    ensures var text := Msg(1, 5, Text, Some("ya pague"), true, false, false, Awaited);
            var photo := Msg(2, 5, Image, Some("voucher"), true, false, false, FirstExtra);
            var broken := Msg(3, 5, Image, Some(""), false, false, false, MoreExtra);
            Delivered(SERVED, [text, photo, broken])
            == State([Conv(5, false)], [LeadRow(0, 9, "hola"), LeadRow(0, 1, "ya pague"), LeadRow(0, 2, "[image: voucher]")],
                     {}, [Turn(0), Turn(0)])
  {
    var text := Msg(1, 5, Text, Some("ya pague"), true, false, false, Awaited);
    var photo := Msg(2, 5, Image, Some("voucher"), true, false, false, FirstExtra);
    var broken := Msg(3, 5, Image, Some(""), false, false, false, MoreExtra);
    var batch := [text, photo, broken];
    var written := State([Conv(5, false)], [LeadRow(0, 9, "hola"), LeadRow(0, 1, "ya pague")], {}, [Turn(0)]);
    var paid := State([Conv(5, false)], written.rows + [LeadRow(0, 2, "[image: voucher]")], {}, [Turn(0), Turn(0)]);
    KnownPhone(5);
    assert batch[..0] == [] && batch[..1] == [text] && batch[..2] == [text, photo] && batch[..3] == batch;
    assert HandleAll(SERVED, batch[..0]) == (SERVED, true);
    assert !IsRowOf(SERVED.rows[0], 1);
    assert SERVED.jobs + [Turn(0)] == [Turn(0)] && SERVED.rows + [LeadRow(0, 1, "ya pague")] == written.rows;
    assert Handle(SERVED, text) == Some(written);
    StepOfBatch(SERVED, batch, 0);
    PhotoIsPaid(written, photo);
    StepOfBatch(SERVED, batch, 1);
    assert Handle(paid, broken).None? by { assert !Exists(paid.rows, 3); }
    StepOfBatch(SERVED, batch, 2);
    assert Commits(written, photo) by { assert !Exists(written.rows, 2); }
  }

  lemma PhotoIsPaid(s: State, photo: Msg)
    requires s == State([Conv(5, false)], [LeadRow(0, 9, "hola"), LeadRow(0, 1, "ya pague")], {}, [Turn(0)])
    requires photo == Msg(2, 5, Image, Some("voucher"), true, false, false, FirstExtra)
    ensures Handle(s, photo) == Some(State([Conv(5, false)], s.rows + [LeadRow(0, 2, "[image: voucher]")], {}, [Turn(0), Turn(0)]))
  {
    KnownPhone(5);
    assert !Exists(s.rows, 2);
    assert StoredText(photo) == "[image: voucher]";
    assert s.jobs + [] + [Turn(0)] == [Turn(0), Turn(0)];
  }

  lemma KnownPhone(phone: Phone)
    ensures GetOrCreate([Conv(phone, false)], phone) == ([Conv(phone, false)], 0)
  {
    assert LatestOf([Conv(phone, false)], phone) == Some(0);
  }
}
