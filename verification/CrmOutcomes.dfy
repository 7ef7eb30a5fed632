/**
 * How each operation of the board ends, read off the fields it starts from: when a delivery is
 * planned, reaches the lead and wins, where a reconciliation puts a card, and what the triggers
 * do to the cards they pick.
 */
module CrmOutcomes {
  import opened Wrappers
  import opened Board
  import opened CardFlags
  import opened Sequences
  import opened Crm
  import opened CrmDelivery
  import opened CrmEntries
  import opened CrmLaws
  import Delivery
  import Funnel

  // ---------------------------------------------------------------- winning a delivery

  /** The other known notices of the card, in their order. */
  function OtherNotices(card: Card): seq<Flag> {
    Select(Known(card.flags), OTHER_FLAGS)
  }

  predicate PlanWarnings(warnings: seq<Flag>) {
    warnings == [] || warnings == [MissingLink]
  }

  lemma ConcludesByName(board: Table, s: State, conv: ConvId, warnings: seq<Flag>)
    requires conv in s.cards && conv < |s.convs|
    ensures var (t, o) := Concluded(board, s, conv, warnings);
            var won := StageByStatus(board, Human, Won);
            && o.Done?
            && (o.closed <==> won.Some? && (s.cards[conv].stage == won.value || LeadIsNamed(s, conv)))
            && o.flags == warnings + (if won.Some? && !o.closed then [NeedsName] else [])
            && conv in t.cards && conv < |t.convs|
            && t.cards[conv].stage == (if o.closed then won.value else s.cards[conv].stage)
            && t.cards[conv].flags == (if won.Some? && !o.closed then Added(s.cards[conv].flags, [NeedsName]) else s.cards[conv].flags)
            && (o.closed && s.cards[conv].stage != won.value ==>
                  && t.convs[conv].closed
                  && t.contacts == if s.convs[conv].phone !in s.contacts || s.convs[conv].fullName.Some?
                                   then s.contacts[s.convs[conv].phone := s.convs[conv].fullName] else s.contacts)
            && (o.closed && s.cards[conv].stage == won.value ==> t == s)
            && (!o.closed ==> t.convs == s.convs && t.contacts == s.contacts)
  {
    var won := StageByStatus(board, Human, Won);
    if won.Some? {
      WinningNeedsAName(board, s, conv, won.value, System);
    }
  }

  lemma ReplacedIsAdded(flags: seq<Flag>, extra: seq<Flag>)
    ensures DeliveryReplaced(flags, extra) == Added(Select(Known(flags), OTHER_FLAGS), extra)
  {
    assert ALL_FLAGS - DELIVERY_FLAGS == OTHER_FLAGS;
  }

  lemma WarningsAreKept(flags: seq<Flag>, warnings: seq<Flag>)
    requires PlanWarnings(warnings) || warnings == [NeedsName] || warnings == [MissingLink, NeedsName]
    ensures DeliveryReplaced(flags, warnings) == Select(Known(flags), OTHER_FLAGS) + warnings
  {
    ReplaceKeepsTheRest(flags, warnings);
  }

  lemma AddedTogether(flags: seq<Flag>, more: seq<Flag>, extra: seq<Flag>)
    ensures Added(flags + more, extra) == Added(flags, more + extra)
  {
    AddedAbsorbs(flags, more + extra);
    AddedAbsorbs(flags + more, extra);
    assert (flags + more) + extra == flags + (more + extra);
  }

  /** The name notice joins what a served card keeps. */
  lemma NameNoticeIsAdded(flags: seq<Flag>, warnings: seq<Flag>)
    requires PlanWarnings(warnings)
    ensures var kept := Select(Known(flags), OTHER_FLAGS);
            Added(kept + warnings, [NeedsName]) == kept + (warnings + [NeedsName])
  {
    var kept := Select(Known(flags), OTHER_FLAGS);
    calc {
      Added(kept + warnings, [NeedsName]);
      { AddedTogether(kept, warnings, [NeedsName]); }
      Added(kept, warnings + [NeedsName]);
      { ReplacedIsAdded(flags, warnings + [NeedsName]); }
      DeliveryReplaced(flags, warnings + [NeedsName]);
      { WarningsAreKept(flags, warnings + [NeedsName]); }
      kept + (warnings + [NeedsName]);
    }
  }

  /**
   * A board may hold a second won stage at the handed one: winning there first writes the
   * conversation's name over the contact's, and a blank one then leaves the lead without any.
   */
  predicate BlankReplaces(board: Table, s: State, conv: ConvId, handed: StageId)
    requires conv < |s.convs| && handed < |board|
  {
    && board[handed].status == Won && StageByStatus(board, Human, Won) != Some(handed)
    && s.convs[conv].fullName.Some? && !Legible(s.convs[conv].fullName)
  }

  /** A served opportunity of `s` is won in `t`: the name decides, and the contact takes it over. */
  predicate WonByName(board: Table, s: State, t: State, conv: ConvId, handed: StageId, o: Outcome)
    requires conv in s.cards && conv < |s.convs| && handed < |board| && o.Done?
  {
    var won, c := StageByStatus(board, Human, Won), s.convs[conv];
    && (o.closed <==> won.Some? && LeadIsNamed(s, conv) && !BlankReplaces(board, s, conv, handed))
    && conv in t.cards && conv < |t.convs|
    && t.cards[conv].stage == (if o.closed then won.value else handed)
    && (o.closed ==>
          && t.convs[conv].closed && c.phone in t.contacts
          && t.contacts[c.phone] == if c.fullName.Some? || c.phone !in s.contacts then c.fullName else s.contacts[c.phone])
    && (!o.closed ==> (t.convs[conv].closed <==> board[handed].status != Open))
  }

  /** The notices it is left with: those that do not speak of deliveries, the warnings, and the missing name. */
  predicate NoticedByName(board: Table, s: State, t: State, conv: ConvId, warnings: seq<Flag>, o: Outcome)
    requires conv in s.cards && o.Done?
  {
    && o.flags == warnings + (if StageByStatus(board, Human, Won).Some? && !o.closed then [NeedsName] else [])
    && conv in t.cards && t.cards[conv].flags == OtherNotices(s.cards[conv]) + o.flags
  }

  lemma HandingByName(board: Table, s: State, conv: ConvId, handed: StageId)
    requires conv in s.cards && conv < |s.convs| && handed < |board| && s.cards[conv].stage != handed
    ensures var (t, result) := MovedCard(board, s, conv, handed, System);
            && (result == MoveOk <==> board[handed].status != Won || LeadIsNamed(s, conv))
            && (result == MoveOk ==>
                  && MovedOnly(s, t, conv, handed, System)
                  && t.convs == s.convs[conv := s.convs[conv].(closed := board[handed].status != Open)]
                  && (LeadIsNamed(t, conv) <==>
                        LeadIsNamed(s, conv) && !(board[handed].status == Won && s.convs[conv].fullName.Some? && !Legible(s.convs[conv].fullName)))
                  && (board[handed].status != Won ==> t.contacts == s.contacts)
                  && (board[handed].status == Won ==>
                        t.contacts == if s.convs[conv].phone !in s.contacts || s.convs[conv].fullName.Some?
                                      then s.contacts[s.convs[conv].phone := s.convs[conv].fullName] else s.contacts))
  {
    WinningNeedsAName(board, s, conv, handed, System);
  }

  /** The card of `s` as it stands in `mid`, handed over and not yet won. */
  predicate StandsHanded(board: Table, s: State, mid: State, conv: ConvId, handed: StageId)
    requires conv < |s.convs| && handed < |board|
  {
    var c, won := s.convs[conv], board[handed].status == Won;
    && conv in mid.cards && mid.cards[conv].stage == handed
    && mid.convs == s.convs[conv := c.(closed := board[handed].status != Open)]
    && mid.contacts == (if won && (c.phone !in s.contacts || c.fullName.Some?) then s.contacts[c.phone := c.fullName] else s.contacts)
    && (won ==> LeadIsNamed(s, conv))
    && (LeadIsNamed(mid, conv) <==> LeadIsNamed(s, conv) && !(won && c.fullName.Some? && !Legible(c.fullName)))
  }

  lemma ConcludesWhatWasHanded(board: Table, s: State, mid: State, conv: ConvId, handed: StageId, warnings: seq<Flag>)
    requires conv in s.cards && conv < |s.convs| && handed < |board| && StandsHanded(board, s, mid, conv, handed)
    ensures var (t, o) := Concluded(board, mid, conv, warnings);
            o.Done? && WonByName(board, s, t, conv, handed, o)
  {
    ConcludesByName(board, mid, conv, warnings);
  }

  lemma ConcludesWithNotices(board: Table, s: State, mid: State, conv: ConvId, warnings: seq<Flag>)
    requires conv in s.cards && conv in mid.cards && conv < |mid.convs| && PlanWarnings(warnings)
    requires mid.cards[conv].flags == OtherNotices(s.cards[conv]) + warnings
    ensures var (t, o) := Concluded(board, mid, conv, warnings);
            o.Done? && NoticedByName(board, s, t, conv, warnings, o)
  {
    ConcludesByName(board, mid, conv, warnings);
    NameNoticeIsAdded(s.cards[conv].flags, warnings);
  }

  lemma AdvancesByName(board: Table, s: State, conv: ConvId, handed: StageId, warnings: seq<Flag>)
    requires conv in s.cards && conv < |s.convs| && handed < |board| && s.cards[conv].stage != handed && PlanWarnings(warnings)
    ensures var (t, o) := Advanced(board, s, conv, handed, warnings);
            if board[handed].status == Won && !LeadIsNamed(s, conv) then o == Raised && t == s
            else o.Done? && WonByName(board, s, t, conv, handed, o) && NoticedByName(board, s, t, conv, warnings, o)
  {
    HandingByName(board, s, conv, handed);
    var (moved, result) := MovedCard(board, s, conv, handed, System);
    if result == MoveOk {
      var flagged := WithFlags(moved, conv, DeliveryReplaced(moved.cards[conv].flags, warnings));
      WarningsAreKept(s.cards[conv].flags, warnings);
      ConcludesWhatWasHanded(board, s, flagged, conv, handed, warnings);
      ConcludesWithNotices(board, s, flagged, conv, warnings);
    }
  }

  // ---------------------------------------------------------------- how a delivery ends

  /** The delivery got to the lead: its message, or the template of an entry that has an event. */
  predicate Reached(p: Planned, world: World) {
    || world.main == SendResult.Delivered
    || (world.main == OutsideWindow && p.plan.needsEntry && p.event.Some? && world.template == SendResult.Delivered)
  }

  /** A send raised: the message's own, or that of the template tried in its place. */
  predicate SendRaised(p: Planned, world: World) {
    || world.main == SendResult.Failed
    || (world.main == OutsideWindow && p.plan.needsEntry && p.event.Some? && world.template == SendResult.Failed)
  }

  /** The lead and the notices of the card are those of `s`. */
  predicate SameLead(s: State, sent: State, conv: ConvId)
    requires conv in s.cards
  {
    && conv in sent.cards && sent.cards[conv].stage == s.cards[conv].stage && sent.cards[conv].flags == s.cards[conv].flags
    && sent.convs == s.convs && sent.contacts == s.contacts
  }

  lemma SentKeepsTheLead(s: State, conv: ConvId, planned: Planned, world: World)
    requires conv in s.cards
    ensures var sent := SentMain(s, conv, planned, world);
            SameLead(s, sent, conv) && (world.main != SendResult.Delivered ==> sent.log == s.log)
  {
  }

  lemma WonFromSent(board: Table, s: State, sent: State, t: State, conv: ConvId, handed: StageId, o: Outcome)
    requires conv in s.cards && conv < |s.convs| && handed < |board| && o.Done? && SameLead(s, sent, conv)
    requires WonByName(board, sent, t, conv, handed, o)
    ensures WonByName(board, s, t, conv, handed, o)
  {
  }

  lemma FromSent(board: Table, s: State, sent: State, conv: ConvId, handed: StageId, warnings: seq<Flag>)
    requires conv in s.cards && conv < |s.convs| && handed < |board| && s.cards[conv].stage != handed && PlanWarnings(warnings)
    requires SameLead(s, sent, conv)
    ensures var (t, o) := Advanced(board, sent, conv, handed, warnings);
            if board[handed].status == Won && !LeadIsNamed(s, conv) then o == Raised
            else o.Done? && WonByName(board, s, t, conv, handed, o) && NoticedByName(board, s, t, conv, warnings, o)
  {
    AdvancesByName(board, sent, conv, handed, warnings);
    var (t, o) := Advanced(board, sent, conv, handed, warnings);
    if o.Done? {
      WonFromSent(board, s, sent, t, conv, handed, o);
    }
  }

  /** The end of a delivery whose plan is not blocked: what the sends answer decides, then the name. */
  predicate EndsByTheSends(board: Table, s: State, t: State, conv: ConvId, handed: StageId, p: Planned, world: World, o: Outcome)
    requires conv in s.cards && conv < |s.convs| && handed < |board|
  {
    if SendRaised(p, world) then o == Raised && t.log == s.log
    else if !Reached(p, world) then o == Held(DeliveryPending) && t.log == s.log
    else if board[handed].status == Won && !LeadIsNamed(s, conv) then o == Raised
    else o.Done? && WonByName(board, s, t, conv, handed, o) && NoticedByName(board, s, t, conv, p.plan.warnings, o)
  }

  lemma TemplateEndsExactly(board: Table, s: State, conv: ConvId, handed: StageId, p: Planned, world: World)
    requires conv in s.cards && conv < |s.convs| && handed < |board| && s.cards[conv].stage != handed && PlanWarnings(p.plan.warnings)
    requires world.main == OutsideWindow
    ensures var (t, o) := Shipped(board, s, conv, handed, p, world);
            EndsByTheSends(board, s, t, conv, handed, p, world, o)
  {
    var sent := SentMain(s, conv, p, world);
    SentKeepsTheLead(s, conv, p, world);
    FromSent(board, s, Logged(sent, Sent(conv, EntryTemplate(TokenOf(sent, conv)))), conv, handed, p.plan.warnings);
  }

  lemma ShippingEndsExactly(board: Table, s: State, conv: ConvId, handed: StageId, p: Planned, world: World)
    requires conv in s.cards && conv < |s.convs| && handed < |board| && s.cards[conv].stage != handed && PlanWarnings(p.plan.warnings)
    ensures var (t, o) := Shipped(board, s, conv, handed, p, world);
            EndsByTheSends(board, s, t, conv, handed, p, world, o)
  {
    var sent := SentMain(s, conv, p, world);
    SentKeepsTheLead(s, conv, p, world);
    if world.main == OutsideWindow {
      TemplateEndsExactly(board, s, conv, handed, p, world);
    } else {
      FromSent(board, s, sent, conv, handed, p.plan.warnings);
    }
  }

  /**
   * How a delivery ends, by the board, the plan, what the sends answer and the lead's name. It
   * is done exactly where the card waits with its payment validated, the plan is not blocked,
   * the message or the template reaches the lead and handing over asks for no missing name; and
   * then it is won exactly where the board can win and the lead is named.
   */
  lemma DeliveryEndsExactly(board: Table, s: State, conv: ConvId, now: int, world: World)
    requires conv < |s.convs|
    ensures var (t, o) := DeliveredTo(board, s, conv, now, world);
            if !AtValidated(board, s, conv) then t == s && (o == NotFound || o == NoStages || o == NotValidated)
            else
              var p, handed := PlanFor(s, s.cards[conv], now), GetStage(board, Human, Handed).value;
              if p.plan.blockedBy.Some? then
                if !s.convs[conv].noticed && world.notice == Unrecorded
                then o == Raised && t == Logged(s, Sent(conv, Notice(false)))
                else && o == Held(p.plan.blockedBy.value)
                     && t.log == s.log + (if !s.convs[conv].noticed && world.notice == Recorded then [Sent(conv, Notice(true))] else [])
              else EndsByTheSends(board, s, t, conv, handed, p, world, o)
  {
    if AtValidated(board, s, conv) {
      var p, handed := PlanFor(s, s.cards[conv], now), GetStage(board, Human, Handed).value;
      PlansBlockWithDeliveryFlags(s, s.cards[conv], now);
      if p.plan.blockedBy.None? { ShippingEndsExactly(board, s, conv, handed, p, world); }
    }
  }

  /** The entry the lead holds afterwards: the one of the card, or a new one bound to the planned date. */
  function EntryAfter(s: State, card: Card, event: Option<Event>): Entry {
    if card.entry.Some? then card.entry.value
    else if event.Some? then Entry(s.nextToken, Some(event.value.id), Some(event.value.info), false)
    else Entry(s.nextToken, None, None, false)
  }

  /** The message of a delivery: the entry, free or by template, or the links. */
  function MessageOf(s: State, card: Card, p: Planned, world: World): What {
    if !p.plan.needsEntry then Links
    else if world.main == SendResult.Delivered then EntryImage(EntryAfter(s, card, p.event).token)
    else EntryTemplate(EntryAfter(s, card, p.event).token)
  }

  lemma AdvancedKeepsMessage(board: Table, s: State, sent: State, conv: ConvId, handed: StageId, warnings: seq<Flag>, what: What)
    requires conv in sent.cards && handed < |board| && sent.cards[conv].stage != handed
    requires sent.log == s.log + [Sent(conv, what)] && Advanced(board, sent, conv, handed, warnings).1.Done?
    ensures var t := Advanced(board, sent, conv, handed, warnings).0;
            && s.log + [Sent(conv, what)] <= t.log
            && conv in t.cards && t.cards[conv].entry == sent.cards[conv].entry
  {
    AdvancedEffect(board, sent, conv, sent.cards[conv].stage, handed, warnings);
    AdvancingKeepsEntries(board, sent, conv, handed, warnings);
  }

  /** The message went out and the card holds its entry. */
  predicate SentAndHeld(s: State, t: State, conv: ConvId, p: Planned, world: World)
    requires conv in s.cards
  {
    && s.log + [Sent(conv, MessageOf(s, s.cards[conv], p, world))] <= t.log
    && conv in t.cards
    && t.cards[conv].entry == if p.plan.needsEntry then Some(EntryAfter(s, s.cards[conv], p.event)) else s.cards[conv].entry
  }

  lemma TemplateSendsExactly(board: Table, s: State, conv: ConvId, handed: StageId, p: Planned, world: World)
    requires conv in s.cards && handed < |board| && s.cards[conv].stage != handed && world.main == OutsideWindow
    requires Shipped(board, s, conv, handed, p, world).1.Done?
    ensures SentAndHeld(s, Shipped(board, s, conv, handed, p, world).0, conv, p, world)
  {
    var sent := SentMain(s, conv, p, world);
    var what := EntryTemplate(TokenOf(sent, conv));
    assert what == MessageOf(s, s.cards[conv], p, world);
    AdvancedKeepsMessage(board, s, Logged(sent, Sent(conv, what)), conv, handed, p.plan.warnings, what);
  }

  lemma ShippingSendsExactly(board: Table, s: State, conv: ConvId, handed: StageId, p: Planned, world: World)
    requires conv in s.cards && handed < |board| && s.cards[conv].stage != handed
    requires Shipped(board, s, conv, handed, p, world).1.Done?
    ensures SentAndHeld(s, Shipped(board, s, conv, handed, p, world).0, conv, p, world)
  {
    if world.main == OutsideWindow {
      TemplateSendsExactly(board, s, conv, handed, p, world);
    } else {
      AdvancedKeepsMessage(board, s, SentMain(s, conv, p, world), conv, handed, p.plan.warnings, MessageOf(s, s.cards[conv], p, world));
    }
  }

  /** A delivery that is done sent the lead the entry its card now holds, or the links, before its moves. */
  lemma DeliverySendsExactly(board: Table, s: State, conv: ConvId, now: int, world: World)
    requires DeliveredTo(board, s, conv, now, world).1.Done?
    ensures conv in s.cards
    ensures SentAndHeld(s, DeliveredTo(board, s, conv, now, world).0, conv, PlanFor(s, s.cards[conv], now), world)
  {
    ShippingSendsExactly(board, s, conv, GetStage(board, Human, Handed).value, PlanFor(s, s.cards[conv], now), world);
  }

  // ---------------------------------------------------------------- what is planned

  lemma {:induction false} SelectFromHead<T>(s: seq<T>, keep: set<T>)
    requires s != []
    ensures Select(s, keep) == (if s[0] in keep then [s[0]] else []) + Select(s[1..], keep)
  {
    if |s| > 1 {
      SelectFromHead(s[..|s| - 1], keep);
      assert s[..|s| - 1][1..] == s[1..][..|s| - 2];
    }
  }

  lemma {:induction false} AcceptedAreHeld(s: State, ids: seq<ServiceId>)
    ensures AcceptedIds(s, ids) == Select(ids, s.catalogue.Keys)
    ensures |Accepted(s, ids)| == |Select(ids, s.catalogue.Keys)|
    ensures forall i :: 0 <= i < |Accepted(s, ids)| ==>
              Select(ids, s.catalogue.Keys)[i] in s.catalogue && Accepted(s, ids)[i] == s.catalogue[Select(ids, s.catalogue.Keys)[i]]
  {
    if ids != [] {
      AcceptedAreHeld(s, ids[1..]);
      SelectFromHead(ids, s.catalogue.Keys);
    }
  }

  /** A date of the service that is still to come. */
  predicate Ahead(e: Event, service: ServiceId, now: int) {
    e.service == service && (e.status == Active || e.status == Scheduled) && e.startsAt >= now
  }

  /** The date entries are sold for: an active one where there is any, and of its kind the nearest. */
  predicate Next(events: seq<Event>, service: ServiceId, now: int, e: Event) {
    && e in events && Ahead(e, service, now)
    && forall other <- events :: Ahead(other, service, now) ==>
         (other.status == Active ==> e.status == Active) && (other.status == e.status ==> e.startsAt <= other.startsAt)
  }

  lemma NextIsCurrent(events: seq<Event>, service: ServiceId, now: int)
    ensures var found := CurrentFor(events, service, now);
            && (found.None? <==> forall e <- events :: !Ahead(e, service, now))
            && (found.Some? ==> Next(events, service, now, found.value))
  {
    var found := CurrentFor(events, service, now);
    forall e | e in events && Ahead(e, service, now)
      ensures found.Some? && !Before(e, found.value)
    {
      var i :| 0 <= i < |events| && events[i] == e;
      assert Upcoming(events[i], service, now);
    }
    if found.Some? { assert Ahead(found.value, service, now); }
  }

  /** The live entries of the date fill it. */
  predicate SoldOut(s: State, e: Event) {
    e.capacity.Some?
    && |set c | c in s.cards && s.cards[c].entry.Some? && s.cards[c].entry.value.event == Some(e.id) && !s.cards[c].entry.value.revoked|
       >= e.capacity.value
  }

  lemma SoldOutExactly(s: State, e: Event)
    ensures SoldOut(s, e) <==> !HasCapacity(s, e)
  {
    assert Seats(s, e.id)
           == set c | c in s.cards && s.cards[c].entry.Some? && s.cards[c].entry.value.event == Some(e.id) && !s.cards[c].entry.value.revoked;
  }

  /**
   * What a delivery plans, from the services accepted on the card that the catalogue holds: none
   * or several block it; a course with an in-person part and no entry yet needs a date ahead with
   * a free seat; and an entry already issued asks for neither.
   */
  lemma PlanExactly(s: State, card: Card, now: int)
    ensures var p, held := PlanFor(s, card, now), Select(card.services, s.catalogue.Keys);
            if held == [] then p == Planned(Delivery.Blocked(NoModality), None)
            else if |held| > 1 then p == Planned(Delivery.Blocked(AmbiguousService), None)
            else
              && held[0] in s.catalogue
              && var service := s.catalogue[held[0]];
              if service.modality == Delivery.Virtual || service.modality == Delivery.Unset then
                p == Planned(Delivery.PlanDelivery(service.modality, service.links, None), None)
              else if card.entry.Some? then
                && p.plan.blockedBy.None?
                && (p.event.Some? ==> p.event.value in s.events && card.entry.value.event == Some(p.event.value.id))
                && (p.event.None? ==> forall e <- s.events :: card.entry.value.event != Some(e.id))
                && p.plan == Delivery.PlanDelivery(service.modality, LinksAt(service.links, p.event),
                                                   if p.event.Some? then Some(p.event.value.info) else card.entry.value.snapshot)
              else if forall e <- s.events :: !Ahead(e, held[0], now) then p == Planned(Delivery.Blocked(NoEvent), None)
              else
                exists e :: && Next(s.events, held[0], now, e)
                            && if SoldOut(s, e) then p == Planned(Delivery.Blocked(CapacityFull), None)
                               else p == Planned(Delivery.PlanDelivery(service.modality, LinksAt(service.links, Some(e)), Some(e.info)), Some(e))
  {
    var held := Select(card.services, s.catalogue.Keys);
    AcceptedAreHeld(s, card.services);
    if |held| == 1 {
      var service := s.catalogue[held[0]];
      if GivesEntry(service) {
        if card.entry.Some? {
          var event := EventById(s.events, card.entry.value.event);
          EventIsFound(s.events, card.entry.value.event);
          Delivery.DecidesExactly(service.modality, LinksAt(service.links, event), InfoOf(event, card.entry.value.snapshot));
        } else {
          NextIsCurrent(s.events, held[0], now);
          var event := CurrentFor(s.events, held[0], now);
          if event.Some? {
            SoldOutExactly(s, event.value);
            Delivery.DecidesExactly(service.modality, LinksAt(service.links, event), Some(event.value.info));
          }
        }
      }
    }
  }

  lemma {:induction false} EventIsFound(events: seq<Event>, id: Option<EventId>)
    ensures EventById(events, id).None? ==> forall e <- events :: id != Some(e.id)
  {
    if events != [] { EventIsFound(events[1..], id); }
  }

  // ---------------------------------------------------------------- where a reconciliation puts a card

  /** Off the board, or still in the pipeline of the sale. */
  predicate NotInPostsale(board: Table, s: State, conv: ConvId) {
    conv !in s.cards || (s.cards[conv].stage < |board| && board[s.cards[conv].stage].kind == Ia)
  }

  predicate WithTheTeam(c: Conv) {
    !c.active || c.funnel == Funnel.HandedOff
  }

  /**
   * A conversation left to the team, whose card is off the board or in the sale, waits for its
   * payment to be validated after a reconciliation exactly where its reason is the payment; with
   * any other reason its card stands in the intake stage.
   */
  lemma PaymentHandoffsAwait(board: Table, s: State, conv: ConvId)
    requires conv < |s.convs| && WithTheTeam(s.convs[conv]) && NotInPostsale(board, s, conv)
    requires GetStage(board, Human, PaymentValidation).Some? && GetStage(board, Human, Intake).Some?
    ensures var t := Synced(board, s, conv);
            && conv in t.cards
            && (AwaitsPayment(board, t, conv) <==> s.convs[conv].reason == "payment_validation")
            && (s.convs[conv].reason != "payment_validation" ==> GetStage(board, Human, Intake) == Some(t.cards[conv].stage))
  {
  }

  /** The row of the seeded board a conversation calls for. */
  function SeededRow(c: Conv): StageId {
    if WithTheTeam(c) then (if c.reason == "payment_validation" then 6 else 5)
    else if c.funnel == Funnel.New then 0
    else if c.funnel == Funnel.Engaging then 1
    else if c.funnel == Funnel.Qualifying then 2
    else if c.funnel == Funnel.Qualified then 3
    else 4
  }

  lemma SeededRowIsTarget(s: State, conv: ConvId)
    requires conv < |s.convs|
    ensures HasTarget(SEEDED, s, conv) && TargetOf(SEEDED, s, conv) == SeededRow(s.convs[conv])
  {
    assert SEEDED[SeededRow(s.convs[conv])].kind == TargetStage(s.convs[conv]).0;
    assert SEEDED[SeededRow(s.convs[conv])].name == TargetStage(s.convs[conv]).1;
  }

  /**
   * On the seeded board, row by row: a reconciliation puts the card in the row its conversation
   * calls for, unless the card stands at or beyond that row in the postsale pipeline; where it
   * moves, the agent signs one move and the conversation is closed exactly in the row of the disqualified.
   */
  lemma SeededSyncExactly(s: State, conv: ConvId)
    requires conv < |s.convs|
    ensures var t, row := Synced(SEEDED, s, conv), SeededRow(s.convs[conv]);
            var stays := conv in s.cards
                         && (s.cards[conv].stage == row || (5 <= row <= s.cards[conv].stage <= 10));
            if stays then t == s
            else
              && conv in t.cards && t.cards[conv].stage == row
              && t.convs == s.convs[conv := s.convs[conv].(closed := row == 4)]
              && var move := Move(if conv in s.cards then Some(s.cards[conv].stage) else None, row, Agent);
                 t.log == s.log + [Moved(conv, move)]
                 && t.cards[conv].moves == (if conv in s.cards then s.cards[conv].moves else []) + [move]
  {
    SeededRowIsTarget(s, conv);
  }

  // ---------------------------------------------------------------- triggers

  /** Nothing that a plan reads has changed: the services and entry of the card, every entry, the agenda and the catalogue. */
  predicate SamePlanning(s: State, t: State) {
    && t.cards.Keys == s.cards.Keys && t.events == s.events && t.catalogue == s.catalogue
    && forall c <- s.cards :: t.cards[c].entry == s.cards[c].entry && t.cards[c].services == s.cards[c].services
  }

  lemma {:induction false} SameCatalogueHolds(s: State, t: State, ids: seq<ServiceId>)
    requires t.catalogue == s.catalogue
    ensures Accepted(t, ids) == Accepted(s, ids) && AcceptedIds(t, ids) == AcceptedIds(s, ids)
  {
    if ids != [] { SameCatalogueHolds(s, t, ids[1..]); }
  }

  lemma SamePlanningSamePlan(s: State, t: State, conv: ConvId, now: int)
    requires SamePlanning(s, t) && conv in s.cards
    ensures PlanFor(t, t.cards[conv], now) == PlanFor(s, s.cards[conv], now)
  {
    SameCatalogueHolds(s, t, s.cards[conv].services);
    var event := CurrentFor(s.events, OnlyService(s, s.cards[conv].services), now);
    if event.Some? { assert Seats(t, event.value.id) == Seats(s, event.value.id); }
  }

  /** The review notice gives way to the pending reconciliation, and the other known ones stay. */
  ghost predicate NoticesOfApproval(before: seq<Flag>, after: seq<Flag>) {
    forall f :: f in after <==> f == PaymentUnconfirmed || (f in before && f in ALL_FLAGS && f != ReceiptReview)
  }

  /** The card of `s` stands in `t` validated by the system, to be matched against the bank. */
  ghost predicate ValidatedBySystem(s: State, t: State, conv: ConvId, validated: StageId)
    requires conv in s.cards
  {
    var card, move := s.cards[conv], Move(Some(s.cards[conv].stage), validated, System);
    && SamePlanning(s, t)
    && t.cards[conv].stage == validated && t.cards[conv].moves == card.moves + [move]
    && t.log == s.log + [Moved(conv, move)]
    && NoticesOfApproval(card.flags, t.cards[conv].flags)
    && (forall c <- s.cards :: c != conv ==> t.cards[c] == s.cards[c])
  }

  lemma ApprovalExactly(flags: seq<Flag>)
    ensures NoticesOfApproval(flags, Approval(flags))
  {
    var kept := Removed(flags, {ReceiptReview});
    KnownIsStable(flags);
    SelectHolds(Known(flags), ALL_FLAGS - {ReceiptReview});
    AddedAbsorbs(kept, [PaymentUnconfirmed]);
    KnownIsStable(kept + [PaymentUnconfirmed]);
  }

  lemma ValidationExactly(board: Table, s: State, conv: ConvId)
    requires conv < |s.convs|
    ensures var (m, ok), validated := Validated(board, s, conv), GetStage(board, Human, PaymentValidated);
            && (ok <==> && AwaitsPayment(board, s, conv) && validated.Some?
                        && (board[validated.value].status == Won ==> LeadIsNamed(s, conv)))
            && (ok ==> ValidatedBySystem(s, m, conv, validated.value))
            && (!ok ==> m == if AwaitsPayment(board, s, conv) then WithFlags(s, conv, Approval(s.cards[conv].flags)) else s)
  {
    var validated := GetStage(board, Human, PaymentValidated);
    if AwaitsPayment(board, s, conv) && validated.Some? {
      var flagged := WithFlags(s, conv, Approval(s.cards[conv].flags));
      assert LeadIsNamed(flagged, conv) == LeadIsNamed(s, conv);
      WinningNeedsAName(board, flagged, conv, validated.value, System);
      if validated.value != s.cards[conv].stage && Validated(board, s, conv).1 {
        MoveKeepsTheRest(board, flagged, conv, validated.value, System);
        MoveIsAValidation(s, Validated(board, s, conv).0, conv, validated.value);
      }
    }
  }

  lemma MoveIsAValidation(s: State, m: State, conv: ConvId, validated: StageId)
    requires conv in s.cards && m.events == s.events && m.catalogue == s.catalogue
    requires MovedOnly(WithFlags(s, conv, Approval(s.cards[conv].flags)), m, conv, validated, System)
    ensures ValidatedBySystem(s, m, conv, validated)
  {
    var flags := Approval(s.cards[conv].flags);
    ApprovalExactly(s.cards[conv].flags);
    assert m.cards[conv].flags == flags;
  }

  /** A move leaves the catalogue and the agenda alone. */
  lemma MoveKeepsTheRest(board: Table, s: State, conv: ConvId, to: StageId, mover: Mover)
    ensures var t := MovedCard(board, s, conv, to, mover).0;
            t.events == s.events && t.catalogue == s.catalogue
  {
  }

  /**
   * A receipt in order validates the payment of a card that awaits it, and of no other: the
   * review notice gives way to the pending reconciliation, the system signs the move, and the
   * delivery planned for the card follows at once.
   */
  lemma ApprovalValidatesAndDelivers(board: Table, s: State, conv: ConvId, now: int, world: World)
    requires conv < |s.convs|
    ensures var t, validated := Approved(board, s, conv, now, world), GetStage(board, Human, PaymentValidated);
            if !AwaitsPayment(board, s, conv) then t == s
            else if validated.None? || (board[validated.value].status == Won && !LeadIsNamed(s, conv))
            then t == WithFlags(s, conv, Approval(s.cards[conv].flags))
            else
              exists m :: && ValidatedBySystem(s, m, conv, validated.value)
                          && PlanFor(m, m.cards[conv], now) == PlanFor(s, s.cards[conv], now)
                          && t == DeliveredTo(board, m, conv, now, world).0
  {
    ValidationExactly(board, s, conv);
    var (m, ok) := Validated(board, s, conv);
    if ok { SamePlanningSamePlan(s, m, conv, now); }
  }

  /** The one in-person course of the card, with a plan that is not blocked. */
  predicate EntryIsPlanned(s: State, card: Card, now: int) {
    var held := Select(card.services, s.catalogue.Keys);
    && |held| == 1
    && held[0] in s.catalogue
    && (s.catalogue[held[0]].modality == Delivery.Presencial || s.catalogue[held[0]].modality == Delivery.Hybrid)
    && PlanFor(s, card, now).plan.blockedBy.None?
  }

  /**
   * The button gives an entry exactly where the card waits validated, its one course is in
   * person, the plan is not blocked, the message is accepted and the operator may move the card;
   * then the lead has the image of the entry, and after it the operator's move is recorded.
   */
  lemma ButtonGeneratesExactly(board: Table, s: State, conv: ConvId, user: UserId, now: int, world: World)
    requires conv < |s.convs|
    ensures var (t, button) := EntryGenerated(board, s, conv, user, now, world);
            && (button == Generated <==>
                  && AtValidated(board, s, conv) && EntryIsPlanned(s, s.cards[conv], now) && world.main == SendResult.Delivered
                  && (board[GetStage(board, Human, Handed).value].status == Won ==> LeadIsNamed(s, conv)))
            && (button == Existing <==>
                  conv in s.cards && s.cards[conv].entry.Some? && GetStage(board, Human, Handed) == Some(s.cards[conv].stage))
            && (button == Existing || button == Invalid ==> t == s)
            && (button == Generated ==>
                  var handed := GetStage(board, Human, Handed).value;
                  var move := Move(Some(s.cards[conv].stage), handed, Operator(user));
                  var entry := EntryAfter(s, s.cards[conv], PlanFor(s, s.cards[conv], now).event);
                  && t.cards == s.cards[conv := s.cards[conv].(stage := handed, moves := s.cards[conv].moves + [move], entry := Some(entry))]
                  && t.log == s.log + [Sent(conv, EntryImage(entry.token)), Moved(conv, move)])
  {
    if AtValidated(board, s, conv) {
      PlanExactly(s, s.cards[conv], now);
      AcceptedAreHeld(s, s.cards[conv].services);
      if EntryIsPlanned(s, s.cards[conv], now) {
        PressedExactly(board, s, conv, GetStage(board, Human, Handed).value, user, PlanFor(s, s.cards[conv], now), world);
      }
    }
  }

  lemma PressedExactly(board: Table, s: State, conv: ConvId, handed: StageId, user: UserId, p: Planned, world: World)
    requires conv in s.cards && conv < |s.convs| && handed < |board| && s.cards[conv].stage != handed && p.plan.needsEntry
    ensures var (t, button) := ButtonPressed(board, s, conv, handed, user, p, world);
            && (button == Generated || button == Unsent)
            && (button == Generated <==> world.main == SendResult.Delivered && (board[handed].status == Won ==> LeadIsNamed(s, conv)))
            && (button == Generated ==>
                  var move := Move(Some(s.cards[conv].stage), handed, Operator(user));
                  var entry := EntryAfter(s, s.cards[conv], p.event);
                  && t.cards == s.cards[conv := s.cards[conv].(stage := handed, moves := s.cards[conv].moves + [move], entry := Some(entry))]
                  && t.log == s.log + [Sent(conv, EntryImage(entry.token)), Moved(conv, move)])
  {
    var sent := SentMain(s, conv, p, world);
    SentKeepsTheLead(s, conv, p, world);
    assert LeadIsNamed(sent, conv) == LeadIsNamed(s, conv);
    WinningNeedsAName(board, sent, conv, handed, Operator(user));
    if world.main == SendResult.Delivered {
      assert sent.cards == s.cards[conv := s.cards[conv].(entry := Some(EntryAfter(s, s.cards[conv], p.event)))];
    }
  }

  /** The lead's next message retries a delivery exactly where the card carries the pending notice. */
  lemma RetryExactly(board: Table, s: State, conv: ConvId, now: int, world: World)
    ensures Retried(board, s, conv, now, world)
            == if conv in s.cards && DeliveryPending in s.cards[conv].flags then DeliveredTo(board, s, conv, now, world).0 else s
  {
    if conv in s.cards { KnownIsStable(s.cards[conv].flags); }
  }

  /** The notices of a card that an event of its service may help. */
  predicate WaitsForAnEvent(s: State, conv: ConvId) {
    conv in s.cards && (NoEvent in s.cards[conv].flags || CapacityFull in s.cards[conv].flags)
  }

  lemma {:induction false} RetriesLeaveOthers(board: Table, s: State, waiting: seq<ConvId>, now: int, worlds: ConvId -> World, conv: ConvId)
    requires conv !in waiting
    ensures var t := RetriedAll(board, s, waiting, now, worlds);
            t.cards.Keys == s.cards.Keys && (conv in s.cards ==> t.cards[conv] == s.cards[conv])
    decreases |waiting|
  {
    if waiting != [] {
      var last := waiting[|waiting| - 1];
      RetriesLeaveOthers(board, s, waiting[..|waiting| - 1], now, worlds, conv);
      DeliveryIsElsewhere(board, RetriedAll(board, s, waiting[..|waiting| - 1], now, worlds), last, now, worlds(last));
    }
  }

  /**
   * A new date is offered to the waiting cards in their order, and to each as it stood: the card
   * whose turn comes is untouched by the earlier deliveries, it is delivered exactly where it
   * waited for a date or a seat from the start, and a card outside the list is left alone.
   */
  lemma EachWaitingCardHasItsTurn(board: Table, s: State, waiting: seq<ConvId>, i: nat, now: int, worlds: ConvId -> World)
    requires Distinct(waiting) && i < |waiting|
    ensures var conv, before := waiting[i], RetriedAll(board, s, waiting[..i], now, worlds);
            && (conv in s.cards ==> conv in before.cards && before.cards[conv] == s.cards[conv])
            && RetriedAll(board, s, waiting[..i + 1], now, worlds)
               == if WaitsForAnEvent(s, conv) then DeliveredTo(board, before, conv, now, worlds(conv)).0 else before
    ensures forall c <- s.cards :: c !in waiting ==>
              c in RetriedAll(board, s, waiting, now, worlds).cards && RetriedAll(board, s, waiting, now, worlds).cards[c] == s.cards[c]
  {
    var conv, before := waiting[i], RetriedAll(board, s, waiting[..i], now, worlds);
    assert waiting[..i + 1][..i] == waiting[..i];
    RetriesLeaveOthers(board, s, waiting[..i], now, worlds, conv);
    if conv in s.cards { KnownIsStable(s.cards[conv].flags); }
    forall c | c in s.cards && c !in waiting
      ensures c in RetriedAll(board, s, waiting, now, worlds).cards && RetriedAll(board, s, waiting, now, worlds).cards[c] == s.cards[c]
    {
      RetriesLeaveOthers(board, s, waiting, now, worlds, c);
    }
  }

  /** A drag that is not refused records the operator's move, and delivers exactly where it ends in the validated stage. */
  lemma DragDeliversExactly(board: Table, s: State, conv: ConvId, to: StageId, user: UserId, now: int, world: World)
    requires conv in s.cards && conv < |s.convs| && to < |board|
    ensures var t := Dragged(board, s, conv, to, user, now, world);
            var delivers := GetStage(board, Human, PaymentValidated) == Some(to);
            if s.cards[conv].stage == to then t == if delivers then DeliveredTo(board, s, conv, now, world).0 else s
            else if board[to].status == Won && !LeadIsNamed(s, conv) then t == s
            else
              exists m :: && MovedOnly(s, m, conv, to, Operator(user))
                          && t == if delivers then DeliveredTo(board, m, conv, now, world).0 else m
  {
    WinningNeedsAName(board, s, conv, to, Operator(user));
  }

  // ---------------------------------------------------------------- the agenda

  lemma {:induction false} WithoutExactly(events: seq<Event>, id: EventId, e: Event)
    ensures e in EventsWithout(events, id) <==> e in events && e.id != id
  {
    if events != [] { WithoutExactly(events[1..], id, e); }
  }

  /**
   * The agenda, request by request: a new date takes the next number, an edit replaces the dates
   * of its number and no other, a request the schema refuses changes nothing, and deleting a date
   * leaves its entries valid and without one.
   */
  lemma AgendaExactly(s: State, event: Event, id: EventId)
    ensures var t := EventAdded(s, event);
            if event.capacity == Some(0) || CheckedVenue(event.mapsUrl).None? then t == s
            else t.events == s.events + [event.(mapsUrl := CheckedVenue(event.mapsUrl).value, id := s.nextEvent)]
                 && t.nextEvent == s.nextEvent + 1 && t.cards == s.cards
    ensures var t := EventEdited(s, event);
            && |t.events| == |s.events| && t.cards == s.cards
            && forall i :: 0 <= i < |s.events| ==>
                 t.events[i] == if s.events[i].id == event.id && event.capacity != Some(0) && CheckedVenue(event.mapsUrl).Some?
                                then event.(mapsUrl := CheckedVenue(event.mapsUrl).value) else s.events[i]
    ensures var t := EventDropped(s, id);
            && (forall e :: e in t.events <==> e in s.events && e.id != id)
            && t.cards.Keys == s.cards.Keys
            && forall c <- s.cards ::
                 t.cards[c] == if s.cards[c].entry.Some? && s.cards[c].entry.value.event == Some(id)
                               then s.cards[c].(entry := Some(s.cards[c].entry.value.(event := None))) else s.cards[c]
  {
    forall e ensures e in EventDropped(s, id).events <==> e in s.events && e.id != id {
      WithoutExactly(s.events, id, e);
    }
  }
}
