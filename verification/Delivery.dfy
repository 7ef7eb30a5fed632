/** What a lead receives once the payment is validated: a pure decision over the service's modality and links. */
module Delivery {
  import opened Wrappers
  import opened Text
  import opened Sequences
  import opened CardFlags

  datatype Modality = Presencial | Virtual | Hybrid | Unset

  datatype Kind = WhatsappGroup | Meeting | Maps | Other | Foreign

  datatype LinkRef = LinkRef(kind: Kind, url: string, typed: Option<string>)

  /** Date, time and place as the lead reads them. */
  datatype EventInfo = EventInfo(date: string, time: string, location: string)

  /** Texts are kept as their lines; a blocked plan sends nothing. */
  datatype Plan = Plan(
    needsEntry: bool, text: seq<string>, caption: seq<string>, blockedBy: Option<Flag>, warnings: seq<Flag>)

  const ENTRY_CAPTION := "Tu pago esta confirmado. Aca va tu entrada"
  const HYBRID_CAPTION := "Tu pago esta confirmado. Aca va tu entrada del modulo presencial"
  const VIRTUAL_INTRO := "Tu pago esta confirmado. Ya estas dentro"
  const HYBRID_VIRTUAL_INTRO := "Y para los modulos por Zoom:"

  /** The order in which a message lists the kinds it delivers. */
  const KIND_ORDER: seq<Kind> := [WhatsappGroup, Meeting, Other]

  predicate Usable(link: LinkRef, kind: Kind) {
    link.kind == kind && !IsBlank(link.url)
  }

  function OfKind(links: seq<LinkRef>, kind: Kind): seq<LinkRef> {
    if links == [] then []
    else
      OfKind(links[..|links| - 1], kind)
      + (if Usable(links[|links| - 1], kind) then [links[|links| - 1]] else [])
  }

  function FirstOf(links: seq<LinkRef>, kind: Kind): Option<LinkRef> {
    if links == [] then None else if Usable(links[0], kind) then Some(links[0]) else FirstOf(links[1..], kind)
  }

  function Ordered(links: seq<LinkRef>): seq<LinkRef> {
    OfKind(links, WhatsappGroup) + OfKind(links, Meeting) + OfKind(links, Other)
  }

  function KindLabel(kind: Kind): string {
    match kind
    case WhatsappGroup => "Grupo de WhatsApp"
    case Meeting => "Link de la clase"
    case Maps => "Ubicacion"
    case _ => "Link"
  }

  function LabelFor(link: LinkRef): string {
    var own := Strip(link.typed.GetOr(""));
    if own != "" then own else KindLabel(link.kind)
  }

  function Line(link: LinkRef): string {
    LabelFor(link) + ": " + link.url
  }

  function DeliveryLines(links: seq<LinkRef>): (lines: seq<string>)
    ensures |lines| == |Ordered(links)|
    ensures forall i :: 0 <= i < |lines| ==> lines[i] == Line(Ordered(links)[i])
  {
    seq(|Ordered(links)|, i requires 0 <= i < |Ordered(links)| => Line(Ordered(links)[i]))
  }

  predicate HasAccessLink(links: seq<LinkRef>) {
    OfKind(links, WhatsappGroup) != [] || OfKind(links, Meeting) != []
  }

  function ModalityLabel(modality: Modality): string {
    match modality
    case Presencial => "presencial"
    case Virtual => "virtual"
    case Hybrid => "presencial + virtual (Zoom)"
    case Unset => ""
  }

  function Details(intro: string, modality: Modality, event: Option<EventInfo>, maps: Option<LinkRef>): seq<string> {
    [intro]
    + (if event.Some? then ["Fecha: " + event.value.date, "Hora: " + event.value.time] else [])
    + ["Modalidad: " + ModalityLabel(modality)]
    + (if event.Some? && event.value.location != "" then ["Lugar: " + event.value.location] else [])
    + (if maps.Some? then ["Ubicacion: " + maps.value.url] else [])
  }

  method WithDetails(intro: string, modality: Modality, event: Option<EventInfo>, maps: Option<LinkRef>)
    returns (lines: seq<string>)
    ensures lines == Details(intro, modality, event, maps)
  {
    lines := [intro];
    if event.Some? {
      lines := lines + ["Fecha: " + event.value.date];
      lines := lines + ["Hora: " + event.value.time];
    }
    lines := lines + ["Modalidad: " + ModalityLabel(modality)];
    if event.Some? && event.value.location != "" {
      lines := lines + ["Lugar: " + event.value.location];
    }
    if maps.Some? {
      lines := lines + ["Ubicacion: " + maps.value.url];
    }
  }

  lemma PrefixCancels(prefix: string, a: string, b: string)
    requires prefix + a == prefix + b
    ensures a == b
  {
    assert (prefix + a)[|prefix|..] == a && (prefix + b)[|prefix|..] == b;
  }

  /** The lines after the modality: place and map, each only when known. */
  function Where(event: Option<EventInfo>, maps: Option<LinkRef>): seq<string> {
    (if event.Some? && event.value.location != "" then ["Lugar: " + event.value.location] else [])
    + (if maps.Some? then ["Ubicacion: " + maps.value.url] else [])
  }

  predicate OpensWithPlace(lines: seq<string>) {
    lines != [] && lines[0] != "" && lines[0][0] == 'L'
  }

  lemma WhereTellsApart(e1: Option<EventInfo>, maps1: Option<LinkRef>, e2: Option<EventInfo>, maps2: Option<LinkRef>)
    requires e1.Some? == e2.Some? && Where(e1, maps1) == Where(e2, maps2)
    ensures e1.Some? ==> e1.value.location == e2.value.location
    ensures maps1.Some? == maps2.Some? && (maps1.Some? ==> maps1.value.url == maps2.value.url)
  {
    var w1, w2 := Where(e1, maps1), Where(e2, maps2);
    assert OpensWithPlace(w1) <==> e1.Some? && e1.value.location != "";
    assert OpensWithPlace(w2) <==> e2.Some? && e2.value.location != "";
    if OpensWithPlace(w1) {
      assert w1[0] == "Lugar: " + e1.value.location && w2[0] == "Lugar: " + e2.value.location;
      PrefixCancels("Lugar: ", e1.value.location, e2.value.location);
    }
    if maps1.Some? {
      assert w1[|w1| - 1] == "Ubicacion: " + maps1.value.url && w2[|w2| - 1][0] == 'U';
      PrefixCancels("Ubicacion: ", maps1.value.url, maps2.value.url);
    }
  }

  /** Reading a message gives back the facts it was made of: two that read the same say the same date, hour, place and map. */
  lemma DetailsTellApart(intro: string, modality: Modality, e1: Option<EventInfo>, maps1: Option<LinkRef>,
                         e2: Option<EventInfo>, maps2: Option<LinkRef>)
    requires Details(intro, modality, e1, maps1) == Details(intro, modality, e2, maps2)
    ensures e1 == e2
    ensures maps1.Some? == maps2.Some? && (maps1.Some? ==> maps1.value.url == maps2.value.url)
  {
    var d1, d2 := Details(intro, modality, e1, maps1), Details(intro, modality, e2, maps2);
    assert e1.Some? <==> d1[1][0] == 'F';
    assert e2.Some? <==> d2[1][0] == 'F';
    var k := if e1.Some? then 4 else 2;
    assert d1[k..] == Where(e1, maps1) && d2[k..] == Where(e2, maps2);
    WhereTellsApart(e1, maps1, e2, maps2);
    if e1.Some? {
      assert d1[1] == "Fecha: " + e1.value.date && d2[1] == "Fecha: " + e2.value.date;
      assert d1[2] == "Hora: " + e1.value.time && d2[2] == "Hora: " + e2.value.time;
      PrefixCancels("Fecha: ", e1.value.date, e2.value.date);
      PrefixCancels("Hora: ", e1.value.time, e2.value.time);
    }
  }

  function Blocked(flag: Flag): Plan {
    Plan(false, [], [], Some(flag), [])
  }

  function PlanPresencial(links: seq<LinkRef>, event: Option<EventInfo>): Plan {
    var maps := FirstOf(links, Maps);
    Plan(true, [], Details(ENTRY_CAPTION, Presencial, event, maps), None, if maps.Some? then [] else [MissingLink])
  }

  function PlanVirtual(links: seq<LinkRef>, event: Option<EventInfo>): Plan {
    if !HasAccessLink(links) then Blocked(MissingLink)
    else Plan(false, Details(VIRTUAL_INTRO, Virtual, event, None) + DeliveryLines(links), [], None, [])
  }

  function HybridPlan(caption: seq<string>, lines: seq<string>, noMap: bool, noAccess: bool): Plan {
    Plan(true, [],
         caption + (if lines != [] then ["", HYBRID_VIRTUAL_INTRO] + lines else []),
         None, if noMap || noAccess then [MissingLink] else [])
  }

  function PlanHybrid(links: seq<LinkRef>, event: Option<EventInfo>): Plan {
    var maps := FirstOf(links, Maps);
    HybridPlan(Details(HYBRID_CAPTION, Hybrid, event, maps), DeliveryLines(links), maps.None?, !HasAccessLink(links))
  }

  function PlanDelivery(modality: Modality, links: seq<LinkRef>, event: Option<EventInfo>): Plan {
    match modality
    case Presencial => PlanPresencial(links, event)
    case Virtual => PlanVirtual(links, event)
    case Hybrid => PlanHybrid(links, event)
    case Unset => Blocked(NoModality)
  }

  /** The notices of a hybrid plan before deduplication: no map, nothing that opens the course. */
  function Notices(noMap: bool, noAccess: bool): seq<Flag> {
    (if noMap then [MissingLink] else []) + (if noAccess then [MissingLink] else [])
  }

  method BuildHybrid(links: seq<LinkRef>, event: Option<EventInfo>) returns (plan: Plan)
    ensures plan == PlanHybrid(links, event)
  {
    var maps := FirstOf(links, Maps);
    var caption := WithDetails(HYBRID_CAPTION, Hybrid, event, maps);
    plan := AssembleHybrid(caption, DeliveryLines(links), maps.None?, !HasAccessLink(links));
  }

  /** Warnings pile up as pieces are found missing, and are deduplicated at the end. */
  method AssembleHybrid(details: seq<string>, lines: seq<string>, noMap: bool, noAccess: bool) returns (plan: Plan)
    ensures plan == HybridPlan(details, lines, noMap, noAccess)
  {
    var caption := details;
    var warnings: seq<Flag> := if noMap then [MissingLink] else [];
    if lines != [] {
      caption := caption + (["", HYBRID_VIRTUAL_INTRO] + lines);
    }
    if noAccess {
      warnings := warnings + [MissingLink];
    }
    NoticedOnce(noMap, noAccess);
    assert warnings == Notices(noMap, noAccess);
    plan := Plan(true, [], caption, None, FirstOccurrences(warnings));
  }

  lemma NoticedOnce(noMap: bool, noAccess: bool)
    ensures FirstOccurrences(Notices(noMap, noAccess)) == if noMap || noAccess then [MissingLink] else []
  {
    if noMap && noAccess {
      FirstOccurrencesStep<Flag>([MissingLink], MissingLink);
      DistinctIsUnchanged<Flag>([MissingLink]);
    } else {
      DistinctIsUnchanged(Notices(noMap, noAccess));
    }
  }

  // ---------------------------------------------------------------- stable grouping

  predicate Deliverable(link: LinkRef) {
    link.kind in KIND_ORDER && !IsBlank(link.url)
  }

  function Rank(kind: Kind): nat {
    match kind
    case WhatsappGroup => 0
    case Meeting => 1
    case Other => 2
    case _ => 3
  }

  predicate Grouped(links: seq<LinkRef>) {
    forall i, j :: 0 <= i < j < |links| ==> Rank(links[i].kind) <= Rank(links[j].kind)
  }

  lemma {:induction false} OfKindCount(links: seq<LinkRef>, kind: Kind, x: LinkRef)
    ensures multiset(OfKind(links, kind))[x] == if Usable(x, kind) then multiset(links)[x] else 0
  {
    if links != [] {
      OfKindCount(links[..|links| - 1], kind, x);
      assert links == links[..|links| - 1] + [links[|links| - 1]];
    }
  }

  lemma {:induction false} OfKindIsUsable(links: seq<LinkRef>, kind: Kind)
    ensures forall i :: 0 <= i < |OfKind(links, kind)| ==> Usable(OfKind(links, kind)[i], kind)
  {
    if links != [] {
      OfKindIsUsable(links[..|links| - 1], kind);
    }
  }

  lemma {:induction false} OfKindConcat(a: seq<LinkRef>, b: seq<LinkRef>, kind: Kind)
    ensures OfKind(a + b, kind) == OfKind(a, kind) + OfKind(b, kind)
    decreases |b|
  {
    if b == [] {
      assert a + b == a;
    } else {
      var init := b[..|b| - 1];
      OfKindConcat(a, init, kind);
      assert (a + b)[..|a + b| - 1] == a + init;
    }
  }

  lemma {:induction false} OfKindOfUsable(links: seq<LinkRef>, of: Kind, kind: Kind)
    requires forall i :: 0 <= i < |links| ==> Usable(links[i], of)
    ensures OfKind(links, kind) == if kind == of then links else []
  {
    if links != [] {
      var init := links[..|links| - 1];
      OfKindOfUsable(init, of, kind);
      assert links == init + [links[|links| - 1]];
    }
  }

  lemma OfKindTwice(links: seq<LinkRef>, of: Kind, kind: Kind)
    ensures OfKind(OfKind(links, of), kind) == if kind == of then OfKind(links, of) else []
  {
    OfKindIsUsable(links, of);
    OfKindOfUsable(OfKind(links, of), of, kind);
  }

  /** Every deliverable link goes out, as often as it was loaded, and nothing else does. */
  lemma OrderedIsComplete(links: seq<LinkRef>, x: LinkRef)
    ensures multiset(Ordered(links))[x] == if Deliverable(x) then multiset(links)[x] else 0
  {
    OfKindCount(links, WhatsappGroup, x);
    OfKindCount(links, Meeting, x);
    OfKindCount(links, Other, x);
  }

  lemma UsableAreGrouped(a: seq<LinkRef>, b: seq<LinkRef>, c: seq<LinkRef>)
    requires forall i :: 0 <= i < |a| ==> a[i].kind == WhatsappGroup
    requires forall i :: 0 <= i < |b| ==> b[i].kind == Meeting
    requires forall i :: 0 <= i < |c| ==> c[i].kind == Other
    ensures Grouped(a + b + c)
  {
    var all := a + b + c;
    forall i | 0 <= i < |all|
      ensures Rank(all[i].kind) == if i < |a| then 0 else if i < |a| + |b| then 1 else 2
    {
    }
  }

  lemma OrderedIsGrouped(links: seq<LinkRef>)
    ensures Grouped(Ordered(links))
  {
    OfKindIsUsable(links, WhatsappGroup);
    OfKindIsUsable(links, Meeting);
    OfKindIsUsable(links, Other);
    UsableAreGrouped(OfKind(links, WhatsappGroup), OfKind(links, Meeting), OfKind(links, Other));
  }

  lemma OfKindOfThree(a: seq<LinkRef>, b: seq<LinkRef>, c: seq<LinkRef>, kind: Kind)
    ensures OfKind(a + b + c, kind) == OfKind(a, kind) + OfKind(b, kind) + OfKind(c, kind)
  {
    OfKindConcat(a + b, c, kind);
    OfKindConcat(a, b, kind);
  }

  lemma OrderedKeepsKind(links: seq<LinkRef>, kind: Kind)
    requires kind in KIND_ORDER
    ensures OfKind(Ordered(links), kind) == OfKind(links, kind)
  {
    var all := OfKind(links, kind);
    OfKindOfThree(OfKind(links, WhatsappGroup), OfKind(links, Meeting), OfKind(links, Other), kind);
    OfKindTwice(links, WhatsappGroup, kind);
    OfKindTwice(links, Meeting, kind);
    OfKindTwice(links, Other, kind);
    match kind
    case WhatsappGroup => assert all + [] + [] == all;
    case Meeting => assert [] + all + [] == all;
    case Other => assert [] + [] + all == all;
  }

  /** Kinds come in delivery order, and within a kind links keep the operator's order. */
  lemma OrderedIsStable(links: seq<LinkRef>)
    ensures Grouped(Ordered(links))
    ensures forall kind <- KIND_ORDER :: OfKind(Ordered(links), kind) == OfKind(links, kind)
  {
    OrderedIsGrouped(links);
    forall kind <- KIND_ORDER ensures OfKind(Ordered(links), kind) == OfKind(links, kind) {
      OrderedKeepsKind(links, kind);
    }
  }

  lemma {:induction false} SplitByKind(links: seq<LinkRef>)
    requires Grouped(links) && forall i :: 0 <= i < |links| ==> Deliverable(links[i])
    ensures links == Ordered(links)
  {
    if links != [] {
      var init, last := links[..|links| - 1], links[|links| - 1];
      SplitByKind(init);
      NothingAfter(init, last);
      OrderedStep(init, last);
      assert links == init + [last];
    }
  }

  /** A link whose kind comes last is listed last. */
  lemma OrderedStep(init: seq<LinkRef>, last: LinkRef)
    requires Deliverable(last)
    requires forall kind :: Rank(kind) > Rank(last.kind) ==> OfKind(init, kind) == []
    ensures Ordered(init + [last]) == Ordered(init) + [last]
  {
    assert (init + [last])[..|init|] == init;
  }

  lemma {:induction false} NothingAfter(init: seq<LinkRef>, last: LinkRef)
    requires forall i :: 0 <= i < |init| ==> Rank(init[i].kind) <= Rank(last.kind)
    ensures forall kind :: Rank(kind) > Rank(last.kind) ==> OfKind(init, kind) == []
  {
    if init != [] {
      NothingAfter(init[..|init| - 1], last);
    }
  }

  /** Grouping by kind, keeping order within a kind, determines the list: no other arrangement does both. */
  lemma OnlyStableGrouping(links: seq<LinkRef>, other: seq<LinkRef>)
    requires Grouped(other)
    requires forall i :: 0 <= i < |other| ==> Deliverable(other[i])
    requires forall kind :: kind in KIND_ORDER ==> OfKind(other, kind) == OfKind(links, kind)
    ensures other == Ordered(links)
  {
    SplitByKind(other);
    assert WhatsappGroup in KIND_ORDER && Meeting in KIND_ORDER && Other in KIND_ORDER;
  }

  // ---------------------------------------------------------------- the decision

  lemma {:induction false} AccessMeansALink(links: seq<LinkRef>, kind: Kind)
    ensures OfKind(links, kind) != [] <==> exists i :: 0 <= i < |links| && Usable(links[i], kind)
    ensures FirstOf(links, kind).Some? <==> OfKind(links, kind) != []
  {
    OfKindIsUsable(links, kind);
    FirstOfIsUsable(links, kind);
    if exists i :: 0 <= i < |links| && Usable(links[i], kind) {
      var i :| 0 <= i < |links| && Usable(links[i], kind);
      OfKindCount(links, kind, links[i]);
      assert links[i] in multiset(links);
    }
    if OfKind(links, kind) != [] {
      var x := OfKind(links, kind)[0];
      OfKindCount(links, kind, x);
      assert x in multiset(OfKind(links, kind));
      assert x in links;
    }
  }

  lemma {:induction false} FirstOfIsUsable(links: seq<LinkRef>, kind: Kind)
    ensures FirstOf(links, kind).Some? <==> exists i :: 0 <= i < |links| && Usable(links[i], kind)
    ensures FirstOf(links, kind).Some? ==> Usable(FirstOf(links, kind).value, kind)
  {
    if links != [] {
      FirstOfIsUsable(links[1..], kind);
      if !Usable(links[0], kind) {
        assert forall i :: 1 <= i < |links| ==> links[1..][i - 1] == links[i];
        if exists i :: 0 <= i < |links| && Usable(links[i], kind) {
          var i :| 0 <= i < |links| && Usable(links[i], kind);
          assert Usable(links[1..][i - 1], kind);
        }
      }
    }
  }

  predicate Holds(links: seq<LinkRef>, kind: Kind) {
    exists i :: 0 <= i < |links| && Usable(links[i], kind)
  }

  /**
   * A plan is blocked exactly when the modality is unknown, or the course is virtual and no
   * usable link opens it. A course with an in-person part always ships its entry, and warns
   * exactly about what is missing; whatever is planned, nothing is sent blocked.
   */
  lemma DecidesExactly(modality: Modality, links: seq<LinkRef>, event: Option<EventInfo>)
    ensures var plan := PlanDelivery(modality, links, event);
            var opens := Holds(links, WhatsappGroup) || Holds(links, Meeting);
            && (plan.blockedBy.Some? <==> modality == Unset || (modality == Virtual && !opens))
            && (plan.blockedBy.Some? ==> plan == Blocked(if modality == Unset then NoModality else MissingLink))
            && (plan.needsEntry <==> modality == Presencial || modality == Hybrid)
            && plan.warnings == (if (plan.needsEntry && !Holds(links, Maps)) || (modality == Hybrid && !opens)
                                 then [MissingLink] else [])
  {
    AccessMeansALink(links, WhatsappGroup);
    AccessMeansALink(links, Meeting);
    AccessMeansALink(links, Maps);
  }

  /** What the lead reads, without the opening lines. */
  function SentLines(modality: Modality, links: seq<LinkRef>, event: Option<EventInfo>): seq<string> {
    var plan := PlanDelivery(modality, links, event);
    if plan.needsEntry then plan.caption else plan.text
  }

  lemma LineIsListed(links: seq<LinkRef>, i: nat) returns (k: nat)
    requires i < |links| && Deliverable(links[i])
    ensures k < |DeliveryLines(links)| && DeliveryLines(links)[k] == Line(links[i])
  {
    var ordered := Ordered(links);
    OrderedIsComplete(links, links[i]);
    assert links[i] in multiset(links);
    assert links[i] in ordered;
    k := FirstIndex(ordered, links[i]);
  }

  /** The lines close the message, after its opening. */
  lemma SentEndsWithLines(modality: Modality, links: seq<LinkRef>, event: Option<EventInfo>) returns (opening: seq<string>)
    requires modality == Virtual || modality == Hybrid
    requires PlanDelivery(modality, links, event).blockedBy.None?
    ensures SentLines(modality, links, event) == opening + DeliveryLines(links)
  {
    var lines := DeliveryLines(links);
    if modality == Virtual {
      opening := Details(VIRTUAL_INTRO, Virtual, event, None);
    } else {
      var details := Details(HYBRID_CAPTION, Hybrid, event, FirstOf(links, Maps));
      opening := if lines != [] then details + ["", HYBRID_VIRTUAL_INTRO] else details;
      assert details + (["", HYBRID_VIRTUAL_INTRO] + lines) == details + ["", HYBRID_VIRTUAL_INTRO] + lines;
    }
  }

  /** A course with a virtual part that is not blocked delivers every deliverable link, one line each. */
  lemma EveryLinkIsSent(modality: Modality, links: seq<LinkRef>, event: Option<EventInfo>, i: nat)
    requires modality == Virtual || modality == Hybrid
    requires PlanDelivery(modality, links, event).blockedBy.None?
    requires i < |links| && Deliverable(links[i])
    ensures Line(links[i]) in SentLines(modality, links, event)
  {
    var k := LineIsListed(links, i);
    var opening := SentEndsWithLines(modality, links, event);
    InTail(opening, DeliveryLines(links), k);
  }
}
