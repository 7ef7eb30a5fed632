/** The notices of a card: known codes only, in order of appearance, each once. */
module CardFlags {
  import opened Sequences

  /** The codes; `Unknown` is whatever another version of the service wrote. */
  datatype Flag =
    | NeedsName | DeliveryPending | ExtraReceipt | NoModality | MissingLink | AmbiguousService
    | ReceiptReview | PaymentUnconfirmed | NoEvent | CapacityFull
    | Unknown(code: string)

  /** The notices that speak about the last delivery attempt. */
  const DELIVERY_FLAGS: set<Flag> :=
    {DeliveryPending, NoModality, MissingLink, AmbiguousService, NeedsName, NoEvent, CapacityFull}

  const OTHER_FLAGS: set<Flag> := {ExtraReceipt, ReceiptReview, PaymentUnconfirmed}

  const ALL_FLAGS: set<Flag> := DELIVERY_FLAGS + OTHER_FLAGS

  /** What the JSON column may hold. */
  datatype Item = Code(flag: Flag) | NotText
  datatype Raw = NotAList | AList(items: seq<Item>)

  function Codes(items: seq<Item>): seq<Flag> {
    if items == [] then []
    else
      var rest := Codes(items[..|items| - 1]);
      match items[|items| - 1]
      case Code(flag) => rest + [flag]
      case NotText => rest
  }

  /** The notices that a list of codes stands for. */
  function Known(codes: seq<Flag>): seq<Flag> {
    FirstOccurrences(Select(codes, ALL_FLAGS))
  }

  function Removed(flags: seq<Flag>, gone: set<Flag>): seq<Flag> {
    Select(Known(flags), ALL_FLAGS - gone)
  }

  function Added(flags: seq<Flag>, extra: seq<Flag>): seq<Flag> {
    Known(Known(flags) + extra)
  }

  function DeliveryReplaced(flags: seq<Flag>, extra: seq<Flag>): seq<Flag> {
    Added(Removed(flags, DELIVERY_FLAGS), extra)
  }

  // ---------------------------------------------------------------- the operations

  lemma KnownStep(codes: seq<Flag>, code: Flag)
    ensures Known(codes + [code])
            == if code in ALL_FLAGS && code !in Known(codes) then Known(codes) + [code] else Known(codes)
  {
    SelectStep(codes, code, ALL_FLAGS);
    if code in ALL_FLAGS {
      FirstOccurrencesStep(Select(codes, ALL_FLAGS), code);
    }
  }

  /** Tolerant reading of the column: whatever is not a known code is dropped. */
  method Normalize(raw: Raw) returns (flags: seq<Flag>)
    ensures flags == match raw case NotAList => [] case AList(items) => Known(Codes(items))
  {
    flags := [];
    if raw.NotAList? {
      return;
    }
    for i := 0 to |raw.items|
      invariant flags == Known(Codes(raw.items[..i]))
    {
      assert raw.items[..i + 1][..i] == raw.items[..i];
      if raw.items[i].Code? {
        var code := raw.items[i].flag;
        KnownStep(Codes(raw.items[..i]), code);
        if code in ALL_FLAGS && code !in flags {
          flags := flags + [code];
        }
      }
    }
    assert raw.items[..|raw.items|] == raw.items;
  }

  function AsItems(codes: seq<Flag>): seq<Item> {
    seq(|codes|, i requires 0 <= i < |codes| => Code(codes[i]))
  }

  lemma {:induction false} CodesOfItems(codes: seq<Flag>)
    ensures Codes(AsItems(codes)) == codes
  {
    if codes != [] {
      var init := codes[..|codes| - 1];
      CodesOfItems(init);
      assert AsItems(codes)[..|codes| - 1] == AsItems(init);
    }
  }

  method Add(flags: seq<Flag>, extra: seq<Flag>) returns (result: seq<Flag>)
    ensures result == Added(flags, extra)
  {
    result := Normalize(AList(AsItems(flags)));
    CodesOfItems(flags);
    KnownIsStable(flags);
    result := AppendCodes(result, extra);
  }

  lemma KnownPrefixStep(base: seq<Flag>, extra: seq<Flag>, i: nat)
    requires i < |extra|
    ensures Known(base + extra[..i + 1])
            == if extra[i] in ALL_FLAGS && extra[i] !in Known(base + extra[..i]) then Known(base + extra[..i]) + [extra[i]]
               else Known(base + extra[..i])
  {
    PrefixStep(base, extra, i);
    KnownStep(base + extra[..i], extra[i]);
  }

  method AppendCodes(base: seq<Flag>, extra: seq<Flag>) returns (result: seq<Flag>)
    requires Known(base) == base
    ensures result == Known(base + extra)
  {
    result := base;
    assert base + extra[..0] == base;
    for i := 0 to |extra|
      invariant result == Known(base + extra[..i])
    {
      KnownPrefixStep(base, extra, i);
      if extra[i] in ALL_FLAGS && extra[i] !in result {
        result := result + [extra[i]];
      }
    }
    assert extra[..|extra|] == extra;
  }

  function Flattened(groups: seq<seq<Flag>>): seq<Flag> {
    if groups == [] then [] else Flattened(groups[..|groups| - 1]) + groups[|groups| - 1]
  }

  /** Several groups of notices as one list. */
  method Merge(groups: seq<seq<Flag>>) returns (result: seq<Flag>)
    ensures result == Known(Flattened(groups))
  {
    result := [];
    for i := 0 to |groups|
      invariant result == Known(Flattened(groups[..i]))
    {
      assert groups[..i + 1][..i] == groups[..i];
      KnownIsStable(Flattened(groups[..i]));
      AddedAbsorbs(Flattened(groups[..i]), groups[i]);
      result := Add(result, groups[i]);
    }
    assert groups[..|groups|] == groups;
  }

  // ---------------------------------------------------------------- laws

  lemma KnownIsStable(flags: seq<Flag>)
    ensures Known(Known(flags)) == Known(flags)
    ensures Distinct(Known(flags))
    ensures forall f :: f in Known(flags) <==> f in flags && f in ALL_FLAGS
  {
    SelectHolds(flags, ALL_FLAGS);
    FirstOccurrencesIsASet(Select(flags, ALL_FLAGS));
    SelectOfFirst(flags, ALL_FLAGS);
    SelectOfFirst(Select(flags, ALL_FLAGS), ALL_FLAGS);
    SelectTwice(flags, ALL_FLAGS, ALL_FLAGS);
    assert ALL_FLAGS * ALL_FLAGS == ALL_FLAGS;
    DistinctIsUnchanged(Known(flags));
  }

  /** What a list of notices becomes by appending codes depends only on its known notices. */
  lemma {:induction false} KnownExtends(a: seq<Flag>, b: seq<Flag>, more: seq<Flag>)
    requires Known(a) == Known(b)
    ensures Known(a + more) == Known(b + more)
    decreases |more|
  {
    if more == [] {
      assert a + more == a && b + more == b;
    } else {
      var init, last := more[..|more| - 1], more[|more| - 1];
      KnownExtends(a, b, init);
      SplitLast(a, more);
      SplitLast(b, more);
      KnownStep(a + init, last);
      KnownStep(b + init, last);
    }
  }

  lemma AddedAbsorbs(flags: seq<Flag>, more: seq<Flag>)
    ensures Added(flags, more) == Known(flags + more)
  {
    KnownIsStable(flags);
    KnownExtends(Known(flags), flags, more);
  }

  lemma AppendOneKnown(flags: seq<Flag>, flag: Flag)
    requires flag in ALL_FLAGS && flag !in flags
    ensures Known(flags + [flag]) == Known(flags) + [flag]
  {
    KnownStep(flags, flag);
    KnownIsStable(flags);
  }

  lemma {:induction false} AppendKnown(kept: seq<Flag>, added: seq<Flag>)
    requires Distinct(added)
    requires forall k :: 0 <= k < |added| ==> added[k] in ALL_FLAGS && added[k] !in kept
    ensures Known(kept + added) == Known(kept) + added
    decreases |added|
  {
    if added == [] {
      assert kept + added == kept;
    } else {
      var init, last := added[..|added| - 1], added[|added| - 1];
      AppendKnown(kept, init);
      SplitLast(kept, added);
      SplitLast(Known(kept), added);
      AppendOneKnown(kept + init, last);
    }
  }

  /**
   * A new attempt replaces the notices of the previous one and nothing else: the other known
   * notices keep their order and come first, then exactly the new ones.
   */
  lemma ReplaceKeepsTheRest(flags: seq<Flag>, extra: seq<Flag>)
    requires Distinct(extra)
    requires forall k :: 0 <= k < |extra| ==> extra[k] in DELIVERY_FLAGS
    ensures DeliveryReplaced(flags, extra) == Select(Known(flags), OTHER_FLAGS) + extra
  {
    var kept := Removed(flags, DELIVERY_FLAGS);
    assert ALL_FLAGS - DELIVERY_FLAGS == OTHER_FLAGS;
    KnownIsStable(flags);
    SelectHolds(Known(flags), OTHER_FLAGS);
    KnownOfKept(flags);
    AppendKnown(kept, extra);
    KnownIsStable(kept);
  }

  lemma KnownOfKept(flags: seq<Flag>)
    ensures Known(Removed(flags, DELIVERY_FLAGS)) == Removed(flags, DELIVERY_FLAGS)
  {
    var keep := ALL_FLAGS - DELIVERY_FLAGS;
    KnownIsStable(flags);
    SelectHolds(Known(flags), keep);
    SelectTwice(Known(flags), keep, ALL_FLAGS);
    assert keep * ALL_FLAGS == keep;
    DistinctIsUnchanged(Removed(flags, DELIVERY_FLAGS));
  }
}
