/** What the computed totals owe to the lines, whatever the lines are. */
module ComputeLaws {
  import opened Prelude
  import opened Seqs
  import opened Money
  import opened DecimalText
  import opened Draft
  import opened Compute

  // ---------------------------------------------------------------------- totals of sequences

  lemma TotalAppends(amounts: seq<Decimal>, last: Decimal)
    ensures Total(amounts + [last]) == Total(amounts) + last.value
  {
    assert (amounts + [last])[..|amounts + [last]| - 1] == amounts;
  }

  lemma {:induction false} TotalWithout(amounts: seq<Decimal>, k: nat)
    requires k < |amounts|
    ensures Total(amounts) == Total(Without(amounts, k)) + amounts[k].value
  {
    var front, last := amounts[..|amounts| - 1], amounts[|amounts| - 1];
    if k == |front| {
      assert Without(amounts, k) == front;
    } else {
      TotalWithout(front, k);
      assert Without(amounts, k) == Without(front, k) + [last];
      TotalAppends(Without(front, k), last);
    }
  }

  lemma {:induction false} TotalPermutes(a: seq<Decimal>, b: seq<Decimal>)
    requires multiset(a) == multiset(b)
    ensures Total(a) == Total(b)
  {
    if a != [] {
      var last := |a| - 1;
      assert a[last] in multiset(b);
      var k :| 0 <= k < |b| && b[k] == a[last];
      TotalWithout(a, last);
      TotalWithout(b, k);
      WithoutIsOneLess(a, last);
      WithoutIsOneLess(b, k);
      TotalPermutes(Without(a, last), Without(b, k));
    } else {
      assert |multiset(b)| == 0;
      assert b == [];
    }
  }

  lemma GroupIsMonetary(key: GroupKey, members: seq<ComputedLine>)
    requires members != []
    ensures TaxOf(GroupOf(key, members)).scale == MONETARY_SCALE
  {
    var product := Multiply(Sum(Nets(members)), GroupOf(key, members).ratePercent);
    hide Sum, Nets, Rescale, FirstReason;
    RescaleHasScale(Decimal(product.value, product.scale + 2), MONETARY_SCALE);
  }

  lemma LinesAreMonetary(draft: InvoiceDraft)
    requires Computed(draft).Ok?
    ensures AllMonetary(Nets(Computed(draft).value.lines))
    ensures AllMonetary(Map(TaxOf, Computed(draft).value.taxGroups))
  {
    LineFacts(draft.lines);
    var lines, groups := Computed(draft).value.lines, Computed(draft).value.taxGroups;
    hide ComputeLines, PrepaidOf, Sum, Rescale, GroupOf, TaxOf, Keys, InGroup;
    KeysAreDistinct(lines);
    forall k | 0 <= k < |groups| ensures TaxOf(groups[k]).scale == MONETARY_SCALE {
      assert Keys(lines)[k] in Keys(lines);
      GroupIsMonetary(Keys(lines)[k], InGroup(lines, Keys(lines)[k]));
    }
  }

  predicate IsRoundedNet(line: ComputedLine) {
    && line.netAmount == Rescale(Multiply(line.quantity, line.unitPrice), MONETARY_SCALE)
    && line.netAmount.scale == MONETARY_SCALE
  }

  lemma LineIsRounded(line: DraftLine, k: nat)
    requires ComputeLine(line, k).Ok?
    ensures IsRoundedNet(ComputeLine(line, k).value)
  {
    var computed := ComputeLine(line, k).value;
    hide ParseDecimal, Rescale, Multiply;
    RescaleHasScale(Multiply(computed.quantity, computed.unitPrice), MONETARY_SCALE);
  }

  lemma NoLineComputes()
    ensures ComputeLines([]) == Ok([])
  {}

  lemma LastLine(lines: seq<DraftLine>)
    requires lines != [] && ComputeLines(lines).Ok?
    ensures var n := |lines| - 1;
            && ComputeLines(lines[..n]).Ok? && ComputeLine(lines[n], n).Ok?
            && ComputeLines(lines).value == ComputeLines(lines[..n]).value + [ComputeLine(lines[n], n).value]
  {
    hide ComputeLine;
  }

  /** Each computed line comes from the draft line at its own position. */
  lemma {:induction false} LineFacts(lines: seq<DraftLine>)
    requires ComputeLines(lines).Ok?
    ensures |ComputeLines(lines).value| == |lines|
    ensures forall k :: 0 <= k < |lines| ==> ComputeLine(lines[k], k) == Ok(ComputeLines(lines).value[k])
    ensures forall k :: 0 <= k < |lines| ==> IsRoundedNet(ComputeLines(lines).value[k])
  {
    hide *;
    if lines == [] {
      NoLineComputes();
    } else {
      var n := |lines| - 1;
      LastLine(lines);
      LineFacts(lines[..n]);
      LineIsRounded(lines[n], n);
      assert forall k :: 0 <= k < n ==> lines[..n][k] == lines[k];
    }
  }

  // ---------------------------------------------------------------------- the partition

  /** Every line is in the group of its own key and in no other, as often as it is on the invoice. */
  lemma {:induction false} GroupsPartition(lines: seq<ComputedLine>, key: GroupKey, line: ComputedLine)
    ensures multiset(InGroup(lines, key))[line] == if KeyOf(line) == key then multiset(lines)[line] else 0
    ensures line in lines ==> KeyOf(line) in Keys(lines)
  {
    if lines != [] {
      var front, last := lines[..|lines| - 1], lines[|lines| - 1];
      assert lines == front + [last];
      GroupsPartition(front, key, line);
    }
  }

  function FirstIndex(lines: seq<ComputedLine>, key: GroupKey): (index: nat)
    ensures index <= |lines|
    ensures index < |lines| ==> KeyOf(lines[index]) == key
    ensures forall k :: 0 <= k < index ==> KeyOf(lines[k]) != key
  {
    if lines == [] then 0
    else if KeyOf(lines[0]) == key then 0
    else
      var rest := lines[1..];
      assert forall k :: 1 <= k < |lines| ==> rest[k - 1] == lines[k];
      1 + FirstIndex(rest, key)
  }

  /** The groups come in the order in which their keys first appear. */
  lemma {:induction false} KeysFollowFirstAppearance(lines: seq<ComputedLine>, j: nat, k: nat)
    requires j < k < |Keys(lines)|
    ensures FirstIndex(lines, Keys(lines)[j]) < FirstIndex(lines, Keys(lines)[k]) < |lines|
  {
    var front, last := lines[..|lines| - 1], lines[|lines| - 1];
    var keys := Keys(lines);
    KeysAreDistinct(front);
    assert lines == front + [last];
    assert keys[j] in Keys(front);
    FirstIndexInFront(front, last, keys[j]);
    if k < |Keys(front)| {
      KeysFollowFirstAppearance(front, j, k);
      FirstIndexInFront(front, last, keys[k]);
    } else {
      FirstIndexIsLast(front, last);
    }
  }

  lemma FirstIndexIs(lines: seq<ComputedLine>, key: GroupKey, index: nat)
    requires index < |lines| && KeyOf(lines[index]) == key && forall k :: 0 <= k < index ==> KeyOf(lines[k]) != key
    ensures FirstIndex(lines, key) == index
  {}

  lemma FirstIndexInFront(front: seq<ComputedLine>, last: ComputedLine, key: GroupKey)
    requires key in Keys(front)
    ensures FirstIndex(front + [last], key) == FirstIndex(front, key) < |front|
  {
    KeysAreDistinct(front);
    FirstIndexIs(front + [last], key, FirstIndex(front, key));
  }

  lemma {:induction false} FirstIndexIsLast(front: seq<ComputedLine>, last: ComputedLine)
    requires KeyOf(last) !in Keys(front)
    ensures FirstIndex(front + [last], KeyOf(last)) == |front|
  {
    KeysAreDistinct(front);
    FirstIndexIs(front + [last], KeyOf(last), |front|);
  }

  // ---------------------------------------------------------------------- the bases add up

  function NetTotal(lines: seq<ComputedLine>): int {
    Total(Nets(lines))
  }

  lemma NetTotalAppends(lines: seq<ComputedLine>, last: ComputedLine)
    ensures NetTotal(lines + [last]) == NetTotal(lines) + last.netAmount.value
  {
    assert Nets(lines + [last]) == Nets(lines) + [last.netAmount];
    TotalAppends(Nets(lines), last.netAmount);
  }

  /** The net totals of the groups `keys`, added up. */
  function BasesTotal(lines: seq<ComputedLine>, keys: seq<GroupKey>): int {
    if keys == [] then 0
    else BasesTotal(lines, keys[..|keys| - 1]) + NetTotal(InGroup(lines, keys[|keys| - 1]))
  }

  lemma InGroupAppends(front: seq<ComputedLine>, last: ComputedLine, key: GroupKey)
    ensures InGroup(front + [last], key) == if KeyOf(last) == key then InGroup(front, key) + [last] else InGroup(front, key)
  {
    assert (front + [last])[..|front + [last]| - 1] == front;
  }

  /** One more line adds its net amount to the group it falls in, and to no other. */
  lemma {:induction false} BasesTotalAppends(front: seq<ComputedLine>, last: ComputedLine, keys: seq<GroupKey>)
    requires Distinct(keys)
    ensures BasesTotal(front + [last], keys) ==
              BasesTotal(front, keys) + if KeyOf(last) in keys then last.netAmount.value else 0
  {
    if keys != [] {
      var init, key := keys[..|keys| - 1], keys[|keys| - 1];
      assert keys == init + [key];
      BasesTotalAppends(front, last, init);
      InGroupAppends(front, last, key);
      NetTotalAppends(InGroup(front, key), last);
    }
  }

  /** A line under a key of its own opens a group of its own. */
  lemma NewGroupAdds(front: seq<ComputedLine>, last: ComputedLine)
    requires KeyOf(last) !in Keys(front)
    ensures BasesTotal(front + [last], Keys(front) + [KeyOf(last)]) == BasesTotal(front + [last], Keys(front)) + last.netAmount.value
  {
    var key := KeyOf(last);
    KeysAreDistinct(front);
    InGroupAppends(front, last, key);
    NetTotalAppends([], last);
    assert InGroup(front + [last], key) == [last] == [] + [last];
    assert (Keys(front) + [key])[..|Keys(front) + [key]| - 1] == Keys(front);
    hide Keys, InGroup;
    assert NetTotal([]) == 0;
  }

  lemma KeysAppend(front: seq<ComputedLine>, last: ComputedLine)
    ensures Keys(front + [last]) == if KeyOf(last) in Keys(front) then Keys(front) else Keys(front) + [KeyOf(last)]
  {
    assert (front + [last])[..|front + [last]| - 1] == front;
  }

  lemma DistinctKeys(lines: seq<ComputedLine>)
    ensures Distinct(Keys(lines))
  {
    KeysAreDistinct(lines);
  }

  lemma NothingToAdd()
    ensures BasesTotal([], Keys([])) == 0 == NetTotal([])
  {}

  lemma {:induction false} BasesTotalIsNetTotal(lines: seq<ComputedLine>)
    ensures BasesTotal(lines, Keys(lines)) == NetTotal(lines)
  {
    hide *;
    if lines == [] {
      NothingToAdd();
    } else {
      var front, last := lines[..|lines| - 1], lines[|lines| - 1];
      assert lines == front + [last];
      BasesTotalIsNetTotal(front);
      DistinctKeys(front);
      KeysAppend(front, last);
      BasesTotalAppends(front, last, Keys(front));
      NetTotalAppends(front, last);
      if KeyOf(last) !in Keys(front) {
        NewGroupAdds(front, last);
      }
    }
  }

  lemma GroupsAreMonetary(draft: InvoiceDraft, k: nat)
    requires Computed(draft).Ok? && k < |Computed(draft).value.taxGroups|
    ensures var lines, group := Computed(draft).value.lines, Computed(draft).value.taxGroups[k];
            && group.basisAmount == Decimal(NetTotal(InGroup(lines, Keys(lines)[k])), MONETARY_SCALE)
            && group.calculatedAmount.scale == MONETARY_SCALE
            && group.ratePercent.scale == MONETARY_SCALE
  {
    LinesAreMonetary(draft);
    var lines := Computed(draft).value.lines;
    var members := InGroup(lines, Keys(lines)[k]);
    forall j | 0 <= j < |members| ensures members[j] in lines && NetOf(members[j]).scale == MONETARY_SCALE {
      MembersAreLines(lines, Keys(lines)[k], j);
      var i :| 0 <= i < |lines| && lines[i] == members[j];
      assert Nets(lines)[i].scale == MONETARY_SCALE;
    }
    MonetarySum(Nets(members));
    assert TaxOf(Computed(draft).value.taxGroups[k]) == Map(TaxOf, Computed(draft).value.taxGroups)[k];
  }

  lemma {:induction false} MembersAreLines(lines: seq<ComputedLine>, key: GroupKey, j: nat)
    requires j < |InGroup(lines, key)|
    ensures InGroup(lines, key)[j] in lines
  {
    var front := lines[..|lines| - 1];
    if j < |InGroup(front, key)| {
      MembersAreLines(front, key, j);
    }
  }

  function BasisOf(group: ComputedTaxGroup): Decimal {
    group.basisAmount
  }

  lemma {:induction false} BasesTotalIsTotal(lines: seq<ComputedLine>, keys: seq<GroupKey>, bases: seq<Decimal>)
    requires |bases| == |keys| && forall k :: 0 <= k < |keys| ==> bases[k].value == NetTotal(InGroup(lines, keys[k]))
    ensures Total(bases) == BasesTotal(lines, keys)
  {
    if keys != [] {
      BasesTotalIsTotal(lines, keys[..|keys| - 1], bases[..|bases| - 1]);
    }
  }

  lemma CentsAdd(x: int, y: int)
    ensures Add(Decimal(x, MONETARY_SCALE), Decimal(y, MONETARY_SCALE)) == Decimal(x + y, MONETARY_SCALE)
    ensures Subtract(Decimal(x, MONETARY_SCALE), Decimal(y, MONETARY_SCALE)) == Decimal(x - y, MONETARY_SCALE)
  {}

  lemma PrepaidIsMonetary(draft: InvoiceDraft)
    requires PrepaidOf(draft).Ok?
    ensures PrepaidOf(draft).value.scale == MONETARY_SCALE
  {
    RescaleHasScale(ZERO, MONETARY_SCALE);
    if Stated(draft.prepaidAmount) {
      RescaleHasScale(ParseDecimal(draft.prepaidAmount).value, MONETARY_SCALE);
    }
  }

  /** All totals are exact to the cent, the bases add up to the line total, and the chain to the amount due holds. */
  lemma TotalsAddUp(draft: InvoiceDraft)
    requires Computed(draft).Ok?
    ensures var invoice := Computed(draft).value;
            var totals := invoice.totals;
            && totals.lineTotalAmount == Decimal(Total(Nets(invoice.lines)), MONETARY_SCALE)
            && totals.lineTotalAmount == Decimal(Total(Map(BasisOf, invoice.taxGroups)), MONETARY_SCALE)
            && totals.taxBasisTotalAmount == totals.lineTotalAmount
            && totals.taxTotalAmount == Decimal(Total(Map(TaxOf, invoice.taxGroups)), MONETARY_SCALE)
            && totals.grandTotalAmount == Decimal(totals.taxBasisTotalAmount.value + totals.taxTotalAmount.value, MONETARY_SCALE)
            && totals.prepaidAmount.scale == MONETARY_SCALE
            && totals.duePayableAmount == Decimal(totals.grandTotalAmount.value - totals.prepaidAmount.value, MONETARY_SCALE)
  {
    var invoice := Computed(draft).value;
    LinesAreMonetary(draft);
    PrepaidIsMonetary(draft);
    BasesAreTheLineTotal(draft);
    MonetarySum(Nets(invoice.lines));
    MonetarySum(Map(TaxOf, invoice.taxGroups));
    hide ComputeLines, PrepaidOf, TaxGroups, Sum, Add, Subtract, Nets;
    var lineTotal, taxTotal := Total(Nets(invoice.lines)), Total(Map(TaxOf, invoice.taxGroups));
    CentsAdd(lineTotal, taxTotal);
    CentsAdd(lineTotal + taxTotal, invoice.totals.prepaidAmount.value);
  }

  lemma BasesAreTheLineTotal(draft: InvoiceDraft)
    requires Computed(draft).Ok?
    ensures Total(Map(BasisOf, Computed(draft).value.taxGroups)) == Total(Nets(Computed(draft).value.lines))
  {
    var invoice := Computed(draft).value;
    forall k | 0 <= k < |Keys(invoice.lines)|
      ensures k < |invoice.taxGroups| && invoice.taxGroups[k].basisAmount.value == NetTotal(InGroup(invoice.lines, Keys(invoice.lines)[k]))
    {
      GroupsAreMonetary(draft, k);
    }
    assert |invoice.taxGroups| == |Keys(invoice.lines)|;
    BasesTotalIsNetTotal(invoice.lines);
    hide Computed, Keys, BasesTotal;
    BasesTotalIsTotal(invoice.lines, Keys(invoice.lines), Map(BasisOf, invoice.taxGroups));
  }

  // ---------------------------------------------------------------------- the order of the lines

  function Unnumbered(line: ComputedLine): ComputedLine {
    line.(lineId := "")
  }

  /** A draft line computed on its own, its position left out. */
  function Alone(line: DraftLine): Option<ComputedLine> {
    match ComputeLine(line, 0)
    case Err(_) => None
    case Ok(computed) => Some(Unnumbered(computed))
  }

  function Masked(line: ComputedLine, key: GroupKey): Decimal {
    if KeyOf(line) == key then line.netAmount else Decimal(0, MONETARY_SCALE)
  }

  lemma PositionOnlyNumbers(line: DraftLine, index: nat)
    ensures ComputeLine(line, index).Ok? <==> Alone(line).Some?
    ensures ComputeLine(line, index).Ok? ==> Unnumbered(ComputeLine(line, index).value) == Alone(line).value
  {}

  lemma {:induction false} ComputesIffEachLineDoes(lines: seq<DraftLine>)
    ensures ComputeLines(lines).Ok? <==> forall line :: line in lines ==> Alone(line).Some?
    ensures ComputeLines(lines).Ok? ==> Map(l => Some(Unnumbered(l)), ComputeLines(lines).value) == Map(Alone, lines)
  {
    if lines != [] {
      var front, last := lines[..|lines| - 1], lines[|lines| - 1];
      assert lines == front + [last];
      ComputesIffEachLineDoes(front);
      PositionOnlyNumbers(last, |front|);
      hide ComputeLine, Alone;
      if ComputeLines(lines).Ok? {
        LineFacts(lines);
        forall k | 0 <= k < |lines| ensures Some(Unnumbered(ComputeLines(lines).value[k])) == Alone(lines[k]) {
          PositionOnlyNumbers(lines[k], k);
        }
      }
    }
  }

  /** The net total of a group as a sum over all the lines. */
  lemma {:induction false} GroupIsMasked(lines: seq<ComputedLine>, key: GroupKey)
    ensures NetTotal(InGroup(lines, key)) == Total(Map(l => Masked(l, key), lines))
  {
    if lines != [] {
      var front, last := lines[..|lines| - 1], lines[|lines| - 1];
      GroupIsMasked(front, key);
      assert Map(l => Masked(l, key), lines) == Map(l => Masked(l, key), front) + [Masked(last, key)];
      TotalAppends(Map(l => Masked(l, key), front), Masked(last, key));
      NetTotalAppends(InGroup(front, key), last);
    }
  }

  lemma MaskIgnoresNumbers(lines: seq<ComputedLine>, key: GroupKey)
    ensures Map(l => Masked(l, key), Map(Unnumbered, lines)) == Map(l => Masked(l, key), lines)
  {}

  lemma MaskedPermutes(a: seq<ComputedLine>, b: seq<ComputedLine>, key: GroupKey)
    requires multiset(Map(Unnumbered, a)) == multiset(Map(Unnumbered, b))
    ensures NetTotal(InGroup(a, key)) == NetTotal(InGroup(b, key))
  {
    GroupIsMasked(a, key);
    GroupIsMasked(b, key);
    MaskIgnoresNumbers(a, key);
    MaskIgnoresNumbers(b, key);
    hide Masked, NetTotal, InGroup, Total, Unnumbered, Map;
    MapPermutes(l => Masked(l, key), Map(Unnumbered, a), Map(Unnumbered, b));
    TotalPermutes(Map(l => Masked(l, key), a), Map(l => Masked(l, key), b));
  }

  lemma KeyPermutes(a: seq<ComputedLine>, b: seq<ComputedLine>, key: GroupKey)
    requires multiset(Map(Unnumbered, a)) == multiset(Map(Unnumbered, b)) && key in Keys(a)
    ensures key in Keys(b)
  {
    KeysAreDistinct(a);
    KeysAreDistinct(b);
    var k :| 0 <= k < |a| && KeyOf(a[k]) == key;
    assert Map(Unnumbered, a)[k] in multiset(Map(Unnumbered, b));
    var j :| 0 <= j < |b| && Map(Unnumbered, b)[j] == Map(Unnumbered, a)[k];
    assert KeyOf(b[j]) == key;
  }

  lemma NetTotalPermutes(a: seq<ComputedLine>, b: seq<ComputedLine>)
    requires multiset(Map(Unnumbered, a)) == multiset(Map(Unnumbered, b))
    ensures NetTotal(a) == NetTotal(b)
  {
    MapPermutes(NetOf, Map(Unnumbered, a), Map(Unnumbered, b));
    assert Map(NetOf, Map(Unnumbered, a)) == Nets(a) && Map(NetOf, Map(Unnumbered, b)) == Nets(b);
    TotalPermutes(Nets(a), Nets(b));
  }

  /** A group without its stated reason, which is the one thing that depends on the order of the lines. */
  function Bare(group: ComputedTaxGroup): ComputedTaxGroup {
    group.(exemptionReason := None)
  }

  function BareGroup(key: GroupKey, net: int): ComputedTaxGroup {
    var rate := Decimal(key.rate, MONETARY_SCALE);
    ComputedTaxGroup(key.category, rate, Decimal(net, MONETARY_SCALE), VatOn(Decimal(net, MONETARY_SCALE), rate), None)
  }

  lemma BareGroups(draft: InvoiceDraft)
    requires Computed(draft).Ok?
    ensures var lines := Computed(draft).value.lines;
            Map(Bare, Computed(draft).value.taxGroups) == Map((key: GroupKey) => BareGroup(key, NetTotal(InGroup(lines, key))), Keys(lines))
  {
    var groups := Computed(draft).value.taxGroups;
    forall k | 0 <= k < |groups|
      ensures Bare(groups[k]) == BareGroup(Keys(Computed(draft).value.lines)[k], NetTotal(InGroup(Computed(draft).value.lines, Keys(Computed(draft).value.lines)[k])))
    {
      GroupsAreMonetary(draft, k);
    }
  }

  lemma KeysPermute(a: seq<ComputedLine>, b: seq<ComputedLine>)
    requires multiset(Map(Unnumbered, a)) == multiset(Map(Unnumbered, b))
    ensures multiset(Keys(a)) == multiset(Keys(b))
  {
    KeysAreDistinct(a);
    KeysAreDistinct(b);
    hide Keys, InGroup;
    forall key: GroupKey ensures key in Keys(a) <==> key in Keys(b) {
      if key in Keys(a) { KeyPermutes(a, b, key); }
      if key in Keys(b) { KeyPermutes(b, a, key); }
    }
    DistinctPermutes(Keys(a), Keys(b));
  }

  lemma BareGroupsPermute(a: seq<ComputedLine>, b: seq<ComputedLine>)
    requires multiset(Map(Unnumbered, a)) == multiset(Map(Unnumbered, b))
    ensures multiset(Map((key: GroupKey) => BareGroup(key, NetTotal(InGroup(a, key))), Keys(a)))
            == multiset(Map((key: GroupKey) => BareGroup(key, NetTotal(InGroup(b, key))), Keys(b)))
  {
    hide Keys, InGroup, NetTotal, BareGroup, Unnumbered;
    var f := (key: GroupKey) => BareGroup(key, NetTotal(InGroup(a, key)));
    var g := (key: GroupKey) => BareGroup(key, NetTotal(InGroup(b, key)));
    forall key: GroupKey ensures f(key) == g(key) {
      MaskedPermutes(a, b, key);
    }
    KeysPermute(a, b);
    MapPermutes(f, Keys(a), Keys(b));
    assert Map(f, Keys(b)) == Map(g, Keys(b));
  }

  lemma TaxTotalOfBare(groups: seq<ComputedTaxGroup>)
    ensures Map(TaxOf, Map(Bare, groups)) == Map(TaxOf, groups)
  {}

  lemma ComputedParts(draft: InvoiceDraft)
    ensures Computed(draft).Ok? <==> ComputeLines(draft.lines).Ok? && PrepaidOf(draft).Ok?
    ensures Computed(draft).Ok? ==> Computed(draft).value.lines == ComputeLines(draft.lines).value
  {}

  lemma LinesPermute(draft: InvoiceDraft, other: InvoiceDraft)
    requires multiset(draft.lines) == multiset(other.lines) && draft.prepaidAmount == other.prepaidAmount
    ensures Computed(draft).Ok? <==> Computed(other).Ok?
    ensures Computed(draft).Ok? ==>
              multiset(Map(Unnumbered, Computed(draft).value.lines)) == multiset(Map(Unnumbered, Computed(other).value.lines))
  {
    hide *;
    ComputesIffEachLineDoes(draft.lines);
    ComputesIffEachLineDoes(other.lines);
    SamePrepaidOutcome(draft, other);
    assert forall line :: line in draft.lines <==> line in multiset(draft.lines);
    assert forall line :: line in other.lines <==> line in multiset(other.lines);
    ComputedParts(draft);
    ComputedParts(other);
    if Computed(draft).Ok? {
      UnnumberedPermutes(draft.lines, other.lines);
    }
  }

  lemma SamePrepaidOutcome(draft: InvoiceDraft, other: InvoiceDraft)
    requires draft.prepaidAmount == other.prepaidAmount
    ensures PrepaidOf(draft) == PrepaidOf(other)
  {}

  lemma UnnumberedPermutes(a: seq<DraftLine>, b: seq<DraftLine>)
    requires multiset(a) == multiset(b) && ComputeLines(a).Ok? && ComputeLines(b).Ok?
    ensures multiset(Map(Unnumbered, ComputeLines(a).value)) == multiset(Map(Unnumbered, ComputeLines(b).value))
  {
    ComputesIffEachLineDoes(a);
    ComputesIffEachLineDoes(b);
    MapPermutes(Alone, a, b);
    Unwrapped(ComputeLines(a).value);
    Unwrapped(ComputeLines(b).value);
    hide ComputeLines, Alone, Map, Unnumbered;
    MapPermutes((o: Option<ComputedLine>) => o.UnwrapOr(EmptyLine()), Map(Alone, a), Map(Alone, b));
  }

  function EmptyLine(): ComputedLine {
    ComputedLine(DraftLine("", None, "", "", "", S, "", None), "", ZERO, ZERO, ZERO, S, ZERO)
  }

  lemma Unwrapped(lines: seq<ComputedLine>)
    ensures Map((o: Option<ComputedLine>) => o.UnwrapOr(EmptyLine()), Map(l => Some(Unnumbered(l)), lines)) == Map(Unnumbered, lines)
  {}

  /** Reordering the lines reorders the groups, leaves each one's amounts alone, and changes no total. */
  lemma OrderOfLinesDoesNotMatter(draft: InvoiceDraft, other: InvoiceDraft)
    requires multiset(draft.lines) == multiset(other.lines) && draft.prepaidAmount == other.prepaidAmount
    ensures Computed(draft).Ok? <==> Computed(other).Ok?
    ensures Computed(draft).Ok? ==>
              && Computed(other).value.totals == Computed(draft).value.totals
              && multiset(Map(Bare, Computed(other).value.taxGroups)) == multiset(Map(Bare, Computed(draft).value.taxGroups))
  {
    LinesPermute(draft, other);
    if Computed(draft).Ok? {
      var a, b := Computed(draft).value, Computed(other).value;
      BareGroups(draft);
      BareGroups(other);
      BareGroupsPermute(a.lines, b.lines);
      MapPermutes(TaxOf, Map(Bare, a.taxGroups), Map(Bare, b.taxGroups));
      TaxTotalOfBare(a.taxGroups);
      TaxTotalOfBare(b.taxGroups);
      TotalPermutes(Map(TaxOf, a.taxGroups), Map(TaxOf, b.taxGroups));
      NetTotalPermutes(a.lines, b.lines);
      SamePrepaid(draft, other);
      TotalsAddUp(draft);
      TotalsAddUp(other);
      hide Computed;
    }
  }

  lemma SamePrepaid(draft: InvoiceDraft, other: InvoiceDraft)
    requires draft.prepaidAmount == other.prepaidAmount && Computed(draft).Ok? && Computed(other).Ok?
    ensures Computed(draft).value.totals.prepaidAmount == Computed(other).value.totals.prepaidAmount
  {}

  // ---------------------------------------------------------------------- how far rounding goes

  ghost function ExactNet(lines: seq<ComputedLine>): real {
    if lines == [] then 0.0
    else
      var last := lines[|lines| - 1];
      ExactNet(lines[..|lines| - 1]) + ExactPrice(last)
  }

  ghost function ExactPrice(line: ComputedLine): real {
    Value(line.quantity) * Value(line.unitPrice)
  }

  ghost function ExactVat(basis: Decimal, rate: Decimal): real {
    Percent(Value(basis) * Value(rate))
  }

  ghost function Percent(x: real): real {
    x / 100.0
  }

  ghost function ExactTax(groups: seq<ComputedTaxGroup>): real {
    if groups == [] then 0.0
    else
      var last := groups[|groups| - 1];
      ExactTax(groups[..|groups| - 1]) + ExactVat(last.basisAmount, last.ratePercent)
  }

  const HALF_CENT := 0.005

  lemma RoundedToTheCent(d: Decimal)
    ensures RealAbs(Value(Rescale(d, MONETARY_SCALE)) - Value(d)) <= HALF_CENT
  {
    if d.scale > MONETARY_SCALE {
      RescaleDownIsNearest(d, MONETARY_SCALE);
      assert Pow10(2) == 100;
    } else {
      RescaleUpIsExact(d, MONETARY_SCALE);
    }
  }

  lemma CentsAddExactly(x: int, y: int)
    ensures Value(Decimal(x + y, MONETARY_SCALE)) == Value(Decimal(x, MONETARY_SCALE)) + Value(Decimal(y, MONETARY_SCALE))
  {
    RatioAdds(x, y, Pow10(MONETARY_SCALE));
  }

  lemma ErrorsAdd(x: real, y: real, a: real, b: real, count: nat)
    requires RealAbs(x - a) <= count as real * HALF_CENT && RealAbs(y - b) <= HALF_CENT
    ensures RealAbs((x + y) - (a + b)) <= (count + 1) as real * HALF_CENT
  {}

  /** The line total is within half a cent a line of the exact sum of quantity times price. */
  lemma {:induction false} LineTotalIsWithinHalfCents(lines: seq<ComputedLine>)
    requires forall k :: 0 <= k < |lines| ==> IsRoundedNet(lines[k])
    ensures RealAbs(Value(Decimal(NetTotal(lines), MONETARY_SCALE)) - ExactNet(lines)) <= |lines| as real * HALF_CENT
  {
    hide Rescale, Multiply, RealAbs, NetTotal, Value, ExactPrice;
    if lines == [] {
      NothingIsZero();
    } else {
      var front, last := lines[..|lines| - 1], lines[|lines| - 1];
      assert lines == front + [last];
      LineTotalIsWithinHalfCents(front);
      NetTotalAppends(front, last);
      NetIsWithinHalfCent(last);
      assert last.netAmount == Decimal(last.netAmount.value, MONETARY_SCALE);
      CentsAddExactly(NetTotal(front), last.netAmount.value);
      ErrorsAdd(Value(Decimal(NetTotal(front), MONETARY_SCALE)), Value(last.netAmount), ExactNet(front),
                ExactPrice(last), |front|);
    }
  }

  lemma NothingIsZero()
    ensures RealAbs(Value(Decimal(NetTotal([]), MONETARY_SCALE)) - 0.0) <= 0.0 && Value(Decimal(0, MONETARY_SCALE)) == 0.0
    ensures RealAbs(0.0) == 0.0
  {}

  lemma NetIsWithinHalfCent(line: ComputedLine)
    requires IsRoundedNet(line)
    ensures RealAbs(Value(line.netAmount) - ExactPrice(line)) <= HALF_CENT
  {
    hide Rescale, Multiply, RealAbs, Value;
    RoundedToTheCent(Multiply(line.quantity, line.unitPrice));
    MultiplyIsExact(line.quantity, line.unitPrice);
    assert Value(Multiply(line.quantity, line.unitPrice)) == ExactPrice(line);
  }

  /** Basis times rate, its point moved two places: not rounded yet. */
  function ExactlyVat(basis: Decimal, rate: Decimal): Decimal {
    var product := Multiply(basis, rate);
    Decimal(product.value, product.scale + 2)
  }

  lemma VatIsRounded(basis: Decimal, rate: Decimal)
    ensures VatOn(basis, rate) == Rescale(ExactlyVat(basis, rate), MONETARY_SCALE)
  {}

  lemma VatIsExact(basis: Decimal, rate: Decimal)
    ensures Value(ExactlyVat(basis, rate)) == ExactVat(basis, rate)
  {
    hide Value, Multiply;
    var product := Multiply(basis, rate);
    MultiplyIsExact(basis, rate);
    Hundredth(product);
    assert ExactlyVat(basis, rate) == Decimal(product.value, product.scale + 2);
    assert Percent(Value(product)) == ExactVat(basis, rate);
  }

  lemma VatIsExactThenRounded(basis: Decimal, rate: Decimal)
    ensures VatOn(basis, rate).scale == MONETARY_SCALE
    ensures RealAbs(Value(VatOn(basis, rate)) - ExactVat(basis, rate)) <= HALF_CENT
  {
    VatIsRounded(basis, rate);
    VatIsExact(basis, rate);
    hide *;
    RescaleHasScale(ExactlyVat(basis, rate), MONETARY_SCALE);
    RoundedToTheCent(ExactlyVat(basis, rate));
  }

  lemma Hundredth(d: Decimal)
    ensures Value(Decimal(d.value, d.scale + 2)) == Percent(Value(d))
  {
    Pow10Adds(d.scale, 2);
    assert Pow10(2) == 100;
    RatioMultiplies(d.value, 1, Pow10(d.scale), 100);
  }

  /** The VAT total is within half a cent a group of the exact sum of basis times rate. */
  lemma {:induction false} TaxTotalIsWithinHalfCents(groups: seq<ComputedTaxGroup>)
    requires forall k :: 0 <= k < |groups| ==>
               groups[k].calculatedAmount == VatOn(groups[k].basisAmount, groups[k].ratePercent)
    ensures RealAbs(Value(Decimal(Total(Map(TaxOf, groups)), MONETARY_SCALE)) - ExactTax(groups)) <= |groups| as real * HALF_CENT
  {
    hide VatOn, RealAbs, Value, ExactVat;
    if groups == [] {
      NothingIsZero();
    } else {
      var front, last := groups[..|groups| - 1], groups[|groups| - 1];
      TaxTotalIsWithinHalfCents(front);
      assert Map(TaxOf, groups) == Map(TaxOf, front) + [TaxOf(last)];
      TotalAppends(Map(TaxOf, front), TaxOf(last));
      VatIsExactThenRounded(last.basisAmount, last.ratePercent);
      assert last.calculatedAmount == Decimal(last.calculatedAmount.value, MONETARY_SCALE);
      CentsAddExactly(Total(Map(TaxOf, front)), last.calculatedAmount.value);
      ErrorsAdd(Value(Decimal(Total(Map(TaxOf, front)), MONETARY_SCALE)), Value(last.calculatedAmount), ExactTax(front),
                ExactVat(last.basisAmount, last.ratePercent), |front|);
    }
  }

  /** Rounding moves the line total by at most half a cent a line and the VAT total by at most half a cent a group. */
  lemma RoundingIsBounded(draft: InvoiceDraft)
    requires Computed(draft).Ok?
    ensures var invoice := Computed(draft).value;
            && |invoice.lines| == |draft.lines|
            && RealAbs(Value(invoice.totals.lineTotalAmount) - ExactNet(invoice.lines)) <= |draft.lines| as real * HALF_CENT
            && RealAbs(Value(invoice.totals.taxTotalAmount) - ExactTax(invoice.taxGroups)) <= |invoice.taxGroups| as real * HALF_CENT
            && |invoice.taxGroups| <= |draft.lines|
  {
    hide *;
    var invoice := Computed(draft).value;
    TotalsAddUp(draft);
    NetTotalIs(invoice.lines);
    NetsAreRounded(draft);
    TaxesAreRounded(draft);
    KeysAreFewer(invoice.lines);
    LineTotalIsWithinHalfCents(invoice.lines);
    TaxTotalIsWithinHalfCents(invoice.taxGroups);
  }

  lemma NetTotalIs(lines: seq<ComputedLine>)
    ensures NetTotal(lines) == Total(Nets(lines))
  {}

  lemma TaxesAreRounded(draft: InvoiceDraft)
    requires Computed(draft).Ok?
    ensures var invoice := Computed(draft).value;
            && |invoice.taxGroups| == |Keys(invoice.lines)|
            && forall k :: 0 <= k < |invoice.taxGroups| ==>
                 invoice.taxGroups[k].calculatedAmount == VatOn(invoice.taxGroups[k].basisAmount, invoice.taxGroups[k].ratePercent)
  {}

  lemma NetsAreRounded(draft: InvoiceDraft)
    requires Computed(draft).Ok?
    ensures |Computed(draft).value.lines| == |draft.lines|
    ensures forall k :: 0 <= k < |draft.lines| ==> IsRoundedNet(Computed(draft).value.lines[k])
  {
    hide *;
    ComputedParts(draft);
    LineFacts(draft.lines);
  }

  lemma {:induction false} KeysAreFewer(lines: seq<ComputedLine>)
    ensures |Keys(lines)| <= |lines|
  {
    if lines != [] {
      KeysAreFewer(lines[..|lines| - 1]);
    }
  }
}
