/** Invoices in exact arithmetic: what rounding changes, and what it does not. */
module Invoices {
  import opened Wrappers

  datatype TimeEntry = TimeEntry(description: string, duration: real)

  datatype LineItem = LineItem(description: string, quantity: real, unitPrice: real, taxRate: real, totalNet: real)

  datatype Kind = Hourly | Fixed

  datatype Invoice = Invoice(
    kind: Kind, clientName: string, items: seq<LineItem>, totalNet: real, totalTax: real, totalGross: real)

  datatype Group = Group(description: string, hours: real)

  // ---------------------------------------------------------------- Rounding

  /** `Math.round`: halves go up. */
  function Round(x: real): real {
    (x + 0.5).Floor as real
  }

  function ToCents(x: real): real {
    Round(x * 100.0) / 100.0
  }

  function Abs(x: real): real {
    if x < 0.0 then -x else x
  }

  /** An amount of `k` cents. */
  function Amount(k: int): real {
    k as real / 100.0
  }

  ghost predicate WholeCents(x: real) {
    exists k :: x == Amount(k)
  }

  lemma FloorIs(y: real, n: int)
    requires n as real <= y < n as real + 1.0
    ensures y.Floor == n
  {
  }

  lemma RoundIsNear(x: real)
    ensures Abs(ToCents(x) - x) <= 0.005
  {
    var y := x * 100.0;
    assert y - 0.5 < Round(y) <= y + 0.5;
  }

  lemma RoundShifts(x: real, k: int)
    ensures Round(x + k as real) == Round(x) + k as real
  {
    var n := (x + 0.5).Floor;
    FloorIs(x + k as real + 0.5, n + k);
  }

  lemma RoundedIs(x: real)
    ensures ToCents(x) == Amount((x * 100.0 + 0.5).Floor)
  {
  }

  lemma AmountsAreKept(k: int)
    ensures ToCents(Amount(k)) == Amount(k)
  {
    assert Amount(k) * 100.0 == k as real;
    FloorIs(Amount(k) * 100.0 + 0.5, k);
  }

  /** Rounding gives whole cents, and changes exactly the amounts that are not in whole cents. */
  lemma RoundingKeepsWholeCents(x: real)
    ensures WholeCents(ToCents(x))
    ensures ToCents(x) == x <==> WholeCents(x)
  {
    RoundedIs(x);
    if WholeCents(x) {
      var k :| x == Amount(k);
      AmountsAreKept(k);
    }
  }

  /** Adding an amount in whole cents before or after rounding makes no difference. */
  lemma CentsShift(x: real, c: real)
    requires WholeCents(c)
    ensures ToCents(x + c) == ToCents(x) + c
  {
    var k :| c == Amount(k);
    RoundShifts(x * 100.0, k);
    assert (x + c) * 100.0 == x * 100.0 + k as real;
  }

  lemma SumInCents(x: real, c: real)
    requires WholeCents(x) && WholeCents(c)
    ensures WholeCents(x + c)
  {
    var j, k :| x == Amount(j) && c == Amount(k);
    assert x + c == Amount(j + k);
  }

  // ---------------------------------------------------------------- Grouping

  function DescriptionOf(entry: TimeEntry): string {
    if entry.description != "" then entry.description else "Development"
  }

  /** The hours of a group; zero if there is no such group. */
  function HoursOf(groups: seq<Group>, description: string): real {
    if groups == [] then 0.0
    else if groups[0].description == description then groups[0].hours
    else HoursOf(groups[1..], description)
  }

  /** `Map.set`: a known key stays in its place, a new one goes last. */
  function Set(groups: seq<Group>, description: string, hours: real): (r: seq<Group>)
    ensures |groups| <= |r| <= |groups| + 1
  {
    if groups == [] then [Group(description, hours)]
    else if groups[0].description == description then [Group(description, hours)] + groups[1..]
    else [groups[0]] + Set(groups[1..], description, hours)
  }

  function Grouped(entries: seq<TimeEntry>): seq<Group> {
    if entries == [] then []
    else
      var before, entry := Grouped(entries[..|entries| - 1]), entries[|entries| - 1];
      Set(before, DescriptionOf(entry), HoursOf(before, DescriptionOf(entry)) + entry.duration / 3600.0)
  }

  function TotalHours(entries: seq<TimeEntry>): real {
    if entries == [] then 0.0
    else TotalHours(entries[..|entries| - 1]) + entries[|entries| - 1].duration / 3600.0
  }

  /** The hours of the entries with one description. */
  function HoursFor(entries: seq<TimeEntry>, description: string): real {
    if entries == [] then 0.0
    else
      var entry := entries[|entries| - 1];
      HoursFor(entries[..|entries| - 1], description) +
      if DescriptionOf(entry) == description then entry.duration / 3600.0 else 0.0
  }

  function GroupHours(groups: seq<Group>): real {
    if groups == [] then 0.0 else groups[0].hours + GroupHours(groups[1..])
  }

  function Descriptions(groups: seq<Group>): set<string> {
    set g <- groups :: g.description
  }

  predicate Distinct(groups: seq<Group>) {
    forall i, j :: 0 <= i < j < |groups| ==> groups[i].description != groups[j].description
  }

  lemma {:induction false} SetChangesOne(groups: seq<Group>, description: string, hours: real, other: string)
    ensures GroupHours(Set(groups, description, hours)) == GroupHours(groups) - HoursOf(groups, description) + hours
    ensures HoursOf(Set(groups, description, hours), other) ==
            if other == description then hours else HoursOf(groups, other)
  {
    if groups != [] && groups[0].description != description {
      SetChangesOne(groups[1..], description, hours, other);
    }
  }

  lemma ConsDistinct(g: Group, groups: seq<Group>)
    ensures Descriptions([g] + groups) == {g.description} + Descriptions(groups)
    ensures Distinct([g] + groups) <==> g.description !in Descriptions(groups) && Distinct(groups)
  {
    var all := [g] + groups;
    assert forall x :: x in all <==> x == g || x in groups;
    assert forall j :: 0 <= j < |groups| ==> groups[j].description in Descriptions(groups);
    if Distinct(all) {
      forall i, j | 0 <= i < j < |groups| ensures groups[i].description != groups[j].description {
        assert all[i + 1] == groups[i] && all[j + 1] == groups[j];
      }
      forall j | 0 <= j < |groups| ensures groups[j].description != g.description {
        assert all[0] == g && all[j + 1] == groups[j];
      }
    }
  }

  lemma {:induction false} SetKeepsDistinct(groups: seq<Group>, description: string, hours: real)
    requires Distinct(groups)
    ensures Distinct(Set(groups, description, hours))
    ensures Descriptions(Set(groups, description, hours)) == Descriptions(groups) + {description}
  {
    hide Distinct, Descriptions;
    if groups == [] {
      NoGroups(description);
      ConsDistinct(Group(description, hours), []);
      assert [Group(description, hours)] + [] == [Group(description, hours)];
    } else {
      assert groups == [groups[0]] + groups[1..];
      ConsDistinct(groups[0], groups[1..]);
      if groups[0].description == description {
        ConsDistinct(Group(description, hours), groups[1..]);
      } else {
        SetKeepsDistinct(groups[1..], description, hours);
        ConsDistinct(groups[0], Set(groups[1..], description, hours));
      }
    }
  }

  lemma NoGroups(description: string)
    ensures Distinct([]) && Descriptions([]) == {} && HoursOf([], description) == 0.0 == GroupHours([])
  {
  }

  /** Grouping keeps the hours, in all and for every description, and no description comes twice. */
  lemma {:induction false} GroupingKeepsHours(entries: seq<TimeEntry>, description: string)
    ensures GroupHours(Grouped(entries)) == TotalHours(entries)
    ensures HoursOf(Grouped(entries), description) == HoursFor(entries, description)
    ensures Distinct(Grouped(entries))
  {
    hide Distinct, Set, HoursOf;
    NoGroups(description);
    if entries != [] {
      var front, entry := entries[..|entries| - 1], entries[|entries| - 1];
      var d := DescriptionOf(entry);
      GroupingKeepsHours(front, description);
      SetChangesOne(Grouped(front), d, HoursOf(Grouped(front), d) + entry.duration / 3600.0, description);
      SetKeepsDistinct(Grouped(front), d, HoursOf(Grouped(front), d) + entry.duration / 3600.0);
    }
  }

  // ---------------------------------------------------------------- Invoices

  function Price(quantity: real, rate: real): real {
    quantity * rate
  }

  function Tax(net: real, taxRate: real): real {
    net * (taxRate / 100.0)
  }

  function ItemFor(g: Group, rate: real, taxRate: real): LineItem {
    LineItem(g.description, ToCents(g.hours), rate, taxRate, ToCents(Price(ToCents(g.hours), rate)))
  }

  function ItemsFor(groups: seq<Group>, rate: real, taxRate: real): seq<LineItem> {
    seq(|groups|, i requires 0 <= i < |groups| => ItemFor(groups[i], rate, taxRate))
  }

  function SumNet(items: seq<LineItem>): real {
    if items == [] then 0.0 else SumNet(items[..|items| - 1]) + items[|items| - 1].totalNet
  }

  function BuildInvoice(kind: Kind, clientName: string, items: seq<LineItem>, taxRate: real): Invoice {
    var totalNet := SumNet(items);
    var totalTax := ToCents(Tax(totalNet, taxRate));
    var totalGross := ToCents(totalNet + totalTax);
    Invoice(kind, clientName, items, ToCents(totalNet), totalTax, totalGross)
  }

  /** Net and tax are each rounded from the exact sum, and still add up to the gross total. */
  lemma GrossIsNetPlusTax(kind: Kind, clientName: string, items: seq<LineItem>, taxRate: real)
    ensures var invoice := BuildInvoice(kind, clientName, items, taxRate);
      && invoice.totalGross == invoice.totalNet + invoice.totalTax
      && WholeCents(invoice.totalNet) && WholeCents(invoice.totalTax) && WholeCents(invoice.totalGross)
      && Abs(invoice.totalNet - SumNet(items)) <= 0.005
      && Abs(invoice.totalTax - Tax(SumNet(items), taxRate)) <= 0.005
  {
    hide ToCents, WholeCents, Abs, SumNet, Tax;
    var totalNet, tax := SumNet(items), Tax(SumNet(items), taxRate);
    RoundingKeepsWholeCents(totalNet);
    RoundingKeepsWholeCents(tax);
    RoundingKeepsWholeCents(totalNet + ToCents(tax));
    CentsShift(totalNet, ToCents(tax));
    RoundIsNear(totalNet);
    RoundIsNear(tax);
  }

  /** How far rounding the hours and the prices of `n` groups can move the net total. */
  function Slack(n: nat, rate: real): real {
    n as real * (0.005 * Abs(rate) + 0.005)
  }

  class InvoiceGenerator {
    const hourlyRate: Option<real>
    const taxRate: real

    constructor (hourlyRate: Option<real>, taxRate: real)
      ensures this.hourlyRate == hourlyRate && this.taxRate == taxRate
    {
      this.hourlyRate, this.taxRate := hourlyRate, taxRate;
    }

    function Rate(rate: Option<real>): real {
      if rate.Some? then rate.value else if hourlyRate.Some? then hourlyRate.value else 120.0
    }

    method FromTimeEntries(clientName: string, entries: seq<TimeEntry>, rate: Option<real>) returns (invoice: Invoice)
      ensures invoice.kind == Hourly && invoice.clientName == clientName
      ensures invoice.items == ItemsFor(Grouped(entries), Rate(rate), taxRate)
      ensures invoice.totalNet == SumNet(invoice.items)
      ensures invoice.totalGross == invoice.totalNet + invoice.totalTax
      ensures Abs(invoice.totalTax - Tax(invoice.totalNet, taxRate)) <= 0.005
      ensures Abs(invoice.totalNet - Price(TotalHours(entries), Rate(rate))) <= Slack(|invoice.items|, Rate(rate))
    {
      hide ToCents, Abs, Set, SumNet, ItemFor, HoursOf, GroupHours, TotalHours, Distinct, Price, Tax, Slack;
      var grouped: seq<Group> := [];
      for i := 0 to |entries|
        invariant grouped == Grouped(entries[..i])
      {
        assert entries[..i + 1][..i] == entries[..i];
        var desc := DescriptionOf(entries[i]);
        var hours := entries[i].duration / 3600.0;
        grouped := Set(grouped, desc, HoursOf(grouped, desc) + hours);
      }
      assert entries[..|entries|] == entries;
      var items := ItemsFor(grouped, Rate(rate), taxRate);
      GrossIsNetPlusTax(Hourly, clientName, items, taxRate);
      NetIsInCents(grouped, Rate(rate), taxRate);
      RoundingKeepsWholeCents(SumNet(items));
      NetIsNear(grouped, Rate(rate), taxRate);
      GroupingKeepsHours(entries, "");
      invoice := BuildInvoice(Hourly, clientName, items, taxRate);
    }

    /** The amount is rounded in the total, but not in the item. */
    method FixedPrice(clientName: string, description: string, amount: real) returns (invoice: Invoice)
      ensures invoice.kind == Fixed && invoice.clientName == clientName
      ensures invoice.items == [LineItem(description, 1.0, amount, taxRate, amount)]
      ensures invoice.totalGross == invoice.totalNet + invoice.totalTax
      ensures Abs(invoice.totalNet - amount) <= 0.005 && Abs(invoice.totalTax - Tax(amount, taxRate)) <= 0.005
      ensures invoice.totalNet == amount <==> WholeCents(amount)
    {
      hide ToCents, Abs, SumNet, Tax;
      var item := LineItem(description, 1.0, amount, taxRate, amount);
      SumOfOne(item);
      GrossIsNetPlusTax(Fixed, clientName, [item], taxRate);
      RoundingKeepsWholeCents(amount);
      invoice := BuildInvoice(Fixed, clientName, [item], taxRate);
    }
  }

  /** An eighth of a unit is not in whole cents: the invoice's net total is 0.13, its item 0.125. */
  lemma EighthIsRounded()
    ensures !WholeCents(0.125) && ToCents(0.125) == 0.13
  {
    FloorIs(13.0, 13);
    assert 0.125 * 100.0 + 0.5 == 13.0;
    RoundingKeepsWholeCents(0.125);
  }

  lemma SumOfOne(item: LineItem)
    ensures SumNet([item]) == item.totalNet
  {
    assert [item][..0] == [];
  }

  lemma NothingInCents()
    ensures WholeCents(0.0)
  {
    assert 0.0 == Amount(0);
  }

  lemma ItemsSnoc(groups: seq<Group>, rate: real, taxRate: real)
    requires groups != []
    ensures var n := |groups| - 1;
      SumNet(ItemsFor(groups, rate, taxRate)) ==
      SumNet(ItemsFor(groups[..n], rate, taxRate)) + ItemFor(groups[n], rate, taxRate).totalNet
  {
    var n := |groups| - 1;
    assert ItemsFor(groups, rate, taxRate)[..n] == ItemsFor(groups[..n], rate, taxRate);
  }

  /** The sum of the items needs no rounding. */
  lemma {:induction false} NetIsInCents(groups: seq<Group>, rate: real, taxRate: real)
    ensures WholeCents(SumNet(ItemsFor(groups, rate, taxRate)))
  {
    hide ToCents, WholeCents, Price;
    if groups == [] {
      NothingInCents();
    } else {
      var n := |groups| - 1;
      NetIsInCents(groups[..n], rate, taxRate);
      ItemsSnoc(groups, rate, taxRate);
      RoundingKeepsWholeCents(Price(ToCents(groups[n].hours), rate));
      SumInCents(SumNet(ItemsFor(groups[..n], rate, taxRate)), ItemFor(groups[n], rate, taxRate).totalNet);
    }
  }

  lemma Scaled(a: real, b: real, c: real)
    requires a <= b && 0.0 <= c
    ensures a * c <= b * c
  {
    assert (b - a) * c >= 0.0;
  }

  lemma AbsIsMultiplicative(d: real, rate: real)
    ensures Abs(d * rate) == Abs(d) * Abs(rate)
  {
    if d < 0.0 {
      assert -d * rate == -(d * rate);
      assert -d * -rate == d * rate;
      Scaled(d, 0.0, Abs(rate));
    } else {
      assert d * -rate == -(d * rate);
      Scaled(0.0, d, Abs(rate));
    }
  }

  lemma PriceDifference(x: real, y: real, rate: real)
    ensures Abs(Price(x, rate) - Price(y, rate)) == Abs((x - y) * rate)
  {
    assert Price(x, rate) - Price(y, rate) == (x - y) * rate;
  }

  lemma ScaledError(x: real, y: real, rate: real)
    requires Abs(x - y) <= 0.005
    ensures Abs(Price(x, rate) - Price(y, rate)) <= 0.005 * Abs(rate)
  {
    PriceDifference(x, y, rate);
    ErrorTimesRate(x - y, rate);
  }

  lemma ErrorTimesRate(d: real, rate: real)
    requires Abs(d) <= 0.005
    ensures Abs(d * rate) <= 0.005 * Abs(rate)
  {
    AbsIsMultiplicative(d, rate);
    Scaled(Abs(d), 0.005, Abs(rate));
  }

  lemma Triangle(a: real, b: real, c: real)
    ensures Abs(a - c) <= Abs(a - b) + Abs(b - c)
  {
  }

  lemma ItemIsNear(g: Group, rate: real, taxRate: real)
    ensures Abs(ItemFor(g, rate, taxRate).totalNet - Price(g.hours, rate)) <= 0.005 * Abs(rate) + 0.005
  {
    hide ToCents, Price, Abs;
    var quantity := ToCents(g.hours);
    RoundIsNear(g.hours);
    ScaledError(quantity, g.hours, rate);
    RoundIsNear(Price(quantity, rate));
    Triangle(ToCents(Price(quantity, rate)), Price(quantity, rate), Price(g.hours, rate));
  }

  lemma {:induction false} GroupHoursSnoc(groups: seq<Group>)
    requires groups != []
    ensures GroupHours(groups) == GroupHours(groups[..|groups| - 1]) + groups[|groups| - 1].hours
  {
    if |groups| > 1 {
      GroupHoursSnoc(groups[1..]);
      assert groups[..|groups| - 1][1..] == groups[1..][..|groups| - 2];
    }
  }

  lemma OneMore(n: nat, a: real, b: real, rate: real)
    ensures Price(a + b, rate) == Price(a, rate) + Price(b, rate)
    ensures Slack(n + 1, rate) == Slack(n, rate) + (0.005 * Abs(rate) + 0.005)
    ensures Slack(0, rate) == 0.0 == Price(0.0, rate)
  {
  }

  /** Rounding the hours and the price of every group moves the net total only so far. */
  lemma {:induction false} NetIsNear(groups: seq<Group>, rate: real, taxRate: real)
    ensures Abs(SumNet(ItemsFor(groups, rate, taxRate)) - Price(GroupHours(groups), rate)) <= Slack(|groups|, rate)
  {
    hide ToCents, ItemFor, GroupHours, Price, Slack;
    if groups == [] {
      NoGroups("");
      OneMore(0, 0.0, 0.0, rate);
    } else {
      var n := |groups| - 1;
      NetIsNear(groups[..n], rate, taxRate);
      ItemsSnoc(groups, rate, taxRate);
      GroupHoursSnoc(groups);
      ItemIsNear(groups[n], rate, taxRate);
      OneMore(n, GroupHours(groups[..n]), groups[n].hours, rate);
    }
  }
}
