/** The bill filter the property screen hoists and hands to its bills and
    summary tabs: an optional first date, an optional last date and an
    optional currency. A missing bound or currency lets every bill through. */
module BillFilters {
  import opened Wrappers
  import opened Calendar
  import opened Domain
  import opened Tables

  datatype BillFilter = BillFilter(from: Option<LocalDate>, to: Option<LocalDate>, currency: Option<Currency>)

  /** No bound and no currency: the state before any filter is applied. */
  const NoFilter := BillFilter(None, None, None)

  /** A bill passes when it is not before `from`, not after `to`, and in the
      filter's currency. */
  predicate Matches(f: BillFilter, b: ElectricityBill)
  {
    (f.from.None? || !IsBefore(b.paymentDate, f.from.value))
    && (f.to.None? || !IsAfter(b.paymentDate, f.to.value))
    && (f.currency.None? || b.currency == f.currency.value)
  }

  /** The filter as an inclusive date range: a bill passes exactly when
      `from <= paymentDate <= to`, each bound only where it is set. */
  lemma MatchesInRange(f: BillFilter, b: ElectricityBill)
    ensures Matches(f, b) <==>
      (f.from.Some? ==> NotAfter(f.from.value, b.paymentDate))
      && (f.to.Some? ==> NotAfter(b.paymentDate, f.to.value))
      && (f.currency.Some? ==> b.currency == f.currency.value)
  {
    if f.from.Some? { BeforeTotal(b.paymentDate, f.from.value); }
    if f.to.Some? { BeforeTotal(b.paymentDate, f.to.value); }
  }

  lemma NoFilterMatches(b: ElectricityBill)
    ensures Matches(NoFilter, b)
  {
  }

  function Matching(f: BillFilter): ElectricityBill -> bool
  {
    b => Matches(f, b)
  }

  function NotMatching(f: BillFilter): ElectricityBill -> bool
  {
    b => !Matches(f, b)
  }

  /** One subscription with only its matching bills, in their order. */
  function FilterOne(s: Subscription, f: BillFilter): (r: Subscription)
    ensures r.name == s.name
    ensures IsSublist(r.electricityBills, s.electricityBills)
    ensures forall b :: b in r.electricityBills <==> b in s.electricityBills && Matches(f, b)
  {
    WhereMembers(s.electricityBills, Matching(f));
    WhereSublist(s.electricityBills, Matching(f));
    s.(electricityBills := Where(s.electricityBills, Matching(f)))
  }

  /** One subscription with its matching bills removed (`filterNot`). */
  function RemoveMatching(s: Subscription, f: BillFilter): (r: Subscription)
    ensures r.name == s.name
    ensures IsSublist(r.electricityBills, s.electricityBills)
    ensures forall b :: b in r.electricityBills <==> b in s.electricityBills && !Matches(f, b)
  {
    WhereMembers(s.electricityBills, NotMatching(f));
    WhereSublist(s.electricityBills, NotMatching(f));
    s.(electricityBills := Where(s.electricityBills, NotMatching(f)))
  }

  /** The tabs' `filteredSubscriptions`: every subscription, in order, named
      as before, holding exactly its bills that match, in their order. */
  function FilterSubscriptions(subs: seq<Subscription>, f: BillFilter): (r: seq<Subscription>)
    ensures |r| == |subs|
    ensures forall i :: 0 <= i < |r| ==> r[i].name == subs[i].name
    ensures forall i :: 0 <= i < |r| ==> IsSublist(r[i].electricityBills, subs[i].electricityBills)
    ensures forall i, b :: 0 <= i < |r| ==>
      (b in r[i].electricityBills <==> b in subs[i].electricityBills && Matches(f, b))
  {
    seq(|subs|, i requires 0 <= i < |subs| => FilterOne(subs[i], f))
  }

  /** "Delete All": every subscription, in order, named as before, with
      exactly its matching bills removed. */
  function DeleteAllMatching(subs: seq<Subscription>, f: BillFilter): (r: seq<Subscription>)
    ensures |r| == |subs|
    ensures forall i :: 0 <= i < |r| ==> r[i].name == subs[i].name
    ensures forall i :: 0 <= i < |r| ==> IsSublist(r[i].electricityBills, subs[i].electricityBills)
    ensures forall i, b :: 0 <= i < |r| ==>
      (b in r[i].electricityBills <==> b in subs[i].electricityBills && !Matches(f, b))
  {
    seq(|subs|, i requires 0 <= i < |subs| => RemoveMatching(subs[i], f))
  }

  /** "Delete All" removes exactly the bills the tab shows: for every
      subscription the bills kept and the bills shown together are its bills,
      counted with multiplicity. */
  lemma DeleteAllRemovesShown(subs: seq<Subscription>, f: BillFilter, i: nat)
    requires i < |subs|
    ensures multiset(DeleteAllMatching(subs, f)[i].electricityBills)
      + multiset(FilterSubscriptions(subs, f)[i].electricityBills)
      == multiset(subs[i].electricityBills)
  {
    WherePartition(subs[i].electricityBills, Matching(f), NotMatching(f));
  }

  /** After "Delete All" the same filter shows nothing. */
  lemma DeleteAllLeavesNothingShown(subs: seq<Subscription>, f: BillFilter)
    ensures forall i :: 0 <= i < |subs| ==>
      FilterSubscriptions(DeleteAllMatching(subs, f), f)[i].electricityBills == []
  {
    var d := DeleteAllMatching(subs, f);
    forall i | 0 <= i < |subs| ensures FilterSubscriptions(d, f)[i].electricityBills == [] {
      assert FilterSubscriptions(d, f)[i] == FilterOne(d[i], f);
      WhereNone(d[i].electricityBills, Matching(f));
    }
  }

  /** The "Delete All" button is enabled when some subscription has a bill. */
  predicate DeleteAllEnabled(subs: seq<Subscription>)
  {
    exists i :: 0 <= i < |subs| && subs[i].electricityBills != []
  }

  /** The button is enabled exactly when, with no filter set, pressing it
      would change something. */
  lemma DeleteAllEnabledMeans(subs: seq<Subscription>)
    ensures DeleteAllEnabled(subs) <==> DeleteAllMatching(subs, NoFilter) != subs
  {
    var d := DeleteAllMatching(subs, NoFilter);
    if DeleteAllEnabled(subs) {
      var i :| 0 <= i < |subs| && subs[i].electricityBills != [];
      var b := subs[i].electricityBills[0];
      assert b in subs[i].electricityBills && Matches(NoFilter, b);
      assert b !in d[i].electricityBills;
    } else {
      forall i | 0 <= i < |subs| ensures d[i] == subs[i] {
        assert subs[i].electricityBills == [];
        assert d[i] == RemoveMatching(subs[i], NoFilter);
      }
    }
  }
}
