/** The dashboard page: the overview tab's statistics (one count per app,
    the paid count, the open payments and the payment rate) and the sidebar
    switch that decides which single tab is shown. */
module Dashboard {
  import opened JsValues
  import opened Decimal
  import opened AppTypes
  import opened Store

  /** The overview's statistics. */
  datatype Stats = Stats(kurse: nat, dozenten: nat, teilnehmer: nat, raeume: nat, anmeldungen: nat, bezahlt: nat)

  /** The statistics before (or without) a successful fetch. */
  const InitialStats := Stats(0, 0, 0, 0, 0, 0)

  /** The statistics of five fetched lists: their lengths, and the number of
      enrollments that are paid, which never exceeds the enrollments. */
  function StatsOf(kurse: seq<Record<KursFields>>, dozenten: seq<Record<DozentFields>>,
                   teilnehmer: seq<Record<TeilnehmerFields>>, raeume: seq<Record<RaumFields>>,
                   anmeldungen: seq<Record<AnmeldungFields>>): (s: Stats)
    ensures s.bezahlt <= s.anmeldungen
  {
    Stats(|kurse|, |dozenten|, |teilnehmer|, |raeume|, |anmeldungen|, |PaidOnes(anmeldungen)|)
  }

  /** `offeneZahlungen`: the enrollments less the paid ones. */
  function OffeneZahlungen(s: Stats): (r: int)
    ensures r >= 0 <==> s.bezahlt <= s.anmeldungen
    ensures r + s.bezahlt == s.anmeldungen
  {
    s.anmeldungen - s.bezahlt
  }

  /** The open payments of fetched lists are exactly the enrollments that
      are not paid, so they are never negative. */
  lemma {:induction false} OpenPaymentsCounted(kurse: seq<Record<KursFields>>, dozenten: seq<Record<DozentFields>>,
                                              teilnehmer: seq<Record<TeilnehmerFields>>, raeume: seq<Record<RaumFields>>,
                                              anmeldungen: seq<Record<AnmeldungFields>>)
    ensures OffeneZahlungen(StatsOf(kurse, dozenten, teilnehmer, raeume, anmeldungen)) == CountOpen(anmeldungen)
    ensures OffeneZahlungen(StatsOf(kurse, dozenten, teilnehmer, raeume, anmeldungen)) >= 0
  {
    PaidPlusOpen(anmeldungen);
  }

  /** `Math.round` of the percentage b/n in exact arithmetic: the whole number nearest
      to 100·b/n, halves rounded up; at most 100 when b <= n. */
  function RoundPercent(b: nat, n: nat): (r: nat)
    requires n > 0
    ensures 2 * n * r <= 200 * b + n < 2 * n * (r + 1)
    ensures b <= n ==> r <= 100
  {
    RoundingBounds(200 * b + n, 2 * n, b <= n);
    (200 * b + n) / (2 * n)
  }

  /** The quotient of x by m lies in [x/m - 1, x/m], and stays at most 100
      when x < 101·m. */
  lemma RoundingBounds(x: nat, m: nat, small: bool)
    requires m > 0 && (small ==> x < m * 101)
    ensures m * (x / m) <= x < m * (x / m + 1)
    ensures small ==> x / m <= 100
  {
    var r := x / m;
    assert x == m * r + x % m && 0 <= x % m < m;
    if small && r > 100 {
      MulMonotone(m, 101, r);
    }
  }

  /** Multiplying by a positive factor keeps the order. */
  lemma MulMonotone(m: nat, a: nat, b: nat)
    requires a <= b
    ensures m * a <= m * b
  {
    var k := b - a;
    assert m * b == m * a + m * k;
  }

  /** The payment-rate card: '—' without enrollments, otherwise the rounded
      percentage as a numeral followed by " %". */
  function PaymentRate(s: Stats): (r: string)
    ensures r == "—" <==> s.anmeldungen == 0
    ensures s.anmeldungen > 0 ==> |r| > 2 && r[|r| - 2..] == " %" && IsCanonical(r[..|r| - 2])
  {
    if s.anmeldungen > 0 then
      var p := Show(RoundPercent(s.bezahlt, s.anmeldungen));
      assert (p + " %")[..|p|] == p;
      p + " %"
    else "—"
  }

  /** The percentage the card shows is the rounded rate of paid enrollments
      and lies between 0 and 100. */
  lemma {:induction false} PaymentRateShown(s: Stats)
    requires s.anmeldungen > 0 && s.bezahlt <= s.anmeldungen
    ensures var p := Parse(PaymentRate(s)[..|PaymentRate(s)| - 2]);
      p <= 100 && 2 * s.anmeldungen * p <= 200 * s.bezahlt + s.anmeldungen < 2 * s.anmeldungen * (p + 1)
  {
    var q := RoundPercent(s.bezahlt, s.anmeldungen);
    assert PaymentRate(s)[..|PaymentRate(s)| - 2] == Show(q);
    ParseShow(q);
  }

  /** The payment-rate card's sub-text: "b von n". */
  function PaymentSub(s: Stats): (r: string)
    ensures exists p, q ::
      && r == p + " von " + q
      && IsCanonical(p) && IsCanonical(q)
      && Parse(p) == s.bezahlt && Parse(q) == s.anmeldungen
  {
    ParseShow(s.bezahlt);
    ParseShow(s.anmeldungen);
    Show(s.bezahlt) + " von " + Show(s.anmeldungen)
  }

  /** The enrollments card's sub-text: "b bezahlt · o offen". */
  function EnrollmentSub(s: Stats): (r: string)
    ensures s.bezahlt <= s.anmeldungen ==>
      exists p, q ::
        && r == p + " bezahlt · " + q + " offen"
        && IsCanonical(p) && IsCanonical(q)
        && Parse(p) == s.bezahlt && Parse(q) == s.anmeldungen - s.bezahlt
  {
    ParseShow(s.bezahlt);
    ParseShow(if s.bezahlt <= s.anmeldungen then s.anmeldungen - s.bezahlt else 0);
    Show(s.bezahlt) + " bezahlt · " + ShowInt(OffeneZahlungen(s)) + " offen"
  }

  /** For fetched lists the enrollments card names the paid and the unpaid
      enrollments, the latter without a sign. */
  lemma {:induction false} EnrollmentSubCounts(kurse: seq<Record<KursFields>>, dozenten: seq<Record<DozentFields>>,
                                              teilnehmer: seq<Record<TeilnehmerFields>>, raeume: seq<Record<RaumFields>>,
                                              anmeldungen: seq<Record<AnmeldungFields>>)
    ensures EnrollmentSub(StatsOf(kurse, dozenten, teilnehmer, raeume, anmeldungen)) ==
      Show(|PaidOnes(anmeldungen)|) + " bezahlt · " + Show(CountOpen(anmeldungen)) + " offen"
  {
    OpenPaymentsCounted(kurse, dozenten, teilnehmer, raeume, anmeldungen);
  }

  /** Four paid enrollments out of ten read "40 %" and "4 von 10"; none at
      all reads "—" and "0 von 0". */
  lemma FortyPercent()
    ensures PaymentRate(Stats(0, 0, 0, 0, 10, 4)) == "40 %"
    ensures PaymentSub(Stats(0, 0, 0, 0, 10, 4)) == "4 von 10"
    ensures PaymentRate(InitialStats) == "—" && PaymentSub(InitialStats) == "0 von 0"
  {
    assert RoundPercent(4, 10) == 40;
    assert Show(40) == "40" && Show(10) == "10";
  }

  /** The overview tab: five counts fetched once when it is mounted. */
  class OverviewTab {
    const kurseStore: Table<KursFields>
    const dozentenStore: Table<DozentFields>
    const teilnehmerStore: Table<TeilnehmerFields>
    const raeumeStore: Table<RaumFields>
    const anmeldungenStore: Table<AnmeldungFields>
    var stats: Stats
    var loading: bool

    /** The paid count never exceeds the enrollments, so the open payments
        are never negative and the rate never exceeds 100. */
    ghost predicate Valid()
      reads this
    {
      stats.bezahlt <= stats.anmeldungen
    }

    /** The state right after mounting: all counts zero, loading. */
    constructor (kurseStore: Table<KursFields>, dozentenStore: Table<DozentFields>,
                 teilnehmerStore: Table<TeilnehmerFields>, raeumeStore: Table<RaumFields>,
                 anmeldungenStore: Table<AnmeldungFields>)
      ensures Valid() && stats == InitialStats && loading
      ensures this.kurseStore == kurseStore && this.dozentenStore == dozentenStore
      ensures this.teilnehmerStore == teilnehmerStore && this.raeumeStore == raeumeStore
      ensures this.anmeldungenStore == anmeldungenStore
    {
      this.kurseStore := kurseStore;
      this.dozentenStore := dozentenStore;
      this.teilnehmerStore := teilnehmerStore;
      this.raeumeStore := raeumeStore;
      this.anmeldungenStore := anmeldungenStore;
      stats := InitialStats;
      loading := true;
    }

    /** The mount effect: the five lists are fetched together; only when all
        five arrive are the statistics replaced, and loading ends either way. */
    method Fetch() returns (ok: bool)
      requires Valid()
      modifies this`stats, this`loading
      ensures Valid() && !loading
      ensures ok ==> stats == StatsOf(kurseStore.rows, dozentenStore.rows, teilnehmerStore.rows,
                                      raeumeStore.rows, anmeldungenStore.rows)
      ensures !ok ==> stats == old(stats)
    {
      var okK, k := kurseStore.List();
      var okD, d := dozentenStore.List();
      var okT, t := teilnehmerStore.List();
      var okR, r := raeumeStore.List();
      var okA, a := anmeldungenStore.List();
      ok := okK && okD && okT && okR && okA;
      if ok {
        stats := StatsOf(k, d, t, r, a);
      }
      loading := false;
    }

    /** The numbers the cards show: the open payments are not negative and
        the rate, when there is one, is at most 100 %. */
    method OpenPayments() returns (offen: int)
      requires Valid()
      ensures offen >= 0 && offen + stats.bezahlt == stats.anmeldungen
    {
      offen := OffeneZahlungen(stats);
    }
  }

  /** The sidebar's tabs. */
  datatype Tab = Uebersicht | Kurse | Dozenten | Teilnehmer | Raeume | Anmeldungen

  /** A sidebar entry: the tab it selects and its label text. */
  datatype NavItem = NavItem(id: Tab, caption: string)

  /** `NAV_ITEMS`, in sidebar order. */
  const NavItems: seq<NavItem> := [
    NavItem(Uebersicht, "Übersicht"), NavItem(Kurse, "Kurse"), NavItem(Dozenten, "Dozenten"),
    NavItem(Teilnehmer, "Teilnehmer"), NavItem(Raeume, "Räume"), NavItem(Anmeldungen, "Anmeldungen")]

  /** The main area's six conditional blocks, in order. */
  const MainSlots: seq<Tab> := [Uebersicht, Kurse, Dozenten, Teilnehmer, Raeume, Anmeldungen]

  /** The blocks whose tab is the active one: the tabs that
      are mounted. The active tab is mounted once per block that has it,
      and no other tab is mounted. */
  function MountedAmong(slots: seq<Tab>, active: Tab): (r: seq<Tab>)
    ensures |r| <= |slots|
    ensures forall k :: 0 <= k < |r| ==> r[k] == active
    ensures |r| == multiset(slots)[active]
  {
    if slots == [] then []
    else
      assert slots == [slots[0]] + slots[1..];
      (if slots[0] == active then [slots[0]] else []) + MountedAmong(slots[1..], active)
  }

  predicate Distinct(slots: seq<Tab>) {
    forall i, j :: 0 <= i < j < |slots| ==> slots[i] != slots[j]
  }

  /** When the active tab has exactly one block, exactly that block is
      mounted. */
  lemma {:induction false} MountedOnce(slots: seq<Tab>, active: Tab)
    requires Distinct(slots) && active in slots
    ensures MountedAmong(slots, active) == [active]
  {
    if slots[0] == active {
      MountedNone(slots[1..], active);
    } else {
      assert active in slots[1..];
      MountedOnce(slots[1..], active);
    }
  }

  /** A tab without a block mounts nothing. */
  lemma {:induction false} MountedNone(slots: seq<Tab>, active: Tab)
    requires active !in slots
    ensures MountedAmong(slots, active) == []
  {
    if slots != [] {
      MountedNone(slots[1..], active);
    }
  }

  /** Every sidebar entry selects a tab that has a block, and every tab has
      exactly one entry and exactly one block. */
  lemma NavCoversSlots()
    ensures |NavItems| == |MainSlots| && forall i :: 0 <= i < |NavItems| ==> NavItems[i].id == MainSlots[i]
    ensures Distinct(MainSlots)
    ensures forall t: Tab :: t in MainSlots
  {
    forall t: Tab ensures t in MainSlots {
      var k := match t
        case Uebersicht => 0 case Kurse => 1 case Dozenten => 2
        case Teilnehmer => 3 case Raeume => 4 case Anmeldungen => 5;
      assert MainSlots[k] == t;
    }
  }

  /** The page's one piece of state: which tab is active. */
  class Shell {
    var activeTab: Tab

    /** The page opens on the overview. */
    constructor ()
      ensures activeTab == Uebersicht
      ensures MountedAmong(MainSlots, activeTab) == [Uebersicht]
    {
      activeTab := Uebersicht;
      NavCoversSlots();
      MountedOnce(MainSlots, Uebersicht);
    }

    /** Clicking the i-th sidebar entry makes its tab the active one, and
        exactly that tab's content is mounted. */
    method Navigate(i: nat)
      requires i < |NavItems|
      modifies this
      ensures activeTab == NavItems[i].id
      ensures MountedAmong(MainSlots, activeTab) == [activeTab]
    {
      activeTab := NavItems[i].id;
      NavCoversSlots();
      MountedOnce(MainSlots, activeTab);
    }
  }
}
