/** The shell of the multi-document sample: a conductor of tabs that names
    each new tab after a running counter, and a can-close query guarded
    against re-entrance while an earlier query is still waiting. The
    conductor's own activation rules are not part of this model: its
    ActivateItem and DeactivateItem calls are only recorded. */
module SimpleMDI {
  import opened Wrappers

  // ---------------------------------------------------------------------
  // The counter is a C# int, and `++` on it is unchecked.

  const MinInt32: int := -0x8000_0000
  const MaxInt32: int := 0x7FFF_FFFF

  predicate IsInt32(x: int) { MinInt32 <= x <= MaxInt32 }

  /** Unchecked 32-bit increment, by reduction modulo 2^32. */
  function Increment32(x: int): (r: int)
    requires IsInt32(x)
    ensures IsInt32(r)
    ensures x < MaxInt32 ==> r == x + 1
    ensures x == MaxInt32 ==> r == MinInt32
  {
    (x + 1 - MinInt32) % 0x1_0000_0000 + MinInt32
  }

  // ---------------------------------------------------------------------
  // Decimal text of an int, as Int32.ToString writes it when the current
  // culture's negative sign is "-".

  predicate IsDigit(c: char) { '0' <= c <= '9' }

  function Digit(d: nat): (c: char)
    requires d < 10
    ensures IsDigit(c) && c as int - '0' as int == d
  {
    ('0' as int + d) as char
  }

  function DigitValue(c: char): (d: nat)
    requires IsDigit(c)
    ensures d < 10 && Digit(d) == c
  {
    assert c as int >= '0' as int;
    c as int - '0' as int
  }

  /** The decimal digits of `n`, most significant first. */
  function NatToDecimal(n: nat): (s: string)
    ensures |s| > 0
    ensures forall i :: 0 <= i < |s| ==> IsDigit(s[i])
    decreases n
  {
    if n < 10 then [Digit(n)] else NatToDecimal(n / 10) + [Digit(n % 10)]
  }

  /** The number a string of decimal digits denotes. */
  function DecimalValue(s: string): nat
    requires forall i :: 0 <= i < |s| ==> IsDigit(s[i])
  {
    if s == [] then 0
    else 10 * DecimalValue(s[..|s| - 1]) + DigitValue(s[|s| - 1])
  }

  /** Reading back the digits gives the number: the decimal text is
      injective. */
  lemma {:induction false} DecimalRoundTrip(n: nat)
    ensures DecimalValue(NatToDecimal(n)) == n
    decreases n
  {
    if n >= 10 {
      var s := NatToDecimal(n);
      assert s[..|s| - 1] == NatToDecimal(n / 10);
      DecimalRoundTrip(n / 10);
    }
  }

  function IntToDecimal(x: int): (s: string)
    ensures |s| > 0
  {
    if x < 0 then "-" + NatToDecimal(-x) else NatToDecimal(x)
  }

  /** The number denoted by an optional minus sign followed by digits. */
  function ParseInt(s: string): int
    requires |s| > 0
    requires forall i :: 0 < i < |s| ==> IsDigit(s[i])
    requires s[0] == '-' || IsDigit(s[0])
  {
    if s[0] == '-' then -(DecimalValue(s[1..]) as int) else DecimalValue(s)
  }

  /** Reading back the text of an int gives the int. */
  lemma {:induction false} IntRoundTrip(x: int)
    ensures var s := IntToDecimal(x);
      && (forall i :: 0 < i < |s| ==> IsDigit(s[i])) && (s[0] == '-' || IsDigit(s[0]))
      && ParseInt(s) == x
  {
    var s := IntToDecimal(x);
    if x < 0 {
      assert s[1..] == NatToDecimal(-x);
      DecimalRoundTrip(-x);
    } else {
      DecimalRoundTrip(x);
    }
  }

  /** The display name the shell gives a tab opened when the counter
      reaches `count`: "Tab " followed by text that reads back as `count`. */
  function TabName(count: int): (r: string)
    ensures |r| > 4 && r[..4] == "Tab "
    ensures var s := r[4..];
      && (forall i :: 0 < i < |s| ==> IsDigit(s[i])) && (s[0] == '-' || IsDigit(s[0]))
      && ParseInt(s) == count
  {
    IntRoundTrip(count);
    var r := "Tab " + IntToDecimal(count);
    assert r[4..] == IntToDecimal(count);
    r
  }

  /** Different counter values give different tab names: each name reads
      back as its own counter. */
  lemma TabNamesDistinct(a: int, b: int)
    requires a != b
    ensures TabName(a) != TabName(b)
  {
  }

  // ---------------------------------------------------------------------
  // The counter over a shell's history.

  /** The counter after `n` OpenTab calls on a new shell, with or without
      a tab from the factory. */
  function CountAfter(n: nat): (c: int)
    ensures IsInt32(c)
  {
    if n == 0 then 0 else Increment32(CountAfter(n - 1))
  }

  /** Division with remainder by 2^32 is unique. */
  lemma ModOfRemainder(a: int, q: int, r: int)
    requires a == q * 0x1_0000_0000 + r && 0 <= r < 0x1_0000_0000
    ensures a % 0x1_0000_0000 == r
  {
  }

  /** The counter after `n` opens is `n` reduced into the 32-bit range. */
  lemma {:induction false} CountAfterWraps(n: nat)
    ensures CountAfter(n) == (n - MinInt32) % 0x1_0000_0000 + MinInt32
  {
    if n > 0 {
      CountAfterWraps(n - 1);
      var x := n - 1 - MinInt32;
      var q, m := x / 0x1_0000_0000, x % 0x1_0000_0000;
      if m + 1 < 0x1_0000_0000 {
        ModOfRemainder(x + 1, q, m + 1);
        ModOfRemainder(m + 1, 0, m + 1);
      } else {
        ModOfRemainder(x + 1, q + 1, 0);
        ModOfRemainder(m + 1, 1, 0);
      }
    }
  }

  /** Up to MaxInt32 opens, the counter is the number of tabs opened. */
  lemma {:induction false} CountAfterSmall(n: nat)
    requires n <= MaxInt32
    ensures CountAfter(n) == n
  {
    CountAfterWraps(n);
  }

  /** The first MaxInt32 tabs of a shell get increasing counters, so their
      names are pairwise distinct. */
  lemma {:induction false} FirstTabsDistinct(i: nat, j: nat)
    requires 1 <= i < j <= MaxInt32
    ensures CountAfter(i) == i && CountAfter(j) == j
    ensures TabName(CountAfter(i)) != TabName(CountAfter(j))
  {
    CountAfterSmall(i);
    CountAfterSmall(j);
    TabNamesDistinct(i, j);
  }

  /** The tab opened after MaxInt32 others gets a negative counter: the
      unchecked `++` wraps to MinInt32 and the name carries a minus sign. */
  lemma WrapGivesNegativeName()
    ensures CountAfter(MaxInt32 + 1) == MinInt32
    ensures TabName(CountAfter(MaxInt32 + 1))[4] == '-'
  {
    CountAfterWraps(MaxInt32 + 1);
  }

  /** After 2^32 further opens the counter, and so the name, repeats. */
  lemma TabNamesRepeat(n: nat)
    ensures CountAfter(n + 0x1_0000_0000) == CountAfter(n)
    ensures TabName(CountAfter(n + 0x1_0000_0000)) == TabName(CountAfter(n))
  {
    CountAfterWraps(n);
    CountAfterWraps(n + 0x1_0000_0000);
    var x := n - MinInt32;
    ModOfRemainder(x + 0x1_0000_0000, x / 0x1_0000_0000 + 1, x % 0x1_0000_0000);
  }

  // ---------------------------------------------------------------------
  // The shell view model.

  /** The factory delegate that creates tab view models. */
  type TabFactory = nat

  class TabViewModel {
    var displayName: string

    constructor ()
      ensures displayName == ""
    {
      displayName := "";
    }
  }

  class ShellViewModel {
    const createTabViewModel: TabFactory
    /** The number of tabs opened so far (a C# int). */
    var count: int
    /** True while a can-close query waits at its delay. */
    var canClosePending: bool
    /** The items handed to the conductor's ActivateItem, in order. */
    ghost var activated: seq<TabViewModel>
    /** The items (possibly null) handed to the conductor's DeactivateItem,
        with its close flag. */
    ghost var deactivated: seq<(Option<TabViewModel>, bool)>

    ghost predicate Valid()
      reads this
    {
      IsInt32(count)
    }

    constructor (factory: TabFactory)
      ensures Valid() && createTabViewModel == factory
      ensures count == 0 && !canClosePending
      ensures activated == [] && deactivated == []
    {
      createTabViewModel := factory;
      count := 0;
      canClosePending := false;
      activated := [];
      deactivated := [];
    }

    /** The public constructor: a null factory is an argument fault. */
    static method Create(createTabViewModel: Option<TabFactory>) returns (r: Result<ShellViewModel, Error>)
      ensures createTabViewModel.None? ==> r == Failure(ArgumentNull("createTabViewModel"))
      ensures createTabViewModel.Some? ==>
        && r.Success? && fresh(r.value) && r.value.Valid()
        && r.value.createTabViewModel == createTabViewModel.value
        && r.value.count == 0 && !r.value.canClosePending
        && r.value.activated == [] && r.value.deactivated == []
    {
      if createTabViewModel.None? {
        return Failure(ArgumentNull("createTabViewModel"));
      }
      var shell := new ShellViewModel(createTabViewModel.value);
      r := Success(shell);
    }

    /** OpenTabCommand: `tab` is what the factory returned. The counter
        goes up by one and names the tab; the tab is then activated. A null
        tab still advances the counter, because `++` is evaluated before the
        name is assigned, and the assignment then faults. */
    method OpenTab(tab: Option<TabViewModel>) returns (fault: Option<Error>)
      requires Valid()
      modifies this, if tab.Some? then {tab.value} else {}
      ensures Valid()
      ensures count == Increment32(old(count))
      ensures tab.None? ==> fault == Some(NullReference) && activated == old(activated)
      ensures tab.Some? ==>
        && fault.None?
        && tab.value.displayName == TabName(count)
        && activated == old(activated) + [tab.value]
      ensures canClosePending == old(canClosePending) && deactivated == old(deactivated)
    {
      count := Increment32(count);
      if tab.None? {
        return Some(NullReference);
      }
      tab.value.displayName := TabName(count);
      activated := activated + [tab.value];
      fault := None;
    }

    /** CloseTabCommand: asks the conductor to deactivate and close the item.
        The command parameter is passed on as it is, null included. */
    method CloseTab(item: Option<TabViewModel>)
      modifies this
      ensures deactivated == old(deactivated) + [(item, true)]
      ensures count == old(count) && canClosePending == old(canClosePending) && activated == old(activated)
    {
      deactivated := deactivated + [(item, true)];
    }

    /** CanCloseAsync up to its delay. Some(b): the query completed at once
        with b; None: it is suspended until CompleteCanClose. */
    method BeginCanClose() returns (immediate: Option<bool>)
      modifies this
      ensures old(canClosePending) ==> immediate == Some(false)
      ensures !old(canClosePending) ==> immediate == None
      ensures canClosePending
      ensures count == old(count) && activated == old(activated) && deactivated == old(deactivated)
    {
      if canClosePending {
        return Some(false);
      }
      canClosePending := true;
      immediate := None;
    }

    /** CanCloseAsync after its delay: only a suspended query resumes here,
        and it releases the guard and answers true. */
    method CompleteCanClose() returns (result: bool)
      requires canClosePending
      modifies this
      ensures !canClosePending && result
      ensures count == old(count) && activated == old(activated) && deactivated == old(deactivated)
    {
      canClosePending := false;
      result := true;
    }
  }

  /** Two overlapping can-close queries, then a later one. */
  method CloseGuardScenario(factory: TabFactory)
  {
    var shell := new ShellViewModel(factory);
    var first := shell.BeginCanClose();
    assert first == None;
    var second := shell.BeginCanClose();
    assert second == Some(false);
    var answer := shell.CompleteCanClose();
    assert answer;
    var later := shell.BeginCanClose();
    assert later == None;
  }
}
