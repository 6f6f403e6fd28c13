/** The 32x8 LED matrix's tab carousel (lib/MD_Parola_Matrix64x16/Matrix32x8.hpp):
    tabs linked in a ring, and a small state machine that scrolls from the
    current tab to a target tab, one step each time the display library
    reports the running animation done. Tab pointers are indices into the
    tab list; a null pointer is None. */
module Matrix {
  import opened Common

  datatype Animation = NoAnimation | ScrollNext | ScrollNextOngoing | ScrollPrev | ScrollPrevOngoing | ScrollFinish

  /** The display library's entry and exit text effects. */
  datatype Effect = NoEffect | ScrollLeft | ScrollRight

  /** A tab: its index and the indices of its ring neighbours. */
  datatype Tab = Tab(index: nat, prev: nat, next: nat)

  /** The tabs form the ring the constructor builds. */
  predicate IsRing(tabs: seq<Tab>)
  {
    |tabs| >= 1 &&
    forall i :: 0 <= i < |tabs| ==>
      tabs[i] == Tab(i, (i - 1 + |tabs|) % |tabs|, (i + 1) % |tabs|)
  }

  /** `(i + 1) % n` for an index: the successor, wrapping to 0. */
  lemma SuccIndex(i: nat, n: nat)
    requires i < n
    ensures (i + 1) % n == if i + 1 < n then i + 1 else 0
  {
    if i + 1 == n {
      ModUnique(i + 1, n, 1, 0);
    }
  }

  /** `(i - 1 + n) % n` for an index: the predecessor, wrapping to n - 1. */
  lemma PredIndex(i: nat, n: nat)
    requires i < n
    ensures (i - 1 + n) % n == if i > 0 then i - 1 else n - 1
  {
    if i > 0 {
      ModUnique(i - 1 + n, n, 1, i - 1);
    } else {
      ModUnique(n - 1, n, 0, n - 1);
    }
  }

  /** In the ring, next and prev undo each other. */
  lemma RingNeighboursInverse(tabs: seq<Tab>, i: nat)
    requires IsRing(tabs) && i < |tabs|
    ensures tabs[i].next < |tabs| && tabs[tabs[i].next].prev == i
    ensures tabs[i].prev < |tabs| && tabs[tabs[i].prev].next == i
  {
    var n := |tabs|;
    SuccIndex(i, n);
    PredIndex(i, n);
    var nx := tabs[i].next;
    var pv := tabs[i].prev;
    PredIndex(nx, n);
    SuccIndex(pv, n);
    assert tabs[nx].prev == (nx - 1 + n) % n;
    assert tabs[pv].next == (pv + 1) % n;
  }

  /** Following next k times from tab 0. */
  function Advance(tabs: seq<Tab>, k: nat): (t: nat)
    requires IsRing(tabs)
    ensures t < |tabs|
  {
    if k == 0 then 0 else tabs[Advance(tabs, k - 1)].next
  }

  /** The successor of k - 1 mod n is k mod n. */
  lemma ModStep(k: nat, n: nat)
    requires k >= 1 && n >= 1
    ensures ((k - 1) % n + 1) % n == k % n
  {
    var r := (k - 1) % n;
    var q := (k - 1) / n;
    SuccIndex(r, n);
    if r + 1 < n {
      ModUnique(k, n, q, r + 1);
    } else {
      ModUnique(k, n, q + 1, 0);
    }
  }

  /** Scrolling next k times from tab 0 reaches tab k mod n: every tab is
      reached, in index order. */
  lemma {:induction false} AdvanceReaches(tabs: seq<Tab>, k: nat)
    requires IsRing(tabs)
    ensures Advance(tabs, k) == k % |tabs|
  {
    var n := |tabs|;
    if k > 0 {
      AdvanceReaches(tabs, k - 1);
      var prev := (k - 1) % n;
      assert tabs[prev].next == (prev + 1) % n;
      ModStep(k, n);
    }
  }

  /** The step `loop` takes when the animation is done. */
  function NextAnimation(a: Animation): Animation
  {
    match a
    case NoAnimation => NoAnimation
    case ScrollNext => ScrollNextOngoing
    case ScrollNextOngoing => ScrollFinish
    case ScrollPrev => ScrollPrevOngoing
    case ScrollPrevOngoing => ScrollFinish
    case ScrollFinish => NoAnimation
  }

  function Steps(a: Animation, k: nat): Animation
    decreases k
  {
    if k == 0 then a else Steps(NextAnimation(a), k - 1)
  }

  /** A scroll in either direction ends after three completed animation
      steps, and never earlier. */
  lemma ScrollEndsAfterThreeSteps(a: Animation)
    requires a == ScrollNext || a == ScrollPrev
    ensures Steps(a, 3) == NoAnimation
    ensures Steps(a, 1) != NoAnimation && Steps(a, 2) == ScrollFinish
  {
  }

  /** Once idle, the state machine stays idle. */
  lemma {:induction false} IdleStaysIdle(k: nat)
    ensures Steps(NoAnimation, k) == NoAnimation
  {
    if k > 0 {
      IdleStaysIdle(k - 1);
    }
  }

  class Matrix32x8 {
    var setupDone: bool
    var animation: Animation
    var tabs: seq<Tab>
    var currentTab: nat
    var scrollTo: Option<nat>
    var lastAnimation: Animation
    var effectIn: Effect
    var effectOut: Effect

    /** The ring is intact, the pointers point into it, and a target is set
        while a scroll is under way. */
    predicate Valid()
      reads this
    {
      IsRing(tabs) && currentTab < |tabs| &&
      (scrollTo.Some? ==> scrollTo.value < |tabs|) &&
      (animation in {ScrollNext, ScrollNextOngoing, ScrollPrev, ScrollPrevOngoing} ==> scrollTo.Some?)
    }

    /** Matrix32x8(csPin, suppliers...): one tab per text supplier, linked
        in a ring, the first one current. `tabs.front()` needs a supplier. */
    constructor (suppliers: nat)
      requires suppliers >= 1
      ensures Valid() && |tabs| == suppliers && currentTab == 0 && scrollTo == None
      ensures !setupDone && animation == NoAnimation && lastAnimation == NoAnimation
    {
      setupDone := false;
      animation := NoAnimation;
      lastAnimation := NoAnimation;
      scrollTo := None;
      effectIn := NoEffect;
      effectOut := NoEffect;
      currentTab := 0;
      var ts: seq<Tab> := [];
      while |ts| < suppliers
        invariant |ts| <= suppliers
        invariant forall i :: 0 <= i < |ts| ==> ts[i].index == i
      {
        ts := ts + [Tab(|ts|, 0, 0)];
      }
      var i := 0;
      while i < |ts|
        invariant 0 <= i <= |ts| == suppliers
        invariant forall j :: 0 <= j < |ts| ==> ts[j].index == j
        invariant forall j :: 0 <= j < i ==> ts[j] == Tab(j, (j - 1 + |ts|) % |ts|, (j + 1) % |ts|)
      {
        ts := ts[i := ts[i].(prev := (i - 1 + |ts|) % |ts|, next := (i + 1) % |ts|)];
        i := i + 1;
      }
      tabs := ts;
    }

    /** setup: `begins` is whether the display library started; the source
        asserts setup runs once. */
    method Setup(begins: bool) returns (ok: bool)
      requires !setupDone
      modifies this
      ensures ok == begins && setupDone == begins
      ensures animation == old(animation) && tabs == old(tabs) && currentTab == old(currentTab)
      ensures scrollTo == old(scrollTo) && lastAnimation == old(lastAnimation)
      ensures begins ==> effectIn == NoEffect && effectOut == NoEffect
      ensures !begins ==> effectIn == old(effectIn) && effectOut == old(effectOut)
    {
      if begins {
        effectIn, effectOut := NoEffect, NoEffect;
        setupDone := true;
        return true;
      }
      return false;
    }

    /** loop: `animationDone` is what displayAnimate returned. On a done
        animation the state takes one step; the current tab changes only on
        leaving an ONGOING state, to the target. */
    method Loop(animationDone: bool)
      requires setupDone && Valid()
      modifies this
      ensures Valid() && tabs == old(tabs) && scrollTo == old(scrollTo)
      ensures lastAnimation == old(lastAnimation) && setupDone
      ensures !animationDone ==> animation == old(animation) && currentTab == old(currentTab)
      ensures !animationDone ==> effectIn == old(effectIn) && effectOut == old(effectOut)
      ensures animationDone ==> animation == NextAnimation(old(animation))
      ensures animationDone && old(animation) in {ScrollNextOngoing, ScrollPrevOngoing} ==>
        currentTab == old(scrollTo).value
      ensures !(animationDone && old(animation) in {ScrollNextOngoing, ScrollPrevOngoing}) ==>
        currentTab == old(currentTab)
    {
      if animationDone {
        match animation
        case NoAnimation =>
        case ScrollNext =>
          effectIn, effectOut := NoEffect, ScrollLeft;
          animation := ScrollNextOngoing;
        case ScrollNextOngoing =>
          effectIn, effectOut := ScrollLeft, NoEffect;
          currentTab := scrollTo.value;
          animation := ScrollFinish;
        case ScrollPrev =>
          effectIn, effectOut := NoEffect, ScrollRight;
          animation := ScrollPrevOngoing;
        case ScrollPrevOngoing =>
          effectIn, effectOut := ScrollRight, NoEffect;
          currentTab := scrollTo.value;
          animation := ScrollFinish;
        case ScrollFinish =>
          effectIn, effectOut := NoEffect, NoEffect;
          animation := NoAnimation;
      }
    }

    /** scrollNext: target the current tab's next neighbour. */
    method ScrollNextTab()
      requires Valid()
      modifies this
      ensures Valid() && animation == ScrollNext && lastAnimation == ScrollNext
      ensures scrollTo == Some(tabs[currentTab].next)
      ensures tabs == old(tabs) && currentTab == old(currentTab) && setupDone == old(setupDone)
      ensures effectIn == old(effectIn) && effectOut == old(effectOut)
    {
      RingNeighboursInverse(tabs, currentTab);
      animation, lastAnimation := ScrollNext, ScrollNext;
      scrollTo := Some(tabs[currentTab].next);
    }

    /** scrollPrev: target the current tab's previous neighbour. */
    method ScrollPrevTab()
      requires Valid()
      modifies this
      ensures Valid() && animation == ScrollPrev && lastAnimation == ScrollPrev
      ensures scrollTo == Some(tabs[currentTab].prev)
      ensures tabs == old(tabs) && currentTab == old(currentTab) && setupDone == old(setupDone)
      ensures effectIn == old(effectIn) && effectOut == old(effectOut)
    {
      RingNeighboursInverse(tabs, currentTab);
      animation, lastAnimation := ScrollPrev, ScrollPrev;
      scrollTo := Some(tabs[currentTab].prev);
    }

    /** scrollToStart: nothing at tab 0; otherwise target tab 0, animating
        against the last scroll direction (lastAnimation is left as it is). */
    method ScrollToStart()
      requires Valid()
      modifies this
      ensures Valid() && tabs == old(tabs) && currentTab == old(currentTab)
      ensures lastAnimation == old(lastAnimation) && setupDone == old(setupDone)
      ensures effectIn == old(effectIn) && effectOut == old(effectOut)
      ensures old(currentTab) == 0 ==> animation == old(animation) && scrollTo == old(scrollTo)
      ensures old(currentTab) != 0 ==> scrollTo == Some(0)
      ensures old(currentTab) != 0 ==> animation == (if old(lastAnimation) == ScrollNext then ScrollPrev else ScrollNext)
    {
      if currentTab == 0 {
        return;
      }
      RingNeighboursInverse(tabs, currentTab);
      if lastAnimation == ScrollNext {
        animation := ScrollPrev;
        scrollTo := Some(tabs[currentTab].prev);
      } else {
        animation := ScrollNext;
        scrollTo := Some(tabs[currentTab].next);
      }
      scrollTo := Some(0);
    }
  }

  /** A scroll started by scrollNext, followed by three completed animation
      steps, lands on the next tab and ends idle. */
  method ScrollNextLands(m: Matrix32x8)
    requires m.setupDone && m.Valid()
    modifies m
    ensures m.Valid() && m.animation == NoAnimation
    ensures m.currentTab == old(m.tabs[m.currentTab].next)
  {
    m.ScrollNextTab();
    m.Loop(true);
    m.Loop(true);
    m.Loop(true);
  }
}
