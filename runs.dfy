/** Consequences of the step functions over whole runs of input. */
module Runs {

  import opened Wrappers
  import opened Shop
  import opened Sounds
  import opened Geometry
  import opened GameState

  /** A pointer-down on the cat image that misses every shop cell. */
  predicate CatPress(e: Event, scrollY: int) {
    e.MouseDown? && Contains(ImageRect(), e.x, e.y) && CellAt(e.x, e.y, scrollY) == None
  }

  /** The clock reading of the last pointer-down in `events`, or `since` if there is none. */
  function LastTime(events: seq<Event>, since: int): int {
    if events == [] || !events[|events| - 1].MouseDown? then since else events[|events| - 1].now
  }

  /**
   * Pointer-downs on the cat, each more than the cooldown after the previous
   * one (the first one more than the cooldown after `since`).
   */
  predicate SpacedCatClicks(events: seq<Event>, since: int, scrollY: int)
    decreases |events|
  {
    events == [] ||
      var prefix := events[..|events| - 1];
      var e := events[|events| - 1];
      && SpacedCatClicks(prefix, since, scrollY)
      && CatPress(e, scrollY)
      && e.now - LastTime(prefix, since) > CLICK_COOLDOWN
  }

  lemma MulStep(n: int, p: int)
    ensures n * p == (n - 1) * p + p
  {
  }

  /** A pointer-down on the cat that misses the shop is exactly a click. */
  lemma CatPressIsClick(s: State, e: Event)
    requires Inv(s) && CatPress(e, s.scrollY)
    ensures Step(s, e) == Click(s, e.now, e.soundPick)
  {
    var clicked := Click(s, e.now, e.soundPick);
    ShopScanBuysAtMostOne(clicked, e.x, e.y, e.extra, VisibleCount(clicked));
    assert MouseDownStep(s, e.x, e.y, e.now, e.soundPick, e.extra) == clicked;
  }

  /** Every click in a spaced run counts: the score grows by one click's value per click. */
  lemma {:induction false} SpacedClicksAllCount(s: State, events: seq<Event>)
    requires Inv(s) && SpacedCatClicks(events, s.lastClickTime, s.scrollY)
    ensures Steps(s, events).clickCount == s.clickCount + |events| * s.pointsPerClick
    ensures Steps(s, events).pointsPerClick == s.pointsPerClick
    ensures Steps(s, events).abilities == s.abilities
    ensures Steps(s, events).scrollY == s.scrollY
    ensures Steps(s, events).lastClickTime == LastTime(events, s.lastClickTime)
    decreases |events|
  {
    if events != [] {
      var n := |events|;
      var prefix := events[..n - 1];
      SpacedClicksAllCount(s, prefix);
      var before := Steps(s, prefix);
      var e := events[n - 1];
      assert Steps(s, events) == Step(before, e);
      CatPressIsClick(before, e);
      MulStep(n, s.pointsPerClick);
    }
  }

  /** A pointer-down outside the cat image on shop cell `idx`. */
  predicate ShopCellPress(e: Event, idx: nat, scrollY: int) {
    e.MouseDown? && !Contains(ImageRect(), e.x, e.y) && CellAt(e.x, e.y, scrollY) == Some(idx)
  }

  /** A pointer-down on a shop cell is exactly an attempt to buy that cell's offer. */
  lemma ShopCellPressIsPurchase(s: State, e: Event, idx: nat)
    requires Inv(s) && ShopCellPress(e, idx, s.scrollY)
    ensures Step(s, e) == Purchase(s, idx, e.extra)
  {
    ShopScanBuysAtMostOne(s, e.x, e.y, e.extra, MAX_ABILITIES);
  }

  /** A pointer-down within the cooldown that misses the shop changes nothing. */
  lemma PressWithinCooldownIgnored(s: State, e: Event)
    requires Inv(s) && e.MouseDown? && CellAt(e.x, e.y, s.scrollY) == None
    requires e.now - s.lastClickTime <= CLICK_COOLDOWN
    ensures Step(s, e) == s
  {
    ShopScanBuysAtMostOne(s, e.x, e.y, e.extra, MAX_ABILITIES);
  }

  lemma StepsOfOne(s: State, a: Event)
    requires Inv(s)
    ensures Steps(s, [a]) == Step(s, a)
  {
    assert [a][..0] == [];
  }

  lemma StepsOfTwo(s: State, a: Event, b: Event)
    requires Inv(s)
    ensures Steps(s, [a, b]) == Step(Step(s, a), b)
  {
    assert [a][..0] == [];
    assert Steps(s, [a]) == Step(s, a);
    assert [a, b][..1] == [a];
  }

  /**
   * From start-up: one click gives one point; the 50-point multiplier in
   * the first cell cannot be bought yet and nothing changes; after 49 more
   * spaced clicks it can, leaving a score of 0, two points per click, and a
   * raised cost of 75.
   */
  lemma FirstUpgradeExample(first: Event, buy1: Event, more: seq<Event>, buy2: Event)
    requires SpacedCatClicks([first], 0, 0)
    requires ShopCellPress(buy1, 0, 0) && ShopCellPress(buy2, 0, 0)
    requires |more| == 49 && SpacedCatClicks(more, first.now, 0)
    ensures
      var s1 := Steps(Initial(), [first]);
      var s2 := Step(s1, buy1);
      var s3 := Steps(s2, more);
      var s4 := Step(s3, buy2);
      && s1.clickCount == 1 && s2 == s1
      && s3.clickCount == 50
      && s4.clickCount == 0 && s4.pointsPerClick == 2 && s4.abilities[0].cost == 75
  {
    var s1 := Steps(Initial(), [first]);
    FirstClickFromStart(first);
    ShopCellPressIsPurchase(s1, buy1, 0);
    assert Step(s1, buy1) == s1;
    FiftiethPointBuys(s1, more, buy2);
  }

  lemma BuyFirstSeedOffer(s: State, extra: Option<OfferDraws>)
    requires Inv(s) && s.clickCount == 50 && s.pointsPerClick == 1
    requires s.abilities[0] == Offer("Pts Mult", 50, Multiplier, 1)
    ensures var t := Purchase(s, 0, extra);
      t.clickCount == 0 && t.pointsPerClick == 2 && t.abilities[0].cost == 75
  {
    var t := Purchase(s, 0, extra);
    assert t.abilities[0] == s.abilities[0].(cost := Raised(50));
  }

  lemma FiftiethPointBuys(s: State, more: seq<Event>, buy: Event)
    requires Inv(s) && s.clickCount == 1 && s.pointsPerClick == 1 && s.scrollY == 0
    requires s.abilities[0] == SeedCatalog()[0]
    requires |more| == 49 && SpacedCatClicks(more, s.lastClickTime, 0)
    requires ShopCellPress(buy, 0, 0)
    ensures Steps(s, more).clickCount == 50
    ensures var t := Step(Steps(s, more), buy);
      t.clickCount == 0 && t.pointsPerClick == 2 && t.abilities[0].cost == 75
  {
    var s3 := Steps(s, more);
    assert Inv(s3) && s3.clickCount == 50 && s3.pointsPerClick == 1 && s3.scrollY == 0
        && s3.abilities[0] == Offer("Pts Mult", 50, Multiplier, 1) by {
      SpacedClicksAllCount(s, more);
    }
    assert Step(s3, buy) == Purchase(s3, 0, buy.extra) by {
      ShopCellPressIsPurchase(s3, buy, 0);
    }
    BuyFirstSeedOffer(s3, buy.extra);
  }

  lemma FirstClickFromStart(first: Event)
    requires SpacedCatClicks([first], 0, 0)
    ensures var s1 := Steps(Initial(), [first]);
      && s1.clickCount == 1 && s1.pointsPerClick == 1 && s1.scrollY == 0
      && s1.lastClickTime == first.now && s1.abilities == SeedCatalog()
  {
    var s0 := Initial();
    assert Inv(s0) && s0.lastClickTime == 0 && s0.scrollY == 0;
    SpacedClicksAllCount(s0, [first]);
  }

  /** A second pointer-down on the cat within the cooldown adds nothing to the score. */
  lemma CooldownIgnoresSecondClick(s: State, first: Event, second: Event)
    requires Inv(s) && CatPress(first, s.scrollY) && CatPress(second, s.scrollY)
    requires first.now - s.lastClickTime > CLICK_COOLDOWN
    requires second.now - first.now <= CLICK_COOLDOWN
    ensures Steps(s, [first, second]).clickCount == s.clickCount + s.pointsPerClick
    ensures Steps(s, [first, second]) == Steps(s, [first])
  {
    StepsOfTwo(s, first, second);
    StepsOfOne(s, first);
    CatPressIsClick(s, first);
    PressWithinCooldownIgnored(Step(s, first), second);
  }

  /** Offers appended to the catalog can never be bought: their cost stays as generated. */
  lemma {:induction false} AppendedOffersNeverChange(s: State, frames: seq<seq<Event>>, i: nat)
    requires Inv(s) && MAX_ABILITIES <= i < |s.abilities|
    ensures i < |Play(s, frames).abilities| && Play(s, frames).abilities[i] == s.abilities[i]
  {
  }

  /** A frame whose events include a quit is the last frame the main loop runs. */
  lemma QuitEndsLoop(s: State, f: seq<Event>, rest: seq<seq<Event>>)
    requires Bounded(s) && s.running && Quit in f
    ensures Play(s, [f] + rest) == Frame(s, f)
  {
    assert ([f] + rest)[0] == f && ([f] + rest)[1..] == rest;
  }

  /** The last `HISTORY_LENGTH` entries of `h` (all of it when shorter). */
  function Recent(h: seq<nat>): (r: seq<nat>)
    ensures |r| == Min(|h|, HISTORY_LENGTH) && r == h[|h| - |r|..]
  {
    if |h| <= HISTORY_LENGTH then h else h[|h| - HISTORY_LENGTH..]
  }

  /** The sounds the taps of a spaced run choose, in order. */
  function Played(s: State, events: seq<Event>): (p: seq<nat>)
    requires Bounded(s) && SpacedCatClicks(events, s.lastClickTime, s.scrollY)
    ensures |p| == |events|
    decreases |events|
  {
    if events == [] then []
    else
      var prefix := events[..|events| - 1];
      Played(s, prefix) + [ChooseSound(Steps(s, prefix).lastSounds, events[|events| - 1].soundPick)]
  }

  /** Pushing onto the recent part of a history keeps the recent part of the longer history. */
  lemma PushRecent(h: seq<nat>, p: seq<nat>, x: nat)
    ensures PushHistory(Recent(h + p), x) == Recent(h + (p + [x]))
  {
    assert h + (p + [x]) == (h + p) + [x];
  }

  /** Each entry of `p` is missing from the recent part of `h` followed by the entries before it. */
  predicate FreshAfter(h: seq<nat>, p: seq<nat>) {
    forall i :: 0 <= i < |p| ==> p[i] !in Recent(h + p[..i])
  }

  lemma FreshAfterExtend(h: seq<nat>, p: seq<nat>, x: nat)
    requires FreshAfter(h, p) && x !in Recent(h + p)
    ensures FreshAfter(h, p + [x])
  {
    var q := p + [x];
    forall i | 0 <= i < |q|
      ensures q[i] !in Recent(h + q[..i])
    {
      if i < |p| {
        assert q[i] == p[i] && q[..i] == p[..i];
      } else {
        assert q[..i] == p;
      }
    }
  }

  /** Being fresh after the recent history rules out a repeat within three consecutive entries. */
  lemma FreshAfterNoRepeat(h: seq<nat>, p: seq<nat>)
    requires FreshAfter(h, p)
    ensures forall i, j :: 0 <= j < i < |p| && i - j <= HISTORY_LENGTH ==> p[i] != p[j]
  {
    forall i, j | 0 <= j < i < |p| && i - j <= HISTORY_LENGTH
      ensures p[i] != p[j]
    {
      var a := h + p[..i];
      var r := Recent(a);
      assert a[|h| + j] == p[j];
      assert r[|h| + j - (|a| - |r|)] == p[j];
    }
  }

  /**
   * Over a spaced run of taps on the cat the history holds exactly the last
   * two sounds played, and no tap plays a sound that is in the history
   * before it.
   */
  lemma {:induction false} SpacedClicksSoundHistory(s: State, events: seq<Event>)
    requires Inv(s) && SpacedCatClicks(events, s.lastClickTime, s.scrollY)
    ensures Steps(s, events).lastSounds == Recent(s.lastSounds + Played(s, events))
    ensures FreshAfter(s.lastSounds, Played(s, events))
    decreases |events|
  {
    if events != [] {
      var n := |events|;
      var prefix := events[..n - 1];
      SpacedClicksSoundHistory(s, prefix);
      SpacedClicksAllCount(s, prefix);
      var before := Steps(s, prefix);
      var e := events[n - 1];
      assert Steps(s, events) == Step(before, e);
      CatPressIsClick(before, e);
      var x := ChooseSound(before.lastSounds, e.soundPick);
      var p := Played(s, prefix);
      assert Played(s, events) == p + [x];
      PushRecent(s.lastSounds, p, x);
      FreshAfterExtend(s.lastSounds, p, x);
    }
  }

  /** Within a spaced run of taps, no sound is played twice within three taps in a row. */
  lemma SpacedClicksNoRepeat(s: State, events: seq<Event>)
    requires Inv(s) && SpacedCatClicks(events, s.lastClickTime, s.scrollY)
    ensures forall i, j :: 0 <= j < i < |events| && i - j <= HISTORY_LENGTH ==>
      Played(s, events)[i] != Played(s, events)[j]
  {
    SpacedClicksSoundHistory(s, events);
    FreshAfterNoRepeat(s.lastSounds, Played(s, events));
  }
}
