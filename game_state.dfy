/**
 * The game's state as a value and the effect of each input event on it.
 * These functions are the specification the imperative main loop
 * (module MainLoop) is proved against.
 */
module GameState {

  import opened Wrappers
  import opened Shop
  import opened Sounds
  import opened Geometry

  /** Minimum interval, in milliseconds, between two counted clicks. */
  const CLICK_COOLDOWN: int := 100

  datatype State = State(
    clickCount: int,        // the score
    pointsPerClick: int,
    autoClickerRate: int,   // tracked, never paid out
    lastClickTime: int,     // milliseconds
    lastSounds: seq<nat>,   // indices of the most recently played sounds
    abilities: seq<Offer>,  // the catalog, in display order
    scrollY: int,
    dragging: bool,
    dragOffset: int,
    running: bool)

  /**
   * One input event. A pointer-down carries the clock reading, the random
   * choice of sound and the outcome of the 50% draw for a new offer
   * (None when no offer is appended, otherwise the generator's draws).
   */
  datatype Event =
    | Quit
    | MouseDown(x: int, y: int, now: int, soundPick: nat, extra: Option<OfferDraws>)
    | MouseMotion(x: int, y: int)
    | MouseUp

  /** Two offers that differ at most in their cost. */
  predicate SameShape(a: Offer, b: Offer) {
    a.name == b.name && a.kind == b.kind && a.value == b.value
  }

  /** The invariant of every reachable state. */
  predicate Inv(s: State) {
    && s.clickCount >= 0
    && s.pointsPerClick >= 1
    && s.autoClickerRate >= 0
    && HistoryOk(s.lastSounds)
    && |s.abilities| >= MAX_ABILITIES
    && (forall i :: 0 <= i < MAX_ABILITIES ==> SameShape(s.abilities[i], SeedCatalog()[i]))
    && (forall i :: 0 <= i < |s.abilities| ==> s.abilities[i].value >= 1)
  }

  /**
   * The catalog of `t` extends that of `s`: entries keep their positions and
   * everything but their cost, and entries past the visible nine are untouched.
   */
  predicate Grown(s: State, t: State) {
    && |s.abilities| <= |t.abilities|
    && (forall i :: 0 <= i < |s.abilities| ==> SameShape(t.abilities[i], s.abilities[i]))
    && (forall i :: MAX_ABILITIES <= i < |s.abilities| ==> t.abilities[i] == s.abilities[i])
  }

  /** The loop-level fields that the economy never touches. */
  predicate SameView(s: State, t: State) {
    t.scrollY == s.scrollY && t.dragging == s.dragging && t.dragOffset == s.dragOffset && t.running == s.running
  }

  lemma GrownTransitive(s: State, t: State, u: State)
    requires Grown(s, t) && Grown(t, u)
    ensures Grown(s, u)
  {
  }

  /** The state at start-up. */
  function Initial(): (s: State)
    ensures Inv(s) && s.running && !s.dragging
    ensures s.clickCount == 0 && s.pointsPerClick == 1 && s.autoClickerRate == 0
    ensures s.abilities == SeedCatalog() && s.lastSounds == [] && s.scrollY == 0
    ensures s.lastClickTime == 0 && s.dragOffset == 0
  {
    State(0, 1, 0, 0, [], SeedCatalog(), 0, false, 0, true)
  }

  /**
   * The one thing the event handlers need of a state: a history short
   * enough that some sound is always left to choose.
   */
  predicate Bounded(s: State) {
    |s.lastSounds| <= HISTORY_LENGTH
  }

  /** How many catalog entries the shop shows and hit-tests. */
  function VisibleCount(s: State): (n: nat)
    ensures n <= MAX_ABILITIES && n <= |s.abilities|
    ensures Inv(s) ==> n == MAX_ABILITIES
  {
    Min(|s.abilities|, MAX_ABILITIES)
  }

  /** A pointer-down on the cat image at time `now`. */
  function Click(s: State, now: int, soundPick: nat): (t: State)
    requires Bounded(s)
    ensures Bounded(t) && (Inv(s) ==> Inv(t))
    ensures now - s.lastClickTime <= CLICK_COOLDOWN ==> t == s
    ensures now - s.lastClickTime > CLICK_COOLDOWN ==>
      && t.clickCount == s.clickCount + s.pointsPerClick
      && t.lastClickTime == now
      && |t.lastSounds| >= 1
      && t.lastSounds[|t.lastSounds| - 1] < SOUND_COUNT
      && t.lastSounds[|t.lastSounds| - 1] !in s.lastSounds
      && t.lastSounds == PushHistory(s.lastSounds, ChooseSound(s.lastSounds, soundPick))
      && t.(clickCount := s.clickCount, lastClickTime := s.lastClickTime, lastSounds := s.lastSounds) == s
  {
    if now - s.lastClickTime > CLICK_COOLDOWN then
      var next := ChooseSound(s.lastSounds, soundPick);
      s.(clickCount := s.clickCount + s.pointsPerClick,
         lastSounds := PushHistory(s.lastSounds, next),
         lastClickTime := now)
    else s
  }

  /** Buys offer `idx` if the score covers its cost; otherwise nothing changes. */
  function Purchase(s: State, idx: nat, extra: Option<OfferDraws>): (t: State)
    requires idx < VisibleCount(s)
    ensures (Inv(s) ==> Inv(t)) && Grown(s, t)
    ensures s.clickCount < s.abilities[idx].cost ==> t == s
    ensures s.clickCount >= s.abilities[idx].cost ==>
      var o := s.abilities[idx];
      && t.clickCount == s.clickCount - o.cost
      && t.pointsPerClick == s.pointsPerClick + (if o.kind == Multiplier then o.value else 0)
      && t.autoClickerRate == s.autoClickerRate + (if o.kind == AutoClicker then o.value else 0)
      && t.abilities[idx] == o.(cost := Raised(o.cost))
      && (forall i :: 0 <= i < |s.abilities| && i != idx ==> t.abilities[i] == s.abilities[i])
      && |t.abilities| == |s.abilities| + (if extra.Some? then 1 else 0)
      && (extra.Some? ==> t.abilities[|s.abilities|] == GenerateOffer(extra.value))
      && t.(clickCount := s.clickCount, pointsPerClick := s.pointsPerClick,
            autoClickerRate := s.autoClickerRate, abilities := s.abilities) == s
  {
    var o := s.abilities[idx];
    if s.clickCount >= o.cost then
      var bought := s.abilities[idx := o.(cost := Raised(o.cost))];
      s.(clickCount := s.clickCount - o.cost,
         pointsPerClick := if o.kind == Multiplier then s.pointsPerClick + o.value else s.pointsPerClick,
         autoClickerRate := if o.kind == AutoClicker then s.autoClickerRate + o.value else s.autoClickerRate,
         abilities := if extra.Some? then bought + [GenerateOffer(extra.value)] else bought)
    else s
  }

  /** Hit-tests cell `idx` against the point and buys it when hit. */
  function CellPress(s: State, x: int, y: int, extra: Option<OfferDraws>, idx: nat): (t: State)
    requires idx < VisibleCount(s)
    ensures (Inv(s) ==> Inv(t)) && Grown(s, t)
    ensures t.lastClickTime == s.lastClickTime && t.lastSounds == s.lastSounds
    ensures SameView(s, t)
  {
    if Contains(CellRect(idx, s.scrollY), x, y) then Purchase(s, idx, extra) else s
  }

  /** The state after the shop loop has looked at cells 0 .. k - 1. */
  function ShopScan(s: State, x: int, y: int, extra: Option<OfferDraws>, k: nat): (t: State)
    requires k <= VisibleCount(s)
    ensures (Inv(s) ==> Inv(t)) && Grown(s, t)
    ensures t.lastClickTime == s.lastClickTime && t.lastSounds == s.lastSounds
    ensures SameView(s, t)
    decreases k
  {
    if k == 0 then s
    else CellPress(ShopScan(s, x, y, extra, k - 1), x, y, extra, k - 1)
  }

  /** The shop's reaction to a pointer-down at (x, y). */
  function ShopPress(s: State, x: int, y: int, extra: Option<OfferDraws>): (t: State)
    ensures (Inv(s) ==> Inv(t)) && Grown(s, t) && SameView(s, t)
    ensures t == match CellAt(x, y, s.scrollY)
      case Some(i) => if i < VisibleCount(s) then Purchase(s, i, extra) else s
      case None => s
  {
    ShopScanBuysAtMostOne(s, x, y, extra, VisibleCount(s));
    ShopScan(s, x, y, extra, VisibleCount(s))
  }

  /**
   * One pointer-down buys at most one offer: the scan over the first k cells
   * equals a single purchase of the cell under the point, if that cell is
   * among them, and no change otherwise.
   */
  lemma {:induction false} ShopScanBuysAtMostOne(s: State, x: int, y: int, extra: Option<OfferDraws>, k: nat)
    requires k <= VisibleCount(s)
    ensures ShopScan(s, x, y, extra, k) ==
      match CellAt(x, y, s.scrollY)
      case Some(i) => if i < k then Purchase(s, i, extra) else s
      case None => s
    decreases k
  {
    if k > 0 {
      ShopScanBuysAtMostOne(s, x, y, extra, k - 1);
      CellAtExact(k - 1, s.scrollY, x, y);
    }
  }

  /** A pointer-down: a click on the cat (subject to the cooldown), then the shop. */
  function MouseDownStep(s: State, x: int, y: int, now: int, soundPick: nat, extra: Option<OfferDraws>): (t: State)
    requires Bounded(s)
    ensures Bounded(t) && (Inv(s) ==> Inv(t)) && Grown(s, t) && SameView(s, t)
    ensures !Contains(ImageRect(), x, y) || now - s.lastClickTime <= CLICK_COOLDOWN ==>
      t == ShopPress(s, x, y, extra)
  {
    var clicked := if Contains(ImageRect(), x, y) then Click(s, now, soundPick) else s;
    ShopPress(clicked, x, y, extra)
  }

  /** The effect of one event. */
  function Step(s: State, e: Event): (t: State)
    requires Bounded(s)
    ensures Bounded(t) && (Inv(s) ==> Inv(t)) && Grown(s, t)
    ensures t.dragging == (s.dragging && !e.MouseUp?)
    ensures !e.MouseMotion? ==> t.scrollY == s.scrollY
    ensures e.MouseMotion? && !s.dragging ==> t == s
    ensures e.Quit? ==> t == s.(running := false)
    ensures !e.Quit? ==> t.running == s.running
  {
    match e
    case Quit => s.(running := false)
    case MouseDown(x, y, now, soundPick, extra) => MouseDownStep(s, x, y, now, soundPick, extra)
    case MouseMotion(x, y) => if s.dragging then s.(scrollY := s.dragOffset - y) else s
    case MouseUp =>
      s.(dragging := false)
  }

  /** The effect of a sequence of events, handled in arrival order. */
  function Steps(s: State, events: seq<Event>): (t: State)
    requires Bounded(s)
    ensures Bounded(t) && (Inv(s) ==> Inv(t)) && Grown(s, t)
    ensures !s.dragging ==> !t.dragging && t.scrollY == s.scrollY
    ensures Quit in events ==> !t.running
    ensures Quit !in events ==> t.running == s.running
    decreases |events|
  {
    if events == [] then s
    else
      var before := Steps(s, events[..|events| - 1]);
      var t := Step(before, events[|events| - 1]);
      GrownTransitive(s, before, t);
      assert events == events[..|events| - 1] + [events[|events| - 1]];
      t
  }

  /** One frame: the frame's events, then the scroll clamp. */
  function Frame(s: State, events: seq<Event>): (t: State)
    requires Bounded(s)
    ensures Bounded(t) && (Inv(s) ==> Inv(t)) && Grown(s, t)
    ensures !s.dragging ==> !t.dragging
    ensures t.scrollY == 0
    ensures Quit in events ==> !t.running
    ensures Quit !in events ==> t.running == s.running
  {
    var u := Steps(s, events);
    u.(scrollY := ClampedScroll(u.scrollY))
  }

  /** The main loop: frames run while no quit event has been seen. */
  function Play(s: State, frames: seq<seq<Event>>): (t: State)
    requires Bounded(s)
    ensures Bounded(t) && (Inv(s) ==> Inv(t)) && Grown(s, t)
    ensures !s.dragging ==> !t.dragging
    ensures frames != [] && s.running ==> t.scrollY == 0
    ensures !s.running ==> t == s
    ensures t.running ==> forall i :: 0 <= i < |frames| ==> Quit !in frames[i]
    decreases |frames|
  {
    if frames == [] || !s.running then s
    else
      var next := Frame(s, frames[0]);
      var t := Play(next, frames[1..]);
      GrownTransitive(s, next, t);
      t
  }
}
