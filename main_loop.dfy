/**
 * The game loop as the program runs it: one object whose fields are the
 * program's globals, updated step by step by the event handlers. Each
 * method is proved to have exactly the effect the corresponding function
 * of module GameState describes.
 */
module MainLoop {

  import opened Wrappers
  import opened Shop
  import opened Sounds
  import opened Geometry
  import opened GameState

  class Game {
    var clickCount: int
    var pointsPerClick: int
    var autoClickerRate: int
    var lastClickTime: int
    var lastSounds: seq<nat>
    var abilities: seq<Offer>
    var scrollY: int
    var dragging: bool
    var dragOffset: int
    var running: bool

    /** The current values of all fields, as one state value. */
    function Snapshot(): State
      reads this
    {
      State(clickCount, pointsPerClick, autoClickerRate, lastClickTime, lastSounds,
            abilities, scrollY, dragging, dragOffset, running)
    }

    ghost predicate Valid()
      reads this
    {
      Inv(Snapshot())
    }

    /** The globals as the program initialises them. */
    constructor ()
      ensures Valid() && Snapshot() == Initial()
    {
      clickCount := 0;
      pointsPerClick := 1;
      autoClickerRate := 0;
      lastClickTime := 0;
      lastSounds := [];
      abilities := SeedCatalog();
      scrollY := 0;
      dragging := false;
      dragOffset := 0;
      running := true;
    }

    /** A pointer-down on the cat image at time `now`: counted unless within the cooldown. */
    method RegisterClick(now: int, soundPick: nat)
      requires Valid()
      modifies this
      ensures Valid()
      ensures Snapshot() == Click(old(Snapshot()), now, soundPick)
      ensures old(now - lastClickTime) > CLICK_COOLDOWN ==>
        clickCount == old(clickCount) + pointsPerClick && lastClickTime == now
      ensures old(now - lastClickTime) <= CLICK_COOLDOWN ==> unchanged(this)
    {
      ghost var before := Snapshot();
      if now - lastClickTime > CLICK_COOLDOWN {
        ghost var history := lastSounds;
        clickCount := clickCount + pointsPerClick;
        CandidatesNonEmpty(lastSounds);
        var candidates := Candidates(SOUND_COUNT, lastSounds);
        var next := candidates[soundPick % |candidates|];
        assert next == ChooseSound(history, soundPick);
        lastSounds := lastSounds + [next];
        if |lastSounds| > HISTORY_LENGTH {
          lastSounds := lastSounds[1..];
        }
        assert lastSounds == PushHistory(history, next);
        lastClickTime := now;
        assert Snapshot() == Click(before, now, soundPick);
      }
    }

    /** Buys offer `idx` if the score covers its cost; reports whether it did. */
    method TryPurchase(idx: nat, extra: Option<OfferDraws>) returns (bought: bool)
      requires Valid() && idx < MAX_ABILITIES
      modifies this
      ensures Valid()
      ensures Snapshot() == Purchase(old(Snapshot()), idx, extra)
      ensures bought <==> old(clickCount) >= old(abilities[idx].cost)
      ensures !bought ==> unchanged(this)
    {
      ghost var before := Snapshot();
      var ability := abilities[idx];
      bought := clickCount >= ability.cost;
      if bought {
        clickCount := clickCount - ability.cost;
        match ability.kind {
          case Multiplier => pointsPerClick := pointsPerClick + ability.value;
          case AutoClicker => autoClickerRate := autoClickerRate + ability.value;
        }
        abilities := abilities[idx := ability.(cost := Raised(ability.cost))];
        if extra.Some? {
          abilities := abilities + [GenerateOffer(extra.value)];
        }
      }
      assert Snapshot() == Purchase(before, idx, extra);
    }

    /** The shop loop: every visible cell under the point is bought if affordable. */
    method PressShop(x: int, y: int, extra: Option<OfferDraws>)
      requires Valid()
      modifies this
      ensures Valid()
      ensures Snapshot() == ShopPress(old(Snapshot()), x, y, extra)
    {
      ghost var start := Snapshot();
      var visible := if |abilities| < MAX_ABILITIES then |abilities| else MAX_ABILITIES;
      assert visible == VisibleCount(start);
      for idx := 0 to visible
        invariant Valid()
        invariant Snapshot() == ShopScan(start, x, y, extra, idx)
      {
        if Contains(CellRect(idx, scrollY), x, y) {
          var _ := TryPurchase(idx, extra);
        }
      }
    }

    /** A pointer-down at (x, y): the cat image first, then the shop. */
    method HandleMouseDown(x: int, y: int, now: int, soundPick: nat, extra: Option<OfferDraws>)
      requires Valid()
      modifies this
      ensures Valid()
      ensures Snapshot() == MouseDownStep(old(Snapshot()), x, y, now, soundPick, extra)
    {
      if Contains(ImageRect(), x, y) {
        RegisterClick(now, soundPick);
      }
      PressShop(x, y, extra);
    }

    /** Pointer movement scrolls the shop only while dragging. */
    method HandleMotion(x: int, y: int)
      requires Valid()
      modifies this
      ensures Valid()
      ensures Snapshot() == Step(old(Snapshot()), MouseMotion(x, y))
    {
      if dragging {
        scrollY := dragOffset - y;
      }
    }

    method HandleMouseUp()
      requires Valid()
      modifies this
      ensures Valid()
      ensures Snapshot() == Step(old(Snapshot()), MouseUp)
    {
      dragging := false;
    }

    /** Dispatches one event to its handler. */
    method HandleEvent(e: Event)
      requires Valid()
      modifies this
      ensures Valid()
      ensures Snapshot() == Step(old(Snapshot()), e)
    {
      match e {
        case Quit => running := false;
        case MouseDown(x, y, now, soundPick, extra) => HandleMouseDown(x, y, now, soundPick, extra);
        case MouseMotion(x, y) => HandleMotion(x, y);
        case MouseUp => HandleMouseUp();
      }
    }

    /** The per-frame scroll limit. */
    method ClampScroll()
      requires Valid()
      modifies this
      ensures Valid()
      ensures Snapshot() == old(Snapshot()).(scrollY := ClampedScroll(old(scrollY)))
      ensures scrollY == 0
    {
      scrollY := Max(0, Min(scrollY, ScrollLimit()));
    }

    /** One frame: every pending event in arrival order, then the clamp. */
    method RunFrame(events: seq<Event>)
      requires Valid()
      modifies this
      ensures Valid()
      ensures Snapshot() == Frame(old(Snapshot()), events)
    {
      ghost var start := Snapshot();
      for i := 0 to |events|
        invariant Valid()
        invariant Snapshot() == Steps(start, events[..i])
      {
        assert events[..i + 1][..i] == events[..i];
        HandleEvent(events[i]);
      }
      assert events[..|events|] == events;
      ClampScroll();
    }

    /** The main loop: frames run until a quit event has been handled. */
    method Run(frames: seq<seq<Event>>)
      requires Valid()
      modifies this
      ensures Valid()
      ensures Snapshot() == Play(old(Snapshot()), frames)
    {
      var i := 0;
      while running && i < |frames|
        invariant 0 <= i <= |frames|
        invariant Valid()
        invariant Play(old(Snapshot()), frames) == Play(Snapshot(), frames[i..])
      {
        assert frames[i..][1..] == frames[i + 1..];
        RunFrame(frames[i]);
        i := i + 1;
      }
    }
  }
}
