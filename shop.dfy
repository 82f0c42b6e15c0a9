/**
 * The shop's data: upgrade offers, the nine seed offers the game starts with,
 * the cost increase applied after a purchase, and the generator of random
 * offers that a purchase may append to the catalog.
 */
module Shop {

  /** The two effects an offer can have. */
  datatype Kind = Multiplier | AutoClicker

  /** One purchasable upgrade; only `cost` ever changes after creation. */
  datatype Offer = Offer(name: string, cost: nat, kind: Kind, value: nat)

  /** The number of offers shown and hit-tested: a 3 by 3 grid. */
  const MAX_ABILITIES: nat := 9

  /** The catalog present at start-up, in display order. */
  function SeedCatalog(): (c: seq<Offer>)
    ensures |c| == MAX_ABILITIES
    ensures forall i :: 0 <= i < |c| ==> c[i].value >= 1
    ensures forall i :: 0 <= i < |c| ==> c[i].cost == 50 * (i + 1)
    ensures forall i :: 0 <= i < |c| ==> (c[i].kind == Multiplier <==> i % 2 == 0)
  {
    [ Offer("Pts Mult", 50, Multiplier, 1),
      Offer("Auto Click", 100, AutoClicker, 1),
      Offer("Pts Mult", 150, Multiplier, 2),
      Offer("Auto Click", 200, AutoClicker, 2),
      Offer("Pts Mult", 250, Multiplier, 3),
      Offer("Auto Click", 300, AutoClicker, 3),
      Offer("Pts Mult", 350, Multiplier, 4),
      Offer("Auto Click", 400, AutoClicker, 4),
      Offer("Pts Mult", 450, Multiplier, 5) ]
  }

  /**
   * The cost of an offer after it has been bought: one and a half times the
   * old cost, truncated to an integer.
   */
  function Raised(cost: nat): (r: nat)
    ensures 2 * r <= 3 * cost < 2 * r + 2
    ensures cost <= r
  {
    cost * 3 / 2
  }

  // ---------------------------------------------------------------------
  // Offer names: the label of the kind, " Lv" and the value in decimal.
  // ---------------------------------------------------------------------

  function KindLabel(kind: Kind): string {
    match kind
    case Multiplier => "Pts Mult"
    case AutoClicker => "Auto Click"
  }

  predicate IsDigit(c: char) {
    '0' <= c <= '9'
  }

  /** The decimal numeral of `n`, without leading zeros. */
  function Decimal(n: nat): (s: string)
    ensures |s| >= 1
    ensures forall i :: 0 <= i < |s| ==> IsDigit(s[i])
    ensures |s| > 1 ==> s[0] != '0'
    decreases n
  {
    if n < 10 then [('0' as int + n) as char]
    else Decimal(n / 10) + [('0' as int + n % 10) as char]
  }

  /** The number a string of decimal digits denotes; the inverse of `Decimal`. */
  function DecimalValue(s: string): nat
    requires forall i :: 0 <= i < |s| ==> IsDigit(s[i])
  {
    if s == [] then 0
    else
      assert IsDigit(s[|s| - 1]);
      DecimalValue(s[..|s| - 1]) * 10 + (s[|s| - 1] as int - '0' as int)
  }

  lemma {:induction false} DecimalRoundTrip(n: nat)
    ensures DecimalValue(Decimal(n)) == n
    decreases n
  {
    var s := Decimal(n);
    if n >= 10 {
      DecimalRoundTrip(n / 10);
      assert s[..|s| - 1] == Decimal(n / 10);
    }
  }

  /** The name a generated offer gets, e.g. "Pts Mult Lv2" or "Auto Click Lv5". */
  function LevelName(kind: Kind, value: nat): (name: string)
    ensures |name| > |KindLabel(kind)| + 3
    ensures name[..|KindLabel(kind)| + 3] == KindLabel(kind) + " Lv"
    ensures forall i :: |KindLabel(kind)| + 3 <= i < |name| ==> IsDigit(name[i])
    ensures DecimalValue(name[|KindLabel(kind)| + 3..]) == value
  {
    DecimalRoundTrip(value);
    var name := KindLabel(kind) + " Lv" + Decimal(value);
    assert name[|KindLabel(kind)| + 3..] == Decimal(value);
    name
  }

  /** A generated name determines the kind and the value it was built from. */
  lemma LevelNameInjective(k1: Kind, v1: nat, k2: Kind, v2: nat)
    requires LevelName(k1, v1) == LevelName(k2, v2)
    ensures k1 == k2 && v1 == v2
  {
    var n := LevelName(k1, v1);
    assert n[0] == KindLabel(k1)[0] && n[0] == KindLabel(k2)[0];
    assert k1 == k2;
    var p := |KindLabel(k1) + " Lv"|;
    assert n[p..] == Decimal(v1);
    assert n[p..] == Decimal(v2);
    DecimalRoundTrip(v1);
    DecimalRoundTrip(v2);
  }

  // ---------------------------------------------------------------------
  // The random offer generator.
  // ---------------------------------------------------------------------

  /** The largest value a generated offer of `kind` can have. */
  function MaxLevel(kind: Kind): nat {
    match kind
    case Multiplier => 3
    case AutoClicker => 5
  }

  /** The three random draws the generator makes: cost, kind, then value. */
  datatype Draws = Draws(cost: int, kind: Kind, value: int)

  /** The ranges the random source guarantees for each draw. */
  predicate InRange(d: Draws) {
    200 <= d.cost <= 500 && 1 <= d.value <= MaxLevel(d.kind)
  }

  type OfferDraws = d: Draws | InRange(d) witness Draws(200, Multiplier, 1)

  /** The offers the generator can produce. */
  predicate Generated(o: Offer) {
    && 200 <= o.cost <= 500
    && 1 <= o.value <= MaxLevel(o.kind)
    && o.name == LevelName(o.kind, o.value)
  }

  /** Builds a new offer from the draws. */
  function GenerateOffer(d: OfferDraws): (o: Offer)
    ensures Generated(o)
    ensures o.kind == d.kind && o.cost == d.cost && o.value == d.value
  {
    Offer(LevelName(d.kind, d.value), d.cost, d.kind, d.value)
  }

  /** Every offer within the generator's bounds is produced by some draws. */
  lemma GenerateOfferOnto(o: Offer)
    requires Generated(o)
    ensures exists d: OfferDraws :: GenerateOffer(d) == o
  {
    var d: OfferDraws := Draws(o.cost, o.kind, o.value);
    assert GenerateOffer(d) == o;
  }
}
