// The torpedo bookkeeping of the spaceship game's scene: a bounded stock of
// torpedoes that regenerates on a timer and is spent by taps, the shot and
// hit counters, and the classification of physics contacts by category mask.

module Spaceship {

  /** A physics body's category bit mask, an unsigned 32-bit value. */
  type Mask = m: int | 0 <= m < 0x1_0000_0000

  function Pow2(k: nat): (p: nat)
    ensures p >= 1
  {
    if k == 0 then 1 else 2 * Pow2(k - 1)
  }

  /** Whether bit `k` of `m` is set, i.e. `m & (1 << k) != 0`. */
  predicate HasBit(m: Mask, k: nat)
  {
    (m / Pow2(k)) % 2 == 1
  }

  /** Bit positions of the three kinds of physics body. */
  const PhotonTorpedoBit := 0
  const AlienBit := 1
  const SpaceshipBit := 2

  const PhotonTorpedoCategory: Mask := 1
  const AlienCategory: Mask := 2
  const SpaceshipCategory: Mask := 4

  lemma CategoriesAreSingleBits()
    ensures PhotonTorpedoCategory == Pow2(PhotonTorpedoBit)
    ensures AlienCategory == Pow2(AlienBit)
    ensures SpaceshipCategory == Pow2(SpaceshipBit)
  {
  }

  /** The stock a scene is created with before the game starts. */
  const DefaultMaximumTorpedos := 5

  datatype Level = Easy | Medium | Hard

  function Difficulty(level: Level): nat
  {
    match level
    case Easy => 0
    case Medium => 1
    case Hard => 2
  }

  /** Seconds between two torpedo regenerations: harder levels wait longer. */
  function RegenerationInterval(level: Level): (seconds: nat)
    ensures seconds == 5 * (Difficulty(level) + 1)
  {
    match level
    case Easy => 5
    case Medium => 10
    case Hard => 15
  }

  // ---------------------------------------------------------------------
  // Contacts

  datatype ContactKind = TorpedoHitsAlien | AlienHitsSpaceship | NoEffect

  /** The two bodies of a contact, the one with the smaller mask first. */
  function OrderedBodies(a: Mask, b: Mask): (pair: (Mask, Mask))
    ensures pair.0 <= pair.1
    ensures pair == (a, b) || pair == (b, a)
  {
    if a < b then (a, b) else (b, a)
  }

  /** What a contact between bodies of masks `a` and `b` does to the game. */
  function ClassifyContact(a: Mask, b: Mask): ContactKind
  {
    var (first, second) := OrderedBodies(a, b);
    if HasBit(first, PhotonTorpedoBit) && HasBit(second, AlienBit) then
      TorpedoHitsAlien
    else if HasBit(second, SpaceshipBit) && HasBit(first, AlienBit) then
      AlienHitsSpaceship
    else
      NoEffect
  }

  /** The classification does not depend on which body is reported first. */
  lemma ClassifyContactSymmetric(a: Mask, b: Mask)
    ensures ClassifyContact(a, b) == ClassifyContact(b, a)
  {
  }

  /** The contact table of the three categories the game uses. */
  lemma ContactTable()
    ensures ClassifyContact(PhotonTorpedoCategory, AlienCategory) == TorpedoHitsAlien
    ensures ClassifyContact(AlienCategory, PhotonTorpedoCategory) == TorpedoHitsAlien
    ensures ClassifyContact(SpaceshipCategory, AlienCategory) == AlienHitsSpaceship
    ensures ClassifyContact(AlienCategory, SpaceshipCategory) == AlienHitsSpaceship
    ensures ClassifyContact(PhotonTorpedoCategory, SpaceshipCategory) == NoEffect
    ensures ClassifyContact(AlienCategory, AlienCategory) == NoEffect
    ensures ClassifyContact(PhotonTorpedoCategory, PhotonTorpedoCategory) == NoEffect
  {
  }

  /** Points a contact scores: one per torpedo hit on an alien whose two nodes are sprites. */
  function ContactPoints(a: Mask, b: Mask, bothSprites: bool): (points: nat)
    ensures points <= 1
    ensures points == 1 <==> bothSprites && ClassifyContact(a, b) == TorpedoHitsAlien
  {
    if bothSprites && ClassifyContact(a, b) == TorpedoHitsAlien then 1 else 0
  }

  // ---------------------------------------------------------------------
  // The torpedo stock as a pure state machine

  /** What can happen to the stock: the regeneration timer fires, or the player taps. */
  datatype Event = Regenerate | Tap

  /** Torpedoes in stock and torpedoes fired so far. */
  datatype Arsenal = Arsenal(available: int, fired: int)

  function Step(s: Arsenal, maximum: int, e: Event): (r: Arsenal)
    ensures 0 <= s.available <= maximum ==> 0 <= r.available <= maximum
    ensures r.fired == s.fired || r.fired == s.fired + 1
  {
    match e
    case Regenerate =>
      if s.available < maximum then s.(available := s.available + 1) else s
    case Tap =>
      if s.available > 0 then Arsenal(s.available - 1, s.fired + 1) else s
  }

  function Replay(s: Arsenal, maximum: int, events: seq<Event>): Arsenal
    decreases |events|
  {
    if events == [] then s else Replay(Step(s, maximum, events[0]), maximum, events[1..])
  }

  function Regenerations(events: seq<Event>): (n: nat)
    ensures n <= |events|
  {
    if events == [] then 0
    else (if events[0] == Regenerate then 1 else 0) + Regenerations(events[1..])
  }

  /** Whatever happens, the stock stays within [0, maximum], and no more
      torpedoes are fired than were in stock plus those regenerated. */
  lemma {:induction false} ReplayStaysWithinCapacity(s: Arsenal, maximum: int, events: seq<Event>)
    requires 0 <= s.available <= maximum
    ensures 0 <= Replay(s, maximum, events).available <= maximum
    ensures s.fired <= Replay(s, maximum, events).fired
    ensures Replay(s, maximum, events).available + Replay(s, maximum, events).fired
            <= s.available + s.fired + Regenerations(events)
    ensures Replay(s, maximum, events).fired <= s.fired + s.available + Regenerations(events)
    decreases |events|
  {
    if events != [] {
      ReplayStaysWithinCapacity(Step(s, maximum, events[0]), maximum, events[1..]);
    }
  }

  function Repeat(e: Event, k: nat): (events: seq<Event>)
    ensures |events| == k
    ensures forall i :: 0 <= i < k ==> events[i] == e
  {
    if k == 0 then [] else [e] + Repeat(e, k - 1)
  }

  function Min(a: int, b: int): int
  {
    if a <= b then a else b
  }

  /** `k` regenerations refill the stock up to the maximum and fire nothing. */
  lemma {:induction false} RegenerationsRefill(s: Arsenal, maximum: int, k: nat)
    requires 0 <= s.available <= maximum
    ensures Replay(s, maximum, Repeat(Regenerate, k)) == s.(available := Min(s.available + k, maximum))
    decreases k
  {
    if k > 0 {
      var t := Step(s, maximum, Regenerate);
      assert Repeat(Regenerate, k)[1..] == Repeat(Regenerate, k - 1);
      RegenerationsRefill(t, maximum, k - 1);
    }
  }

  /** `k` taps fire as many torpedoes as are in stock, at most `k`. */
  lemma {:induction false} TapsFireWhatIsInStock(s: Arsenal, maximum: int, k: nat)
    requires 0 <= s.available
    ensures Replay(s, maximum, Repeat(Tap, k))
            == Arsenal(s.available - Min(k, s.available), s.fired + Min(k, s.available))
    decreases k
  {
    if k > 0 {
      var t := Step(s, maximum, Tap);
      assert Repeat(Tap, k)[1..] == Repeat(Tap, k - 1);
      TapsFireWhatIsInStock(t, maximum, k - 1);
    }
  }

  // ---------------------------------------------------------------------
  // The scene

  class GameScene {
    var levelSelected: Level
    var score: int
    var torpedoCount: int
    var numTorpedosAvailable: int
    var maximumNumberOfTorpedosAvailable: int

    predicate Valid()
      reads this
    {
      0 <= numTorpedosAvailable <= maximumNumberOfTorpedosAvailable
      && 0 <= score && 0 <= torpedoCount
    }

    /** The scene's torpedo stock as a value of the pure state machine. */
    function Stock(): Arsenal
      reads this
    {
      Arsenal(numTorpedosAvailable, torpedoCount)
    }

    constructor ()
      ensures Valid()
      ensures levelSelected == Easy
      ensures score == 0 && torpedoCount == 0 && numTorpedosAvailable == 0
      ensures maximumNumberOfTorpedosAvailable == DefaultMaximumTorpedos
    {
      levelSelected := Easy;
      score := 0;
      torpedoCount := 0;
      numTorpedosAvailable := 0;
      maximumNumberOfTorpedosAvailable := DefaultMaximumTorpedos;
    }

    /** Starting the game: the score is reset, the stock is full, and the
        regeneration interval of the chosen level is returned for the timer. */
    method DidMove(level: Level) returns (interval: nat)
      requires Valid()
      modifies this
      ensures Valid()
      ensures levelSelected == level
      ensures score == 0
      ensures numTorpedosAvailable == maximumNumberOfTorpedosAvailable
      ensures torpedoCount == old(torpedoCount)
      ensures maximumNumberOfTorpedosAvailable == old(maximumNumberOfTorpedosAvailable)
      ensures interval == RegenerationInterval(level)
    {
      levelSelected := level;
      score := 0;
      numTorpedosAvailable := maximumNumberOfTorpedosAvailable;
      match levelSelected
      case Easy => interval := 5;
      case Medium => interval := 10;
      case Hard => interval := 15;
    }

    /** The regeneration timer: one more torpedo unless the stock is full. */
    method AddTorpedo()
      requires Valid()
      modifies this
      ensures Valid()
      ensures Stock() == Step(old(Stock()), maximumNumberOfTorpedosAvailable, Regenerate)
      ensures numTorpedosAvailable == Min(old(numTorpedosAvailable) + 1, maximumNumberOfTorpedosAvailable)
      ensures unchanged(`score, `levelSelected, `maximumNumberOfTorpedosAvailable)
    {
      if numTorpedosAvailable < maximumNumberOfTorpedosAvailable {
        numTorpedosAvailable := numTorpedosAvailable + 1;
      }
    }

    /** A tap: fires a torpedo if one is in stock, otherwise nothing happens. */
    method FireTorpedo()
      requires Valid()
      modifies this
      ensures Valid()
      ensures Stock() == Step(old(Stock()), maximumNumberOfTorpedosAvailable, Tap)
      ensures old(numTorpedosAvailable) > 0 ==>
                numTorpedosAvailable == old(numTorpedosAvailable) - 1
                && torpedoCount == old(torpedoCount) + 1
      ensures old(numTorpedosAvailable) == 0 ==> unchanged(this)
      ensures unchanged(`score, `levelSelected, `maximumNumberOfTorpedosAvailable)
    {
      if numTorpedosAvailable > 0 {
        torpedoCount := torpedoCount + 1;
        numTorpedosAvailable := numTorpedosAvailable - 1;
      }
    }

    /** A torpedo destroys an alien: exactly one point. */
    method TorpedoDidCollideWithAlien()
      requires Valid()
      modifies this
      ensures Valid()
      ensures score == old(score) + 1
      ensures Stock() == old(Stock())
      ensures unchanged(`levelSelected, `maximumNumberOfTorpedosAvailable)
    {
      score := score + 1;
    }

    /** A physics contact between bodies of masks `maskA` and `maskB`;
        `bothSprites` says whether both nodes are sprite nodes. A torpedo hit
        scores; a collision of the spaceship with an alien ends the game,
        which is reported through `kind`. */
    method DidBegin(maskA: Mask, maskB: Mask, bothSprites: bool) returns (kind: ContactKind)
      requires Valid()
      modifies this
      ensures Valid()
      ensures kind == ClassifyContact(maskA, maskB)
      ensures score == old(score) + ContactPoints(maskA, maskB, bothSprites)
      ensures Stock() == old(Stock())
      ensures unchanged(`levelSelected, `maximumNumberOfTorpedosAvailable)
    {
      var first, second;
      if maskA < maskB {
        first, second := maskA, maskB;
      } else {
        first, second := maskB, maskA;
      }
      if HasBit(first, PhotonTorpedoBit) && HasBit(second, AlienBit) {
        kind := TorpedoHitsAlien;
        if bothSprites {
          TorpedoDidCollideWithAlien();
        }
      } else if HasBit(second, SpaceshipBit) && HasBit(first, AlienBit) {
        kind := AlienHitsSpaceship;
      } else {
        kind := NoEffect;
      }
    }
  }
}
