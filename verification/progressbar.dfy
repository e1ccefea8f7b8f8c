/**
 The ProgressBar component: its stored configuration, its two coloured
 blocks, the progress update, the re-layout on a geometry change, and the
 effect of a sequence of such events.
 */
module ProgressBar {
  import opened Layout
  import opened Progress

  /** A coloured 2D block owned by the bar. */
  datatype Block = Block(rect: Rect, color: string)

  /** The settings stored by the constructor method. */
  datatype Config = Config(maxValue: JsNumber, flip: bool, emptyColor: string, filledColor: string)

  /** A host entity that has the component but has not been configured yet. */
  datatype Pending = Pending(host: Rect, fraction: real)

  /** A configured progress bar: host geometry, settings, fraction and blocks. */
  datatype Bar = Bar(host: Rect, config: Config, fraction: real, lower: Block, higher: Block)

  /** Something the host delivers to the bar: a progress value or new geometry. */
  datatype Event = Progressed(val: JsNumber) | Changed(geometry: Rect)

  /** Adding the component: the fraction starts at 0. */
  function Init(host: Rect): Pending {
    Pending(host, 0.0)
  }

  /** The lower block carries the filled colour unless the direction is flipped. */
  function LowerColor(c: Config): string {
    if c.flip then c.emptyColor else c.filledColor
  }

  /** The higher block carries the empty colour unless the direction is flipped. */
  function HigherColor(c: Config): string {
    if c.flip then c.filledColor else c.emptyColor
  }

  /** The block that shows the filled part of the bar. */
  function FilledBlock(b: Bar): Block {
    if b.config.flip then b.higher else b.lower
  }

  /** The block that shows the empty part of the bar. */
  function EmptyBlock(b: Bar): Block {
    if b.config.flip then b.lower else b.higher
  }

  /** Places both blocks for the bar's current host geometry and fraction;
      the colours are left as they are. */
  function Relayout(b: Bar): Bar {
    var s := Cut(b.host, b.fraction);
    b.(lower := b.lower.(rect := s.lower), higher := b.higher.(rect := s.higher))
  }

  /** The constructor method: stores the settings, creates the two coloured
      blocks and lays them out with the fraction the entity already has. */
  function Configure(p: Pending, maxValue: JsNumber, flipDirection: bool,
                     emptyColor: string, filledColor: string): Bar
  {
    var c := Config(maxValue, flipDirection, emptyColor, filledColor);
    var s := Cut(p.host, p.fraction);
    Bar(p.host, c, p.fraction, Block(s.lower, LowerColor(c)), Block(s.higher, HigherColor(c)))
  }

  /**
   The bar's invariant: the fraction lies in [0, 1], the blocks are the cut
   of the host for that fraction, and the filled colour sits on the filled
   block and the empty colour on the empty one.
   */
  predicate Valid(b: Bar) {
    && 0.0 <= b.fraction <= 1.0
    && b.lower.rect == Cut(b.host, b.fraction).lower
    && b.higher.rect == Cut(b.host, b.fraction).higher
    && FilledBlock(b).color == b.config.filledColor
    && EmptyBlock(b).color == b.config.emptyColor
  }

  /**
   A progress update. A value the guard refuses leaves the bar exactly as it
   was; an accepted value stores the new fraction and re-lays the blocks,
   keeping host, settings and colours.
   */
  function Update(b: Bar, val: JsNumber): (r: Bar)
    ensures !Accepts(b.config.maxValue, val) ==> r == b
    ensures Accepts(b.config.maxValue, val) ==>
      && r.host == b.host && r.config == b.config
      && r.lower.color == b.lower.color && r.higher.color == b.higher.color
      && (if b.config.flip then 0.0 <= r.fraction < 1.0 else 0.0 < r.fraction <= 1.0)
      && r.fraction * b.config.maxValue.value ==
           (if b.config.flip then b.config.maxValue.value - val.value else val.value)
      && r.lower.rect == Cut(b.host, r.fraction).lower
      && r.higher.rect == Cut(b.host, r.fraction).higher
  {
    match NewFraction(b.config.maxValue, b.config.flip, val)
    case None => b
    case Some(f) => Relayout(b.(fraction := f))
  }

  /** A change of the host's geometry: the blocks are re-cut from the new
      host in proportion to the fraction; the fraction and the settings stay. */
  function Change(b: Bar, geometry: Rect): (r: Bar)
    ensures r.host == geometry && r.fraction == b.fraction && r.config == b.config
    ensures r.lower.color == b.lower.color && r.higher.color == b.higher.color
    ensures Tiles(geometry, Split(Cut(geometry, b.fraction).axis, r.lower.rect, r.higher.rect))
    ensures var a := Cut(geometry, b.fraction).axis;
      Extent(r.lower.rect, a) == Scale(Extent(geometry, a), b.fraction)
  {
    CutTiles(geometry, b.fraction);
    Relayout(b.(host := geometry))
  }

  /** Delivers one event: a progress value goes to the update, new geometry
      to the re-layout bound to the host's "Change" event. */
  function Dispatch(b: Bar, e: Event): Bar {
    match e
    case Progressed(val) => Update(b, val)
    case Changed(geometry) => Change(b, geometry)
  }

  /** The bar after the events are delivered in order. */
  function Run(b: Bar, events: seq<Event>): Bar
    decreases |events|
  {
    if |events| == 0 then b else Run(Dispatch(b, events[0]), events[1..])
  }

  /**
   Construction: the fraction is 0, the lower block has zero width at the
   host's origin and the higher block covers the whole host, whatever the
   host's shape. With a flipped direction that block is the filled one, so
   a freshly built flipped bar shows as full.
   */
  lemma ConfigureFresh(host: Rect, maxValue: JsNumber, flipDirection: bool,
                       emptyColor: string, filledColor: string)
    ensures var b := Configure(Init(host), maxValue, flipDirection, emptyColor, filledColor);
      && Valid(b)
      && b.fraction == 0.0
      && b.config == Config(maxValue, flipDirection, emptyColor, filledColor)
      && b.lower.rect == Rect(host.x, host.y, 0.0, host.h, host.z)
      && b.higher.rect == host
      && FilledBlock(b).rect == (if flipDirection then host else b.lower.rect)
  {}

  /** A valid bar's blocks tile its host along the axis chosen for its fraction,
      and no block has a negative size when the host has none. */
  lemma ValidBarTiles(b: Bar)
    requires Valid(b)
    ensures Tiles(b.host, Split(Cut(b.host, b.fraction).axis, b.lower.rect, b.higher.rect))
    ensures b.host.w >= 0.0 && b.host.h >= 0.0 ==>
      && b.lower.rect.w >= 0.0 && b.lower.rect.h >= 0.0
      && b.higher.rect.w >= 0.0 && b.higher.rect.h >= 0.0
  {
    CutTiles(b.host, b.fraction);
    if b.host.w >= 0.0 && b.host.h >= 0.0 {
      CutSizesNonNegative(b.host, b.fraction);
    }
  }

  /** An update keeps the invariant. */
  lemma UpdatePreservesValid(b: Bar, val: JsNumber)
    requires Valid(b)
    ensures Valid(Update(b, val))
  {}

  /** A geometry change keeps the invariant. */
  lemma ChangePreservesValid(b: Bar, geometry: Rect)
    requires Valid(b)
    ensures Valid(Change(b, geometry))
  {}

  /** Every sequence of events keeps the invariant. */
  lemma {:induction false} RunPreservesValid(b: Bar, events: seq<Event>)
    requires Valid(b)
    ensures Valid(Run(b, events))
    decreases |events|
  {
    if |events| > 0 {
      var next := Dispatch(b, events[0]);
      match events[0] {
        case Progressed(val) => UpdatePreservesValid(b, val);
        case Changed(geometry) => ChangePreservesValid(b, geometry);
      }
      RunPreservesValid(next, events[1..]);
    }
  }

  /** No event changes the stored settings (maximum, direction, colours). */
  lemma {:induction false} RunKeepsSettings(b: Bar, events: seq<Event>)
    ensures Run(b, events).config == b.config
    decreases |events|
  {
    if |events| > 0 {
      RunKeepsSettings(Dispatch(b, events[0]), events[1..]);
    }
  }

  /** Progress events that the guard refuses, however many, change nothing. */
  lemma {:induction false} RejectedRunChangesNothing(b: Bar, events: seq<Event>)
    requires forall i :: 0 <= i < |events| ==>
      events[i].Progressed? && !Accepts(b.config.maxValue, events[i].val)
    ensures Run(b, events) == b
    decreases |events|
  {
    if |events| > 0 {
      assert Dispatch(b, events[0]) == b;
      RejectedRunChangesNothing(b, events[1..]);
    }
  }

  /**
   The layout is a function of host geometry and fraction: two valid bars
   that agree on host, settings and fraction are the same bar.
   */
  lemma ValidDeterminedByHostAndFraction(b1: Bar, b2: Bar)
    requires Valid(b1) && Valid(b2)
    requires b1.host == b2.host && b1.config == b2.config && b1.fraction == b2.fraction
    ensures b1 == b2
  {}

  /** A geometry change to the geometry the bar already has is a no-op. */
  lemma ChangeToSameGeometryIsNoop(b: Bar)
    requires Valid(b)
    ensures Change(b, b.host) == b
  {}

  /** Delivering the same progress value twice has the effect of delivering it once. */
  lemma UpdateIdempotent(b: Bar, val: JsNumber)
    ensures Update(Update(b, val), val) == Update(b, val)
  {}

  /** Delivering the same geometry twice has the effect of delivering it once. */
  lemma ChangeIdempotent(b: Bar, geometry: Rect)
    ensures Change(Change(b, geometry), geometry) == Change(b, geometry)
  {}

  /**
   After an accepted update the filled block's extent along the split axis
   is the host's extent scaled by `val / maxValue`, in both directions: the
   flip mirrors which block is filled, not how much of the bar is filled.
   */
  lemma FilledExtentTracksValue(b: Bar, val: JsNumber)
    requires Valid(b)
    requires Accepts(b.config.maxValue, val)
    ensures var r := Update(b, val);
      var a := Cut(r.host, r.fraction).axis;
      Extent(FilledBlock(r).rect, a) * b.config.maxValue.value == Extent(r.host, a) * val.value
  {}

  /** The worked example: a 100 by 25 host at 40% gives a lower block 40 wide
      and a higher block 60 wide starting 40 to the right. */
  lemma WideHostAtFortyPercent(x: real, y: real, z: real, c: Config, lower: Block, higher: Block)
    requires c.maxValue == Num(100.0) && !c.flip
    ensures var r := Update(Bar(Rect(x, y, 100.0, 25.0, z), c, 0.0, lower, higher), Num(40.0));
      && r.fraction == 0.4
      && r.lower.rect == Rect(x, y, 40.0, 25.0, z)
      && r.higher.rect == Rect(x + 40.0, y, 60.0, 25.0, z)
  {}
}
