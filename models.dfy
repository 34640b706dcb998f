/** The records and enumerations of the market analyzer, and the in-memory
    store that stands in for its relational database.  Every entity is kept in
    an arena (a sequence) and is identified by its index in that arena. */
module Models {

  datatype Option<+T> = None | Some(value: T)

  datatype Result<+T> = Ok(value: T) | Err(message: string)

  /** The fixed ladder of candle widths, finest first. */
  datatype Timeframe = M1 | M5 | M15 | M30 | H1 | H4

  /** The timeframes on which patterns and gaps are analysed. */
  type AnalysisTimeframe = tf: Timeframe | tf.M5? || tf.M15? || tf.M30? || tf.H1? witness M5

  datatype PatternKind = HH | HL | LH | LL | BOS | CHoCH

  datatype ValidationStatus = Valid | Invalid | Pending

  datatype TradeStatus = Open | Executed | Canceled | Win | Loss
  // `Open` is the source's PENDING trade status (renamed to keep it apart from ValidationStatus.Pending)

  /** The string code each timeframe is stored and requested under. */
  function Name(tf: Timeframe): string
  {
    match tf
    case M1 => "1m"
    case M5 => "5m"
    case M15 => "15m"
    case M30 => "30m"
    case H1 => "1H"
    case H4 => "4H"
  }

  /** Any string outside the ladder names no timeframe. */
  function ParseTimeframe(s: string): (r: Option<Timeframe>)
    ensures r.Some? ==> Name(r.value) == s
    ensures (exists tf :: Name(tf) == s) ==> r.Some?
  {
    if s == "1m" then Some(M1)
    else if s == "5m" then Some(M5)
    else if s == "15m" then Some(M15)
    else if s == "30m" then Some(M30)
    else if s == "1H" then Some(H1)
    else if s == "4H" then Some(H4)
    else None
  }

  /** Every timeframe's code parses back to it. */
  lemma NameRoundTrip(tf: Timeframe)
    ensures ParseTimeframe(Name(tf)) == Some(tf)
  {
    match tf
    case M1 =>
    case M5 =>
    case M15 =>
    case M30 =>
    case H1 =>
    case H4 =>
  }

  /** The lookup the analysis services make: only 5m, 15m, 30m and 1H are accepted. */
  function ParseAnalysis(s: string): (r: Option<AnalysisTimeframe>)
    ensures r.Some? <==> ParseTimeframe(s).Some? && !ParseTimeframe(s).value.M1? && !ParseTimeframe(s).value.H4?
    ensures r.Some? ==> Name(r.value) == s
  {
    match ParseTimeframe(s)
    case Some(tf) => if tf.M1? || tf.H4? then None else Some(tf)
    case None => None
  }

  /** Bucket width in minutes (get_timeframe_minutes). */
  function Minutes(tf: Timeframe): (m: nat)
    ensures m >= 1
  {
    match tf
    case M1 => 1
    case M5 => 5
    case M15 => 15
    case M30 => 30
    case H1 => 60
    case H4 => 240
  }

  /** Position on the ladder; Minutes is strictly monotone in it. */
  function Rank(tf: Timeframe): (r: nat)
    ensures r <= 5
  {
    match tf
    case M1 => 0
    case M5 => 1
    case M15 => 2
    case M30 => 3
    case H1 => 4
    case H4 => 5
  }

  /** The next coarser timeframe; the 4H root has none. */
  function Next(tf: Timeframe): (r: Option<Timeframe>)
    ensures r.Some? <==> !tf.H4?
    ensures r.Some? ==> Rank(r.value) == Rank(tf) + 1
  {
    match tf
    case M1 => Some(M5)
    case M5 => Some(M15)
    case M15 => Some(M30)
    case M30 => Some(H1)
    case H1 => Some(H4)
    case H4 => None
  }

  datatype Candle = Candle(
    symbol: string,
    tf: Timeframe,
    open: real,
    high: real,
    low: real,
    close: real,
    volume: nat,
    ts: int,                 // seconds
    parent: Option<nat>)     // id of the covering candle one rung up

  datatype Pattern = Pattern(candle: nat, kind: PatternKind, tf: AnalysisTimeframe, status: ValidationStatus)

  datatype Gap = Gap(
    pattern: nat,
    startCandle: nat,
    endCandle: nat,
    startPrice: real,
    endPrice: real,
    fill: real,
    tf: AnalysisTimeframe)

  datatype Opportunity = Opportunity(
    choch: nat,
    gap: nat,
    entry: real,
    stop: real,
    target: real,
    status: TradeStatus)

  /** Every reference held by a candle points into the candle arena. */
  ghost predicate CandlesWellFormed(cs: seq<Candle>)
  {
    forall i :: 0 <= i < |cs| && cs[i].parent.Some? ==> cs[i].parent.value < |cs|
  }

  ghost predicate PatternsWellFormed(cs: seq<Candle>, ps: seq<Pattern>)
  {
    forall k :: 0 <= k < |ps| ==> ps[k].candle < |cs|
  }

  ghost predicate GapsWellFormed(cs: seq<Candle>, ps: seq<Pattern>, gs: seq<Gap>)
  {
    forall k :: 0 <= k < |gs| ==>
      gs[k].pattern < |ps| && gs[k].startCandle < |cs| && gs[k].endCandle < |cs|
  }

  ghost predicate TradesWellFormed(ps: seq<Pattern>, gs: seq<Gap>, ts: seq<Opportunity>)
  {
    forall k :: 0 <= k < |ts| ==> ts[k].choch < |ps| && ts[k].gap < |gs|
  }

  /** The keyed store: candles, patterns, gaps and trade opportunities. */
  class Database {
    var candles: seq<Candle>
    var patterns: seq<Pattern>
    var gaps: seq<Gap>
    var trades: seq<Opportunity>

    ghost predicate Valid()
      reads this
    {
      && CandlesWellFormed(candles)
      && PatternsWellFormed(candles, patterns)
      && GapsWellFormed(candles, patterns, gaps)
      && TradesWellFormed(patterns, gaps, trades)
    }

    constructor ()
      ensures Valid()
      ensures candles == [] && patterns == [] && gaps == [] && trades == []
    {
      candles, patterns, gaps, trades := [], [], [], [];
    }
  }
}
