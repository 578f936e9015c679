/**
 * The two computations inside the tip screen: the rating shown for a tip
 * percentage (the `when (progress)` of `updateTipUI`) and the tip and total
 * shown for a bill text (the arithmetic of `computeTipAndTotal`).
 */
module TipEngine {
  import opened Wrappers

  /** The colour resources a rating is drawn in: R.color.tip_poor … R.color.tip_amazing. */
  datatype ColorRes = TipPoor | TipAcceptable | TipGood | TipGreat | TipAmazing

  /** What the rating line shows: its text and the colour of that text. */
  datatype TipRating = TipRating(description: string, color: ColorRes)

  /** The colour that goes with each rating text. */
  function ColorOf(description: string): (c: ColorRes)
  {
    if description == "Poor" then TipPoor
    else if description == "Acceptable" then TipAcceptable
    else if description == "Good" then TipGood
    else if description == "Great" then TipGreat
    else TipAmazing
  }

  /**
   * The rating of a tip percentage. Each text is shown exactly on its band,
   * every integer falls in one band (the last one catches negatives through
   * the `else`), and the colour always belongs to the text beside it.
   */
  function RatingFor(progress: int): (r: TipRating)
    ensures r.description == "Poor" <==> 0 <= progress <= 9
    ensures r.description == "Acceptable" <==> 10 <= progress <= 14
    ensures r.description == "Good" <==> 15 <= progress <= 19
    ensures r.description == "Great" <==> 20 <= progress <= 24
    ensures r.description == "Amazing" <==> progress < 0 || 25 <= progress
    ensures r.color == ColorOf(r.description)
  {
    if 0 <= progress <= 9 then TipRating("Poor", TipPoor)
    else if 10 <= progress <= 14 then TipRating("Acceptable", TipAcceptable)
    else if 15 <= progress <= 19 then TipRating("Good", TipGood)
    else if 20 <= progress <= 24 then TipRating("Great", TipGreat)
    else TipRating("Amazing", TipAmazing)
  }

  /** One bounded row of the rating table: an inclusive percent range and its rating. */
  datatype Band = Band(lo: int, hi: int, rating: TipRating)

  /** The bounded rows, lowest first; a percent in none of them is rated `Otherwise`. */
  const Bands: seq<Band> := [
    Band(0, 9, TipRating("Poor", TipPoor)),
    Band(10, 14, TipRating("Acceptable", TipAcceptable)),
    Band(15, 19, TipRating("Good", TipGood)),
    Band(20, 24, TipRating("Great", TipGreat))
  ]
  const Otherwise: TipRating := TipRating("Amazing", TipAmazing)

  /** Reference reading of a rating table: the rating of the first row that holds the percent. */
  function Lookup(table: seq<Band>, progress: int): (r: TipRating)
  {
    if table == [] then Otherwise
    else if table[0].lo <= progress <= table[0].hi then table[0].rating
    else Lookup(table[1..], progress)
  }

  /** The rows do not overlap, and each starts right after the previous one ends. */
  lemma BandsAreContiguous()
    ensures Bands[0].lo == 0
    ensures forall i :: 0 <= i < |Bands| ==> Bands[i].lo <= Bands[i].hi
    ensures forall i :: 0 < i < |Bands| ==> Bands[i].lo == Bands[i - 1].hi + 1
  {
  }

  /** The `when` agrees with the table, row by row, for every integer. */
  lemma RatingMatchesTable(progress: int)
    ensures RatingFor(progress) == Lookup(Bands, progress)
  {
    // Walk the table one row at a time, as Lookup does.
    var t1, t2, t3 := Bands[1..], Bands[2..], Bands[3..];
    assert t1[1..] == t2 && t2[1..] == t3 && t3[1..] == [];
    assert Lookup(t3, progress) == if 20 <= progress <= 24 then t3[0].rating else Otherwise;
    assert Lookup(t2, progress) == if 15 <= progress <= 19 then t2[0].rating else Lookup(t3, progress);
    assert Lookup(t1, progress) == if 10 <= progress <= 14 then t1[0].rating else Lookup(t2, progress);
  }

  /** The rating is one of the five table entries, and its text alone determines it. */
  lemma RatingIsOneOfFive(p: int, q: int)
    ensures RatingFor(p) in {Bands[0].rating, Bands[1].rating, Bands[2].rating, Bands[3].rating, Otherwise}
    ensures RatingFor(p).description == RatingFor(q).description ==> RatingFor(p) == RatingFor(q)
  {
  }

  /** The edge values of every band land as the table says. */
  lemma BoundaryValues()
    ensures RatingFor(0) == TipRating("Poor", TipPoor) && RatingFor(9) == TipRating("Poor", TipPoor)
    ensures RatingFor(10) == TipRating("Acceptable", TipAcceptable)
    ensures RatingFor(14) == TipRating("Acceptable", TipAcceptable)
    ensures RatingFor(15) == TipRating("Good", TipGood) && RatingFor(19) == TipRating("Good", TipGood)
    ensures RatingFor(20) == TipRating("Great", TipGreat) && RatingFor(24) == TipRating("Great", TipGreat)
    ensures RatingFor(25) == TipRating("Amazing", TipAmazing)
    ensures RatingFor(-1) == TipRating("Amazing", TipAmazing)
  {
  }

  /** Position of a rating in the order Poor < Acceptable < Good < Great < Amazing. */
  function Rank(r: TipRating): (n: nat)
  {
    match r.color
    case TipPoor => 0
    case TipAcceptable => 1
    case TipGood => 2
    case TipGreat => 3
    case TipAmazing => 4
  }

  /** On non-negative percents a larger tip never gets a lower rating. */
  lemma RatingIsMonotone(p: int, q: int)
    requires 0 <= p <= q
    ensures Rank(RatingFor(p)) <= Rank(RatingFor(q))
  {
  }

  /** The two amounts shown once a bill has been read. */
  datatype Amounts = Amounts(tip: real, total: real)

  /**
   * The tip is `percent` hundredths of the bill and the total is the bill
   * plus that tip, exactly (real arithmetic stands for Kotlin's Double).
   */
  function TipAndTotal(bill: real, percent: int): (r: Amounts)
    ensures r.tip * 100.0 == bill * percent as real
    ensures r.total * 100.0 == bill * (100 + percent) as real
    ensures r.total - r.tip == bill
  {
    var tip := bill * percent as real / 100.0;
    Amounts(tip, bill + tip)
  }

  /** With a non-negative bill and percent, the tip is not negative and the total is at least the bill. */
  lemma NonNegativeInputs(bill: real, percent: int)
    requires bill >= 0.0 && percent >= 0
    ensures TipAndTotal(bill, percent).tip >= 0.0
    ensures TipAndTotal(bill, percent).total >= bill
  {
  }

  /** A zero percent tip adds nothing. */
  lemma ZeroPercent(bill: real)
    ensures TipAndTotal(bill, 0) == Amounts(0.0, bill)
  {
  }

  /** For a non-negative bill, raising the percent never lowers the tip or the total. */
  lemma AmountsGrowWithPercent(bill: real, p: int, q: int)
    requires bill >= 0.0 && p <= q
    ensures TipAndTotal(bill, p).tip <= TipAndTotal(bill, q).tip
    ensures TipAndTotal(bill, p).total <= TipAndTotal(bill, q).total
  {
    var d := (q - p) as real;
    assert bill * d >= 0.0;
    assert bill * q as real == bill * p as real + bill * d;
  }

  /**
   * What `computeTipAndTotal` shows for the bill text and percent: `None`
   * (both fields cleared) for empty text, without consulting the parser, and
   * for text the parser rejects; otherwise the amounts of the parsed bill,
   * whatever its sign.
   */
  function ComputeTipAndTotal(billText: string, percent: int, parse: string -> Option<real>): (r: Option<Amounts>)
    ensures billText == [] ==> r == None
    ensures billText != [] ==> (r.None? <==> parse(billText).None?)
    ensures r.Some? ==> r.value == TipAndTotal(parse(billText).value, percent)
  {
    if billText == [] then None
    else match parse(billText)
      case None => None
      case Some(bill) => Some(TipAndTotal(bill, percent))
  }

  /** Empty text and rejected text are cleared alike. */
  lemma RejectedLooksLikeEmpty(billText: string, percent: int, parse: string -> Option<real>)
    requires parse(billText).None?
    ensures ComputeTipAndTotal(billText, percent, parse) == ComputeTipAndTotal("", percent, parse)
  {
  }

  /** For empty text the parser is never asked: any two parsers give the same (cleared) result. */
  lemma EmptyTextIgnoresParser(percent: int, parse: string -> Option<real>, other: string -> Option<real>)
    ensures ComputeTipAndTotal("", percent, parse) == ComputeTipAndTotal("", percent, other) == None
  {
  }

  /** A bill of 50.00 at 20 percent: rated "Great", tip 10, total 60. */
  lemma FiftyAtTwenty(parse: string -> Option<real>)
    requires parse("50.00") == Some(50.0)
    ensures RatingFor(20) == TipRating("Great", TipGreat)
    ensures ComputeTipAndTotal("50.00", 20, parse) == Some(Amounts(10.0, 60.0))
  {
  }
}
