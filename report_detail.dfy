/**
 * The report page's colour and wording for a credit score, and the colour it gives an account's overdue
 * amount.
 */
module ReportDetail {

  /** The five bands the page sorts a score into, best first. */
  datatype Band = Excellent | VeryGood | Good | Fair | Poor

  /** Position of a band from the top: Excellent is 0, Poor is 4. */
  function Rank(b: Band): nat
  {
    match b
    case Excellent => 0
    case VeryGood => 1
    case Good => 2
    case Fair => 3
    case Poor => 4
  }

  /** The band a score falls in: the thresholds 750, 700, 650 and 600 each open a band and belong to it. */
  function BandOf(score: real): (b: Band)
    ensures b == Excellent <==> score >= 750.0
    ensures b == VeryGood <==> 700.0 <= score < 750.0
    ensures b == Good <==> 650.0 <= score < 700.0
    ensures b == Fair <==> 600.0 <= score < 650.0
    ensures b == Poor <==> score < 600.0
  {
    if score >= 750.0 then Excellent
    else if score >= 700.0 then VeryGood
    else if score >= 650.0 then Good
    else if score >= 600.0 then Fair
    else Poor
  }

  function BandColor(b: Band): string
  {
    match b
    case Excellent => "#4caf50"
    case VeryGood => "#8bc34a"
    case Good => "#ffc107"
    case Fair => "#ff9800"
    case Poor => "#f44336"
  }

  /** The word the text opens with. */
  function Rating(b: Band): (word: string)
    ensures word != [] && word[0] == Initial(b)
  {
    match b
    case Excellent => "Excellent"
    case VeryGood => "Very good"
    case Good => "Good"
    case Fair => "Fair"
    case Poor => "Poor"
  }

  /** What the text goes on to say about borrowing. */
  function Advice(b: Band): string
  {
    match b
    case Excellent => "You're likely to receive the best rates and terms on credit products."
    case VeryGood => "You should receive above-average rates from lenders."
    case Good => "You may qualify for loans with reasonable rates."
    case Fair => "You may face higher interest rates or may need to work on improving your score."
    case Poor => "You may have difficulty getting approved for credit or face very high interest rates."
  }

  function BandText(b: Band): (text: string)
    ensures text != [] && text[0] == Initial(b)
    ensures var word := Rating(b);
            |text| >= |word| + 15 && text[..|word|] == word && text[|word|..|word| + 15] == " credit score. "
  {
    Pieces(Rating(b), " credit score. ", Advice(b));
    Rating(b) + " credit score. " + Advice(b)
  }

  /** Where the pieces of a concatenation sit in it. */
  lemma Pieces(a: string, m: string, c: string)
    ensures |a + m + c| == |a| + |m| + |c|
    ensures (a + m + c)[..|a|] == a && (a + m + c)[|a|..|a| + |m|] == m
  {
  }

  /** `getCreditScoreColor`: the colour of the score's band. */
  function ScoreColor(score: real): (color: string)
    ensures color == "#4caf50" <==> score >= 750.0
    ensures color == "#f44336" <==> score < 600.0
    ensures 700.0 <= score < 750.0 ==> color == "#8bc34a"
    ensures 650.0 <= score < 700.0 ==> color == "#ffc107"
    ensures 600.0 <= score < 650.0 ==> color == "#ff9800"
  {
    BandColorsDistinct(BandOf(score), Excellent);
    BandColorsDistinct(BandOf(score), Poor);
    BandColor(BandOf(score))
  }

  /** `getCreditScoreText`: the wording of the score's band. */
  function ScoreText(score: real): (text: string)
    ensures text != []
    ensures text[0] == 'E' <==> score >= 750.0
    ensures text[0] == 'P' <==> score < 600.0
    ensures var word := Rating(BandOf(score));
            |text| >= |word| + 15 && text[..|word|] == word && text[|word|..|word| + 15] == " credit score. "
  {
    var b := BandOf(score);
    InitialsDistinct(b, Excellent);
    InitialsDistinct(b, Poor);
    BandText(b)
  }

  /** A higher score never lands in a lower band. */
  lemma BandsMonotone(a: real, b: real)
    requires a <= b
    ensures Rank(BandOf(b)) <= Rank(BandOf(a))
  {
  }

  /** Colour and text use the same thresholds: two scores share a colour exactly when they share a text,
      and exactly when they share a band. */
  lemma ColorAndTextAgree(a: real, b: real)
    ensures ScoreColor(a) == ScoreColor(b) <==> BandOf(a) == BandOf(b)
    ensures ScoreText(a) == ScoreText(b) <==> BandOf(a) == BandOf(b)
  {
    BandColorsDistinct(BandOf(a), BandOf(b));
    BandTextsDistinct(BandOf(a), BandOf(b));
  }

  /** Two characters of a colour tell the five colours apart. */
  function ColorKey(b: Band): (char, char)
  {
    match b
    case Excellent => ('4', 'a')
    case VeryGood => ('8', 'c')
    case Good => ('f', 'c')
    case Fair => ('f', '9')
    case Poor => ('f', '4')
  }

  lemma BandColorsDistinct(x: Band, y: Band)
    ensures BandColor(x) == BandColor(y) <==> x == y
  {
    assert (BandColor(x)[1], BandColor(x)[3]) == ColorKey(x);
    assert (BandColor(y)[1], BandColor(y)[3]) == ColorKey(y);
  }

  /** The first letter of a text names its band. */
  function Initial(b: Band): char
  {
    match b
    case Excellent => 'E'
    case VeryGood => 'V'
    case Good => 'G'
    case Fair => 'F'
    case Poor => 'P'
  }

  lemma BandTextsDistinct(x: Band, y: Band)
    ensures BandText(x) == BandText(y) <==> x == y
  {
    InitialsDistinct(x, y);
    if BandText(x) == BandText(y) {
      assert BandText(x)[0] == BandText(y)[0];
    }
  }

  lemma InitialsDistinct(x: Band, y: Band)
    ensures Initial(x) == Initial(y) <==> x == y
  {
  }

  /** The thresholds are inclusive: 750 is Excellent and 749 Very good; the extractor's default of 0 is
      Poor. */
  lemma BoundaryScores()
    ensures BandOf(750.0) == Excellent && BandOf(749.0) == VeryGood
    ensures BandOf(600.0) == Fair && BandOf(599.0) == Poor
    ensures ScoreColor(0.0) == "#f44336"
  {
  }

  /** The overdue amount is red when positive and green otherwise, the default 0 included. */
  function OverdueColor(amountOverdue: real): (color: string)
    ensures color == "#d32f2f" <==> amountOverdue > 0.0
    ensures color == "#2e7d32" <==> amountOverdue <= 0.0
  {
    if amountOverdue > 0.0 then "#d32f2f" else "#2e7d32"
  }
}
