/** The plagiarism checker page: the blank-text guard before the backend call, the three
    similarity bands behind the colour and the badge, the risk badge of a suspicious phrase,
    and the word count under the input. */
module PlagiarismDetector {
  import opened Common
  import opened Text

  datatype SuspiciousPhrase = SuspiciousPhrase(text: string, startPosition: int, endPosition: int, riskLevel: string)

  datatype PotentialSource = PotentialSource(title: string, kind: string, similarity: real, matchedText: string)

  datatype ParaphraseSuggestion = ParaphraseSuggestion(original: string, suggestion: string, reason: string)

  datatype PlagiarismResult = PlagiarismResult(
    similarityPercentage: real,
    suspiciousPhrases: seq<SuspiciousPhrase>,
    potentialSources: seq<PotentialSource>,
    paraphraseSuggestions: seq<ParaphraseSuggestion>,
    overallAssessment: string)

  /** The three similarity bands, from safest to riskiest. */
  datatype Band = Safe | Caution | HighRisk

  function Rank(b: Band): nat
  {
    match b
    case Safe => 0
    case Caution => 1
    case HighRisk => 2
  }

  /** The band a percentage falls in: below 15, below 30, or from 30 up. */
  function BandOf(percentage: real): (b: Band)
    ensures b == Safe <==> percentage < 15.0
    ensures b == Caution <==> 15.0 <= percentage < 30.0
    ensures b == HighRisk <==> percentage >= 30.0
  {
    if percentage < 15.0 then Safe else if percentage < 30.0 then Caution else HighRisk
  }

  /** `getSimilarityColor`. */
  function SimilarityColor(percentage: real): (r: string)
    ensures percentage < 15.0 ==> r == "text-green-600"
    ensures 15.0 <= percentage < 30.0 ==> r == "text-yellow-600"
    ensures percentage >= 30.0 ==> r == "text-red-600"
  {
    if percentage < 15.0 then "text-green-600"
    else if percentage < 30.0 then "text-yellow-600"
    else "text-red-600"
  }

  /** `getSimilarityBadge`. */
  function SimilarityBadge(percentage: real): (r: Badge)
    ensures percentage < 15.0 ==> r == Badge(Default, "An toàn")
    ensures 15.0 <= percentage < 30.0 ==> r == Badge(Secondary, "Cảnh báo")
    ensures percentage >= 30.0 ==> r == Badge(Destructive, "Rủi ro cao")
  {
    if percentage < 15.0 then Badge(Default, "An toàn")
    else if percentage < 30.0 then Badge(Secondary, "Cảnh báo")
    else Badge(Destructive, "Rủi ro cao")
  }

  function BandColor(b: Band): string
  {
    match b
    case Safe => "text-green-600"
    case Caution => "text-yellow-600"
    case HighRisk => "text-red-600"
  }

  function BandBadge(b: Band): Badge
  {
    match b
    case Safe => Badge(Default, "An toàn")
    case Caution => Badge(Secondary, "Cảnh báo")
    case HighRisk => Badge(Destructive, "Rủi ro cao")
  }

  /** The colour and the badge always come from the same band. */
  lemma ColorAndBadgeAgree(percentage: real)
    ensures SimilarityColor(percentage) == BandColor(BandOf(percentage))
    ensures SimilarityBadge(percentage) == BandBadge(BandOf(percentage))
  {
  }

  /** A colour names one band only, so equal colours mean equal badges. */
  lemma SameColorSameBadge(p: real, q: real)
    requires SimilarityColor(p) == SimilarityColor(q)
    ensures SimilarityBadge(p) == SimilarityBadge(q)
  {
    assert "text-green-600"[5] != "text-yellow-600"[5] && "text-green-600"[5] != "text-red-600"[5];
    assert "text-yellow-600"[5] != "text-red-600"[5];
  }

  /** A higher percentage never lands in a safer band. */
  lemma BandsMonotone(p: real, q: real)
    requires p <= q
    ensures Rank(BandOf(p)) <= Rank(BandOf(q))
  {
  }

  /** The badge of a suspicious phrase: "high", "medium", and every other level as low. */
  function RiskBadge(riskLevel: string): (r: Badge)
    ensures riskLevel == "high" ==> r == Badge(Destructive, "Rủi ro cao")
    ensures riskLevel == "medium" ==> r == Badge(Secondary, "Rủi ro trung bình")
    ensures riskLevel != "high" && riskLevel != "medium" ==> r == Badge(Outline, "Rủi ro thấp")
  {
    if riskLevel == "high" then Badge(Destructive, "Rủi ro cao")
    else if riskLevel == "medium" then Badge(Secondary, "Rủi ro trung bình")
    else Badge(Outline, "Rủi ro thấp")
  }

  /** A high-risk phrase carries the same badge as a similarity of 30% or more. */
  lemma HighRiskBadgesAgree(percentage: real)
    requires percentage >= 30.0
    ensures RiskBadge("high") == SimilarityBadge(percentage)
  {
  }

  /** The checker page's state. */
  class PlagiarismState {
    var text: string
    var fileName: string
    var result: Option<PlagiarismResult>

    constructor()
      ensures text == "" && fileName == "" && result == None
    {
      text := "";
      fileName := "";
      result := None;
    }

    /** The word count under the input: non-empty whitespace-separated tokens. */
    function WordCountShown(): (r: nat)
      reads this
      ensures r == CountRuns(text, Whitespace, false, false)
      ensures IsBlank(text) ==> r == 0
    {
      WordCount(text)
    }

    /** `checkPlagiarism`: text that is blank after trimming never reaches the backend; a
        successful check stores its result and a failed one keeps the previous result. */
    method Check(reply: Outcome<PlagiarismResult>) returns (called: bool)
      modifies this
      ensures called <==> !IsBlank(text)
      ensures text == old(text) && fileName == old(fileName)
      ensures result == if called && reply.Succeeded? then Some(reply.data) else old(result)
    {
      TrimEmptyIffBlank(text);
      if Trim(text) == "" {
        return false;
      }
      called := true;
      if reply.Succeeded? {
        result := Some(reply.data);
      }
    }
  }
}
