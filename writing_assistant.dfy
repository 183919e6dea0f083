/** The writing assistant page: the input guard before the backend call, how the reply is
    stored according to the action, the readability band of the current text, the word
    count under it, and "use this result". */
module WritingAssistant {
  import opened Common
  import opened Text

  /** The number of pieces `text.split(/[.!?]+/)` yields: one more than the number of
      runs of sentence-ending marks, so never 0. */
  function SentenceCount(text: string): (r: nat)
    ensures r == 1 + CountRuns(text, SentenceEnd, true, false)
    ensures r >= 1
  {
    SplitRunsLength(text, SentenceEnd);
    |SplitRuns(text, SentenceEnd)|
  }

  /** The number of pieces `text.split(/\s+/)` yields, empty pieces included. */
  function RawWordCount(text: string): (r: nat)
    ensures r == 1 + CountRuns(text, Whitespace, true, false)
    ensures r >= 1
  {
    SplitRunsLength(text, Whitespace);
    |SplitRuns(text, Whitespace)|
  }

  const EasyLevel: string := "Dễ đọc"
  const MediumLevel: string := "Trung bình"
  const HardLevel: string := "Khó đọc"

  /** `calculateReadabilityLevel`: the average words per sentence, as an exact ratio,
      against 15 and 20. The division is always defined because there is at least one
      sentence, so a text of fewer than 15 words always reads as easy. */
  function ReadabilityLevel(text: string): (r: string)
    ensures r == EasyLevel || r == MediumLevel || r == HardLevel
    ensures RawWordCount(text) < 15 ==> r == EasyLevel
  {
    RatioBelow(RawWordCount(text), SentenceCount(text), 15);
    var average := (RawWordCount(text) as real) / (SentenceCount(text) as real);
    if average < 15.0 then EasyLevel
    else if average < 20.0 then MediumLevel
    else HardLevel
  }

  lemma RatioBelow(w: nat, s: nat, bound: nat)
    requires s >= 1
    ensures (w as real) / (s as real) < bound as real <==> w < bound * s
  {
    var avg := (w as real) / (s as real);
    assert avg * (s as real) == w as real;
    if w < bound * s {
      assert avg * (s as real) < (bound as real) * (s as real);
    } else {
      assert avg * (s as real) >= (bound as real) * (s as real);
    }
  }

  /** The band in integer form: fewer than 15 words per sentence is easy, fewer than 20
      medium, the rest hard. */
  lemma ReadabilityInIntegers(text: string)
    ensures var w, s := RawWordCount(text), SentenceCount(text);
      && (ReadabilityLevel(text) == EasyLevel <==> w < 15 * s)
      && (ReadabilityLevel(text) == MediumLevel <==> 15 * s <= w < 20 * s)
      && (ReadabilityLevel(text) == HardLevel <==> w >= 20 * s)
  {
    var w, s := RawWordCount(text), SentenceCount(text);
    RatioBelow(w, s, 15);
    RatioBelow(w, s, 20);
    assert EasyLevel[0] != MediumLevel[0] && EasyLevel[0] != HardLevel[0];
    assert MediumLevel[0] != HardLevel[0];
  }

  /** The word count shown never exceeds the unfiltered count used for readability; for
      an empty text they are 0 and 1. */
  lemma WordCountsCompare(text: string)
    ensures WordCount(text) <= RawWordCount(text)
    ensures text == "" ==> WordCount(text) == 0 && RawWordCount(text) == 1
  {
  }

  /** The reply of the backend: the fields the page reads, plus the suggestion lists it
      only displays. */
  datatype AssistantReply = AssistantReply(text: string, improvedText: string, suggestions: seq<string>)

  /** Both the current text and a writing style are needed before the call. */
  predicate InputsComplete(currentText: string, writingStyle: string)
  {
    currentText != "" && writingStyle != ""
  }

  /** The assistant page's state. */
  class AssistantState {
    var context: string
    var currentText: string
    var writingStyle: string
    var suggestions: Option<AssistantReply>
    var improvedText: string

    constructor()
      ensures context == "" && currentText == "" && writingStyle == ""
      ensures suggestions == None && improvedText == ""
    {
      context := "";
      currentText := "";
      writingStyle := "";
      suggestions := None;
      improvedText := "";
    }

    function WordCountShown(): (r: nat)
      reads this
      ensures r <= RawWordCount(currentText)
      ensures IsBlank(currentText) ==> r == 0
    {
      WordCount(currentText)
    }

    /** `processText(action)`: no call without a text and a style; after a successful
        'improve' the reply is kept as the suggestions and its improved text shown; after
        any other successful action the reply's text is shown and the suggestions cleared;
        a failed call changes nothing. */
    method ProcessText(action: string, reply: Outcome<AssistantReply>) returns (called: bool)
      modifies this
      ensures called <==> InputsComplete(currentText, writingStyle)
      ensures context == old(context) && currentText == old(currentText) && writingStyle == old(writingStyle)
      ensures called && reply.Succeeded? && action == "improve" ==>
        suggestions == Some(reply.data) && improvedText == reply.data.improvedText
      ensures called && reply.Succeeded? && action != "improve" ==>
        suggestions == None && improvedText == reply.data.text
      ensures !(called && reply.Succeeded?) ==>
        suggestions == old(suggestions) && improvedText == old(improvedText)
    {
      if !InputsComplete(currentText, writingStyle) {
        return false;
      }
      called := true;
      if reply.Failed? {
        return;
      }
      if action == "improve" {
        suggestions := Some(reply.data);
        improvedText := reply.data.improvedText;
      } else {
        improvedText := reply.data.text;
        suggestions := None;
      }
    }

    /** "Use this result": the improved text becomes the current text. */
    method UseResult()
      modifies this
      ensures currentText == old(improvedText)
      ensures improvedText == old(improvedText) && suggestions == old(suggestions)
      ensures context == old(context) && writingStyle == old(writingStyle)
    {
      currentText := improvedText;
    }
  }
}
